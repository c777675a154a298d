/*
 * The per-conversation state the audio decoders share: the USB conversation
 * record (owned by the generic USB layer) and the audio class data it carries,
 * which records the major versions negotiated by the header descriptors.
 */
module Conversation {
  import opened UsbAudioTypes

  /**
   * The class data slot of a USB conversation, as a tagged variant.
   * - NoClassData: nothing attached yet.
   * - AudioData: the audio state, tagged as audio; major versions of the
   *   audio class and MIDI class definitions, 0 while unknown.
   * - ForeignData: data tagged with another USB class. The non-header audio
   *   decoders do not look at the tag: they read the first byte of that data
   *   as if it were the audio major version, and that byte is `leadingByte`.
   */
  datatype ClassData =
    | NoClassData
    | AudioData(audioVerMajor: byte, midiVerMajor: byte)
    | ForeignData(leadingByte: byte)

  /** A fresh, zeroed audio state. */
  function AllocateAudioConvInfo(): (cd: ClassData)
    ensures cd.AudioData? && cd.midiVerMajor == 0
    ensures GatedVersion(cd) == Some(0)
  {
    AudioData(0, 0)
  }

  /**
   * The audio major version as the non-header decoders see it: None when no
   * class data exists, otherwise the first byte of the class data, whatever
   * class it is tagged with.
   */
  function GatedVersion(cd: ClassData): (v: Option<byte>)
    ensures v.None? <==> cd.NoClassData?
    ensures cd.AudioData? ==> v == Some(cd.audioVerMajor)
    ensures cd.ForeignData? ==> v == Some(cd.leadingByte)
  {
    match cd
    case NoClassData => None
    case AudioData(v, _) => Some(v)
    case ForeignData(b) => Some(b)
  }

  /**
   * The shape shared by the version-gated bodies: nothing is decoded when no
   * class data exists or the version seen is neither 1 nor 2; otherwise the
   * body is a run of fixed fields, `v1Len` or `v2Len` bytes long.
   */
  function VersionedSpan(buf: seq<byte>, offset: nat, cd: ClassData, v1Len: nat, v2Len: nat): Outcome
  {
    match GatedVersion(cd)
    case None => Decoded(0, [])
    case Some(v) =>
      if v == 1 then Span(buf, offset, v1Len)
      else if v == 2 then Span(buf, offset, v2Len)
      else Decoded(0, [])
  }

  /** The parts of the generic USB conversation record that the audio decoders use. */
  class UsbConvInfo {
    var interfaceClass: int
    var interfaceSubclass: int
    var classData: ClassData

    constructor (ifClass: int, ifSubclass: int)
      ensures interfaceClass == ifClass && interfaceSubclass == ifSubclass
      ensures classData == NoClassData
    {
      interfaceClass := ifClass;
      interfaceSubclass := ifSubclass;
      classData := NoClassData;
    }
  }
}

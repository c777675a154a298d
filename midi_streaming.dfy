/*
 * Bodies of the class-specific MIDI streaming (MS) interface and endpoint
 * descriptors of the USB MIDI device class definition, release 1.0.
 */
module MidiStreaming {
  import opened UsbAudioTypes
  import opened Conversation

  /** The MS header body: its outcome and the class data it leaves behind. */
  function MsHeaderSpec(buf: seq<byte>, offset: nat, cd: ClassData): (Outcome, ClassData)
  {
    if offset + 2 > |buf| then (ReadPastEnd, cd)
    else if cd.ForeignData? then (Decoded(0, []), cd)
    else
      var base := if cd.NoClassData? then AllocateAudioConvInfo() else cd;
      (Span(buf, offset, 4), base.(midiVerMajor := Bcd44ToDec(buf[offset + 1])))
  }

  /**
   * The MS header: claims the conversation for audio (or declines when the
   * class data belongs to another class) and records the MIDI major version
   * taken from the high byte of bcdMSC; then wTotalLength.
   */
  method DissectMsHeader(buf: seq<byte>, offset: nat, conv: UsbConvInfo) returns (r: Outcome)
    modifies conv`classData
    ensures (r, conv.classData) == MsHeaderSpec(buf, offset, old(conv.classData))
    ensures old(conv.classData).ForeignData? ==> conv.classData == old(conv.classData) && r in {Decoded(0, []), ReadPastEnd}
    ensures offset + 2 <= |buf| && !old(conv.classData).ForeignData? ==>
      conv.classData == AudioData(if old(conv.classData).AudioData? then old(conv.classData).audioVerMajor else 0,
                                  Bcd44ToDec(buf[offset + 1]))
    ensures r.Decoded? && r.consumed > 0 ==> r.consumed == 4
  {
    var pos := offset;
    if pos + 2 > |buf| {
      return ReadPastEnd;
    }
    var bcdMsc: int := buf[pos] as int + 256 * (buf[pos + 1] as int);
    assert bcdMsc / 256 == buf[pos + 1];
    var verMajor := Bcd44ToDec(bcdMsc / 256);
    match conv.classData {
      case NoClassData =>
        conv.classData := AllocateAudioConvInfo();
      case ForeignData(_) =>
        // another USB class owns the conversation
        return Decoded(0, []);
      case AudioData(_, _) =>
    }
    conv.classData := conv.classData.(midiVerMajor := verMajor);
    pos := pos + 2;
    pos := pos + 2;  // wTotalLength
    if pos > |buf| {
      return ReadPastEnd;
    }
    r := Decoded(pos - offset, []);
  }

  /** MIDI IN jack: bJackType, bJackID, iJack. */
  method DissectMidiInJack(buf: seq<byte>, offset: nat) returns (r: Outcome)
    ensures r == Span(buf, offset, 3)
  {
    var pos := offset;
    pos := pos + 1;  // bJackType
    pos := pos + 1;  // bJackID
    pos := pos + 1;  // iJack
    if pos > |buf| {
      return ReadPastEnd;
    }
    r := Decoded(pos - offset, []);
  }

  /** One input pin of a MIDI OUT jack: the entity it connects to and that entity's output pin. */
  datatype OutJackSource = OutJackSource(sourceId: byte, sourcePin: byte)

  /** MIDI OUT jack: bNrInputPins (source ID, source pin) pairs among 4 bytes of fixed fields. */
  method DissectMidiOutJack(buf: seq<byte>, offset: nat) returns (r: Outcome, sources: seq<OutJackSource>)
    ensures r == CountedBody(buf, offset, 2, 4, 2)
    ensures r.Decoded? ==>
      |sources| == buf[offset + 2] &&
      forall i :: 0 <= i < |sources| ==>
        offset + 5 + 2 * i <= |buf| && sources[i] == OutJackSource(buf[offset + 3 + 2 * i], buf[offset + 4 + 2 * i])
  {
    sources := [];
    var pos := offset;
    pos := pos + 1;  // bJackType
    pos := pos + 1;  // bJackID
    if pos >= |buf| {
      return ReadPastEnd, [];
    }
    var nrInputPins := buf[pos];
    pos := pos + 1;
    while nrInputPins > 0
      invariant |sources| + nrInputPins == buf[offset + 2]
      invariant pos == offset + 3 + 2 * |sources| <= |buf|
      invariant forall i :: 0 <= i < |sources| ==>
        offset + 5 + 2 * i <= |buf| && sources[i] == OutJackSource(buf[offset + 3 + 2 * i], buf[offset + 4 + 2 * i])
    {
      if pos + 2 > |buf| {
        return ReadPastEnd, [];
      }
      sources := sources + [OutJackSource(buf[pos], buf[pos + 1])];  // baSourceID, BaSourcePin
      pos := pos + 2;
      nrInputPins := nrInputPins - 1;
    }
    pos := pos + 1;  // iJack
    if pos > |buf| {
      return ReadPastEnd, [];
    }
    r := Decoded(pos - offset, []);
  }

  /** MS bulk endpoint general descriptor: bNumEmbMIDIJack associated jack IDs. */
  method DissectMsEndpointGeneral(buf: seq<byte>, offset: nat) returns (r: Outcome, jackIds: seq<byte>)
    ensures r == CountedBody(buf, offset, 0, 1, 1)
    ensures r.Decoded? ==>
      offset + 1 + buf[offset] <= |buf| &&
      jackIds == buf[offset + 1 .. offset + 1 + buf[offset]]
  {
    jackIds := [];
    var pos := offset;
    if pos >= |buf| {
      return ReadPastEnd, [];
    }
    var numJacks := buf[pos];
    pos := pos + 1;
    while numJacks > 0
      invariant pos + numJacks == offset + 1 + buf[offset]
      invariant pos <= |buf|
      invariant jackIds == buf[offset + 1 .. pos]
    {
      if pos >= |buf| {
        return ReadPastEnd, [];
      }
      jackIds := jackIds + [buf[pos]];  // baAssocJackID
      pos := pos + 1;
      numJacks := numJacks - 1;
    }
    r := Decoded(pos - offset, []);
  }
}

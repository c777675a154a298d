/*
 * Bodies of the class-specific audio streaming (AS) interface and endpoint
 * descriptors: the general descriptor, the format type descriptors of
 * versions 1 and 2 and the isochronous endpoint's general descriptor.
 */
module AudioStreaming {
  import opened UsbAudioTypes
  import opened Conversation

  /** AS interface general descriptor: 4 bytes under version 1, 13 under version 2. */
  method DissectAsGeneral(buf: seq<byte>, offset: nat, cd: ClassData) returns (r: Outcome)
    ensures r == VersionedSpan(buf, offset, cd, 4, 13)
  {
    var ver := GatedVersion(cd);
    if ver.None? {
      return Decoded(0, []);
    }
    var pos := offset;
    if ver.value == 1 {
      pos := pos + 1;  // bTerminalLink
      pos := pos + 1;  // bDelay
      pos := pos + 2;  // wFormatTag
    } else if ver.value == 2 {
      pos := pos + 1;  // bTerminalLink
      pos := pos + 1;  // bmControls
      pos := pos + 1;  // bFormatType, which only selects how bmFormats is shown
      pos := pos + 4;  // bmFormats
      pos := pos + 1;  // bNrChannels
      pos := pos + 4;  // bmChannelConfig
      pos := pos + 1;  // iChannelNames
    } else {
      return Decoded(0, []);  // any other version: no field is read
    }
    if pos > |buf| {
      return ReadPastEnd;
    }
    r := Decoded(pos - offset, []);
  }

  // ------------------------------------------------------ sample frequencies

  /** Number of 24-bit rates that follow bSamFreqType: a lower and upper bound when it is 0. */
  function SamFreqCount(samFreqType: byte): nat
  {
    if samFreqType == 0 then 2 else samFreqType
  }

  /** Bytes of the sample frequency list that follows bSamFreqType. */
  function SamFreqTailLength(samFreqType: byte): nat
  {
    3 * SamFreqCount(samFreqType)
  }

  /** A 24-bit little-endian value. */
  function Le24(buf: seq<byte>, at: nat): nat
    requires at + 3 <= |buf|
  {
    buf[at] as int + 256 * (buf[at + 1] as int) + 65536 * (buf[at + 2] as int)
  }

  /**
   * The count byte bSamFreqType at `countAt` and the rates after it: when it
   * is 0 a continuous range (two rates), otherwise that many discrete rates.
   */
  method DissectSamFreqs(buf: seq<byte>, countAt: nat) returns (ok: bool, freqs: seq<nat>)
    ensures ok <==> countAt < |buf| && countAt + 1 + SamFreqTailLength(buf[countAt]) <= |buf|
    ensures ok ==>
      |freqs| == SamFreqCount(buf[countAt]) &&
      forall i :: 0 <= i < |freqs| ==> countAt + 4 + 3 * i <= |buf| && freqs[i] == Le24(buf, countAt + 1 + 3 * i)
  {
    freqs := [];
    var pos := countAt;
    if pos >= |buf| {
      return false, [];
    }
    var samFreqType := buf[pos];
    pos := pos + 1;
    if samFreqType == 0 {
      if pos + 6 > |buf| {
        return false, [];
      }
      freqs := [Le24(buf, pos), Le24(buf, pos + 3)];  // tLowerSamFreq, tUpperSamFreq
      pos := pos + 6;
    } else {
      var left := samFreqType;
      while left > 0
        invariant 0 <= left <= samFreqType
        invariant |freqs| == samFreqType - left
        invariant pos == countAt + 1 + 3 * |freqs| <= |buf|
        invariant forall i :: 0 <= i < |freqs| ==> countAt + 4 + 3 * i <= |buf| && freqs[i] == Le24(buf, countAt + 1 + 3 * i)
      {
        if pos + 3 > |buf| {
          return false, [];
        }
        freqs := freqs + [Le24(buf, pos)];  // tSamFreq
        pos := pos + 3;
        left := left - 1;
      }
    }
    ok := true;
  }

  // ------------------------------------------------------------ format type

  /** The three type III constraints, each violation flagged once at its field. */
  function Type3Diags(buf: seq<byte>, offset: nat): seq<Diagnostic>
    requires offset + 4 <= |buf|
  {
    (if buf[offset + 1] != 2 then [InvalidType3NrChannels(offset + 1)] else [])
    + (if buf[offset + 2] != 2 then [InvalidType3SubframeSize(offset + 2)] else [])
    + (if buf[offset + 3] != 16 then [InvalidType3BitResolution(offset + 3)] else [])
  }

  /** Type III's bNrChannels, bSubframeSize and bBitResolution, each checked against its fixed value. */
  method CheckType3Fields(buf: seq<byte>, offset: nat) returns (diags: seq<Diagnostic>)
    requires offset + 4 <= |buf|
    ensures diags == Type3Diags(buf, offset)
    ensures |diags| <= 3
    ensures diags == [] <==> buf[offset + 1] == 2 && buf[offset + 2] == 2 && buf[offset + 3] == 16
    ensures InvalidType3NrChannels(offset + 1) in diags <==> buf[offset + 1] != 2
    ensures InvalidType3SubframeSize(offset + 2) in diags <==> buf[offset + 2] != 2
    ensures InvalidType3BitResolution(offset + 3) in diags <==> buf[offset + 3] != 16
  {
    diags := [];
    var pos := offset + 1;
    if buf[pos] != 2 {
      diags := diags + [InvalidType3NrChannels(pos)];
    }
    pos := pos + 1;
    if buf[pos] != 2 {
      diags := diags + [InvalidType3SubframeSize(pos)];
    }
    pos := pos + 1;
    if buf[pos] != 16 {
      diags := diags + [InvalidType3BitResolution(pos)];
    }
  }

  /** The version 1 format type body. */
  function FormatTypeV1Spec(buf: seq<byte>, offset: nat): Outcome
  {
    if offset >= |buf| then ReadPastEnd
    else if buf[offset] == 1 || buf[offset] == 3 then
      if offset + 5 > |buf| then ReadPastEnd
      else if offset + 5 + SamFreqTailLength(buf[offset + 4]) > |buf| then ReadPastEnd
      else Decoded(5 + SamFreqTailLength(buf[offset + 4]), if buf[offset] == 3 then Type3Diags(buf, offset) else [])
    else if buf[offset] == 2 then
      if offset + 6 > |buf| then ReadPastEnd
      else Span(buf, offset, 6 + SamFreqTailLength(buf[offset + 5]))
    else Decoded(1, [])
  }

  /**
   * Format type descriptor of version 1: type I (PCM-like), type II
   * (compressed, bit rate) and type III (fixed 2 channels of 2-byte subframes
   * at 16 bits, deviations flagged but decoded), each ending in the sample
   * frequency list; any other type decodes only bFormatType.
   */
  method DissectFormatTypeV1(buf: seq<byte>, offset: nat) returns (r: Outcome, freqs: seq<nat>)
    ensures r == FormatTypeV1Spec(buf, offset)
    ensures r.Decoded? && r.consumed > 1 ==>
      var countAt := if buf[offset] == 2 then offset + 5 else offset + 4;
      && |freqs| == SamFreqCount(buf[countAt])
      && forall i :: 0 <= i < |freqs| ==> countAt + 4 + 3 * i <= |buf| && freqs[i] == Le24(buf, countAt + 1 + 3 * i)
  {
    freqs := [];
    var diags: seq<Diagnostic> := [];
    var pos := offset;
    if pos >= |buf| {
      return ReadPastEnd, [];
    }
    var formatType := buf[pos];
    pos := pos + 1;
    if formatType == 1 {
      pos := pos + 1;  // bNrChannels
      pos := pos + 1;  // bSubframeSize
      pos := pos + 1;  // bBitResolution
    } else if formatType == 2 {
      pos := pos + 2;  // wMaxBitRate
      pos := pos + 2;  // wSamplesPerFrame
    } else if formatType == 3 {
      if pos + 3 > |buf| {
        return ReadPastEnd, [];
      }
      diags := CheckType3Fields(buf, offset);
      pos := pos + 3;
    } else {
      return Decoded(1, []), [];
    }
    var ok;
    ok, freqs := DissectSamFreqs(buf, pos);
    if !ok {
      return ReadPastEnd, [];
    }
    pos := pos + 1 + SamFreqTailLength(buf[pos]);
    r := Decoded(pos - offset, diags);
  }

  /** The version 2 format type body: 3 bytes for type I, otherwise only bFormatType. */
  function FormatTypeV2Spec(buf: seq<byte>, offset: nat): Outcome
  {
    if offset >= |buf| then ReadPastEnd
    else if buf[offset] == 1 then Span(buf, offset, 3)
    else Decoded(1, [])
  }

  method DissectFormatTypeV2(buf: seq<byte>, offset: nat) returns (r: Outcome)
    ensures r == FormatTypeV2Spec(buf, offset)
  {
    var pos := offset;
    if pos >= |buf| {
      return ReadPastEnd;
    }
    var formatType := buf[pos];
    pos := pos + 1;
    if formatType == 1 {
      pos := pos + 1;  // bSubslotSize
      pos := pos + 1;  // bBitResolution
      if pos > |buf| {
        return ReadPastEnd;
      }
    }
    r := Decoded(pos - offset, []);
  }

  /** The format type body as chosen by the conversation's audio major version. */
  function FormatTypeSpec(buf: seq<byte>, offset: nat, cd: ClassData): Outcome
  {
    match GatedVersion(cd)
    case None => Decoded(0, [])
    case Some(v) =>
      if v == 1 then FormatTypeV1Spec(buf, offset)
      else if v == 2 then FormatTypeV2Spec(buf, offset)
      else Decoded(0, [])
  }

  method DissectFormatType(buf: seq<byte>, offset: nat, cd: ClassData) returns (r: Outcome)
    ensures r == FormatTypeSpec(buf, offset, cd)
  {
    var ver := GatedVersion(cd);
    if ver.None? {
      return Decoded(0, []);
    }
    if ver.value == 1 {
      var freqs;
      r, freqs := DissectFormatTypeV1(buf, offset);
    } else if ver.value == 2 {
      r := DissectFormatTypeV2(buf, offset);
    } else {
      r := Decoded(0, []);
    }
  }

  // --------------------------------------------------------------- endpoint

  /** AS isochronous endpoint general descriptor: 4 bytes under version 1, 5 under version 2. */
  method DissectAsEndpointGeneral(buf: seq<byte>, offset: nat, cd: ClassData) returns (r: Outcome)
    ensures r == VersionedSpan(buf, offset, cd, 4, 5)
  {
    var ver := GatedVersion(cd);
    if ver.None? {
      return Decoded(0, []);
    }
    var major := ver.value;
    if !(major == 1 || major == 2) {
      return Decoded(0, []);
    }
    var pos := offset;
    if major == 1 {
      pos := pos + 1;  // bmAttributes
    } else {
      pos := pos + 1;  // bmAttributes
      pos := pos + 1;  // bmControls
    }
    pos := pos + 1;  // bLockDelayUnits
    pos := pos + 2;  // wLockDelay
    if pos > |buf| {
      return ReadPastEnd;
    }
    r := Decoded(pos - offset, []);
  }
}

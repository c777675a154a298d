/*
 * Bodies of the class-specific audio control (AC) interface descriptors.
 * Each decoder starts at `offset`, just past the subtype byte, moves a
 * position through the fields and returns how many bytes it decoded.
 */
module AudioControl {
  import opened UsbAudioTypes
  import opened Conversation

  // ---------------------------------------------------------------- header

  /** Bytes of the AC header body decoded for a given major version. */
  function AcHeaderLength(buf: seq<byte>, offset: nat, major: byte): Outcome
  {
    if major == 1 then CountedBody(buf, offset, 4, 5, 1)   // bcdADC, wTotalLength, bInCollection, baInterfaceNr[]
    else if major == 2 then Span(buf, offset, 6)          // bcdADC, bCategory, wTotalLength, bmControls
    else Span(buf, offset, 2)                              // bcdADC only
  }

  /** The AC header body: its outcome and the class data it leaves behind. */
  function AcHeaderSpec(buf: seq<byte>, offset: nat, cd: ClassData): (Outcome, ClassData)
  {
    if offset + 2 > |buf| then (ReadPastEnd, cd)
    else if cd.ForeignData? then (Decoded(0, []), cd)
    else
      var major := Bcd44ToDec(buf[offset + 1]);
      var base := if cd.NoClassData? then AllocateAudioConvInfo() else cd;
      (AcHeaderLength(buf, offset, major), base.(audioVerMajor := major))
  }

  /**
   * The AC header: claims the conversation for audio (or declines when the
   * class data belongs to another class) and records the audio major version
   * taken from the high byte of bcdADC.
   */
  method DissectAcHeader(buf: seq<byte>, offset: nat, conv: UsbConvInfo) returns (r: Outcome, interfaceNrs: seq<byte>)
    modifies conv`classData
    ensures (r, conv.classData) == AcHeaderSpec(buf, offset, old(conv.classData))
    ensures old(conv.classData).ForeignData? ==> conv.classData == old(conv.classData) && r in {Decoded(0, []), ReadPastEnd}
    ensures offset + 2 <= |buf| && !old(conv.classData).ForeignData? ==>
      conv.classData == AudioData(Bcd44ToDec(buf[offset + 1]),
                                  if old(conv.classData).AudioData? then old(conv.classData).midiVerMajor else 0)
    ensures offset + 5 <= |buf| && r.Decoded? && r.consumed > 0 && Bcd44ToDec(buf[offset + 1]) == 1 ==>
      r.consumed == buf[offset + 4] as int + 5 && interfaceNrs == buf[offset + 5 .. offset + 5 + buf[offset + 4]]
  {
    interfaceNrs := [];
    var pos := offset;
    if pos + 2 > |buf| {
      return ReadPastEnd, [];
    }
    var bcdAdc: int := buf[pos] as int + 256 * (buf[pos + 1] as int);
    assert bcdAdc / 256 == buf[pos + 1];
    var verMajor := Bcd44ToDec(bcdAdc / 256);
    match conv.classData {
      case NoClassData =>
        conv.classData := AllocateAudioConvInfo();
      case ForeignData(_) =>
        // another USB class owns the conversation
        return Decoded(0, []), [];
      case AudioData(_, _) =>
    }
    conv.classData := conv.classData.(audioVerMajor := verMajor);
    pos := pos + 2;
    if verMajor == 1 {
      pos := pos + 2;  // wTotalLength
      if pos >= |buf| {
        return ReadPastEnd, [];
      }
      var inCollection := buf[pos];
      pos := pos + 1;
      var i := 0;
      while i < inCollection
        invariant 0 <= i <= inCollection
        invariant pos == offset + 5 + i <= |buf|
        invariant interfaceNrs == buf[offset + 5 .. pos]
      {
        if pos >= |buf| {
          return ReadPastEnd, [];
        }
        interfaceNrs := interfaceNrs + [buf[pos]];
        pos := pos + 1;
        i := i + 1;
      }
    } else if verMajor == 2 {
      pos := pos + 4;  // bCategory, wTotalLength, bmControls
      if pos > |buf| {
        return ReadPastEnd, [];
      }
    }
    r := Decoded(pos - offset, []);
  }

  // ------------------------------------------------------------- terminals

  /** Input terminal: 9 bytes under version 1, 14 under version 2. */
  method DissectInputTerminal(buf: seq<byte>, offset: nat, cd: ClassData) returns (r: Outcome)
    ensures r == VersionedSpan(buf, offset, cd, 9, 14)
  {
    var ver := GatedVersion(cd);
    if ver.None? {
      return Decoded(0, []);
    }
    var major := ver.value;
    if !(major == 1 || major == 2) {
      return Decoded(0, []);  // unknown version: decode nothing
    }
    var pos := offset;
    pos := pos + 1;  // bTerminalID
    pos := pos + 2;  // wTerminalType
    pos := pos + 1;  // bAssocTerminal
    if major == 2 {
      pos := pos + 1;  // bCSourceID
    }
    pos := pos + 1;  // bNrChannels
    if major == 1 {
      pos := pos + 2;  // wChannelConfig
    } else {
      pos := pos + 4;  // bmChannelConfig
    }
    pos := pos + 1;  // iChannelNames
    if major == 2 {
      pos := pos + 2;  // bmControls
    }
    pos := pos + 1;  // iTerminal
    // the fields are contiguous, so a read fails iff the last one ends past the buffer
    if pos > |buf| {
      return ReadPastEnd;
    }
    r := Decoded(pos - offset, []);
  }

  /** Output terminal: 6 bytes under version 1, 9 under version 2. */
  method DissectOutputTerminal(buf: seq<byte>, offset: nat, cd: ClassData) returns (r: Outcome)
    ensures r == VersionedSpan(buf, offset, cd, 6, 9)
  {
    var ver := GatedVersion(cd);
    if ver.None? {
      return Decoded(0, []);
    }
    var major := ver.value;
    if !(major == 1 || major == 2) {
      return Decoded(0, []);
    }
    var pos := offset;
    pos := pos + 1;  // bTerminalID
    pos := pos + 2;  // wTerminalType
    pos := pos + 1;  // bAssocTerminal
    pos := pos + 1;  // bSourceID
    if major == 2 {
      pos := pos + 1;  // bCSourceID
      pos := pos + 2;  // bmControls
    }
    pos := pos + 1;  // iTerminal
    if pos > |buf| {
      return ReadPastEnd;
    }
    r := Decoded(pos - offset, []);
  }

  // ----------------------------------------------------- mixer and selector

  /** Mixer unit: bNrInPins source IDs among 8 bytes of fixed fields. */
  method DissectMixerUnit(buf: seq<byte>, offset: nat) returns (r: Outcome, sourceIds: seq<byte>)
    ensures r == CountedBody(buf, offset, 1, 8, 1)
    ensures r.Decoded? ==>
      offset + 2 + buf[offset + 1] <= |buf| &&
      sourceIds == buf[offset + 2 .. offset + 2 + buf[offset + 1]]
  {
    sourceIds := [];
    var pos := offset + 1;  // bUnitID
    if pos >= |buf| {
      return ReadPastEnd, [];
    }
    var nrInPins := buf[pos];
    pos := pos + 1;
    while nrInPins > 0
      invariant pos + nrInPins == offset + 2 + buf[offset + 1]
      invariant pos <= |buf|
      invariant sourceIds == buf[offset + 2 .. pos]
    {
      if pos >= |buf| {
        return ReadPastEnd, [];
      }
      sourceIds := sourceIds + [buf[pos]];
      nrInPins := nrInPins - 1;
      pos := pos + 1;
    }
    pos := pos + 1;  // bNrChannels
    pos := pos + 2;  // wChannelConfig
    pos := pos + 1;  // iChannelNames
    pos := pos + 1;  // bmControls
    pos := pos + 1;  // iMixer
    if pos > |buf| {
      return ReadPastEnd, [];
    }
    r := Decoded(pos - offset, []);
  }

  /** Selector unit: bNrInPins source IDs after two fixed bytes, then iSelector. */
  method DissectSelectorUnit(buf: seq<byte>, offset: nat) returns (r: Outcome, sourceIds: seq<byte>)
    ensures r == CountedBody(buf, offset, 1, 3, 1)
    ensures r.Decoded? ==>
      offset + 2 + buf[offset + 1] <= |buf| &&
      sourceIds == buf[offset + 2 .. offset + 2 + buf[offset + 1]]
  {
    sourceIds := [];
    var pos := offset + 1;  // bUnitID
    if pos >= |buf| {
      return ReadPastEnd, [];
    }
    var nrInPins := buf[pos];
    pos := pos + 1;
    var i := 0;
    while i < nrInPins
      invariant 0 <= i <= nrInPins
      invariant pos == offset + 2 + i <= |buf|
      invariant sourceIds == buf[offset + 2 .. pos]
    {
      if pos >= |buf| {
        return ReadPastEnd, [];
      }
      sourceIds := sourceIds + [buf[pos]];
      pos := pos + 1;
      i := i + 1;
    }
    pos := pos + 1;  // iSelector
    if pos > |buf| {
      return ReadPastEnd, [];
    }
    r := Decoded(pos - offset, []);
  }

  // ----------------------------------------------------------- feature unit

  /** The descriptor length of a feature unit with `channels` logical channels (section 4.3.2.5 of Audio 1.0). */
  function FeatureUnitLength(channels: nat, controlSize: nat): nat
  {
    7 + (channels + 1) * controlSize
  }

  /** The logical channel count the decoder derives from bLength, under C truncating division. */
  function FeatureUnitChannels(descLen: byte, controlSize: byte): int
  {
    if controlSize > 0 then TruncDiv(descLen - 7, controlSize) - 1 else 0
  }

  /** The decoder's acceptance test of a feature unit's bLength and bControlSize. */
  predicate FeatureUnitLengthValid(descLen: byte, controlSize: byte)
  {
    var ch := FeatureUnitChannels(descLen, controlSize);
    7 + (ch + 1) * controlSize == descLen && ch >= 0 && controlSize != 0
  }

  lemma MulLe(x: int, y: int, n: int)
    requires n >= 0
    ensures x <= y ==> x * n <= y * n
  {
    assert y * n - x * n == (y - x) * n;
  }

  /** From q*n <= k*n < q*n + n with n positive, q is k. */
  lemma QuotientOfMultiple(k: int, n: int, q: int)
    requires n > 0
    requires q * n <= k * n < q * n + n
    ensures q == k
  {
    assert (q + 1) * n == q * n + n;
    assert (k + 1) * n == k * n + n;
    MulLe(q + 1, k, n);
    MulLe(k + 1, q, n);
  }

  /**
   * The decoder accepts exactly the lengths 7+(c+1)*n of section 4.3.2.5 of
   * Audio 1.0, for a control size n of at least 1 and any channel count c,
   * and then the channel count it derives is that c.
   */
  lemma {:induction false} FeatureUnitLengthRule(descLen: byte, n: byte)
    ensures FeatureUnitLengthValid(descLen, n) <==> n >= 1 && exists c: nat :: FeatureUnitLength(c, n) == descLen
    ensures forall c: nat :: n >= 1 && FeatureUnitLength(c, n) == descLen ==> FeatureUnitChannels(descLen, n) == c
  {
    if FeatureUnitLengthValid(descLen, n) {
      var c: nat := FeatureUnitChannels(descLen, n);
      assert FeatureUnitLength(c, n) == descLen;
    }
    forall c: nat | n >= 1 && FeatureUnitLength(c, n) == descLen
      ensures FeatureUnitChannels(descLen, n) == c
    {
      var q := TruncDiv(descLen - 7, n);
      assert descLen - 7 == (c + 1) * n;
      MulLe(0, c + 1, n);
      QuotientOfMultiple(c + 1, n, q);
    }
  }

  /** The feature unit body: the control array, or a malformed-length report. */
  function FeatureUnitSpec(buf: seq<byte>, offset: nat, descLen: byte): Outcome
  {
    if offset + 3 > |buf| then ReadPastEnd
    else
      var n := buf[offset + 2];
      if FeatureUnitLengthValid(descLen, n) then
        // bUnitID, bSourceID, bControlSize, (ch+1)*n control bytes and iFeature,
        // where the length test makes (ch+1)*n equal to bLength-7
        MulLe(0, FeatureUnitChannels(descLen, n) + 1, n);
        Span(buf, offset, descLen - 3)
      else
        Decoded(descLen - offset, [InvalidFeatureUnitLength(offset + 3, descLen - (offset + 3))])
  }

  /**
   * Feature unit: derives the channel count from bLength and bControlSize;
   * on an inconsistent length reports it and skips to the declared end,
   * otherwise reads ch+1 control entries of bControlSize bytes and iFeature.
   */
  method DissectFeatureUnit(buf: seq<byte>, offset: nat, descLen: byte) returns (r: Outcome, controls: seq<seq<byte>>)
    ensures r == FeatureUnitSpec(buf, offset, descLen)
    ensures offset + 3 <= |buf| && FeatureUnitLengthValid(descLen, buf[offset + 2]) && r.Decoded? ==>
      && |controls| == FeatureUnitChannels(descLen, buf[offset + 2]) + 1
      && (forall c :: c in controls ==> |c| == buf[offset + 2])
      && offset + 3 <= offset + descLen - 4 <= |buf|
      && Flatten(controls) == buf[offset + 3 .. offset + descLen - 4]
  {
    controls := [];
    var pos := offset + 2;  // bUnitID, bSourceID
    if pos >= |buf| {
      return ReadPastEnd, [];
    }
    var controlSize := buf[pos];
    pos := pos + 1;
    if !FeatureUnitLengthValid(descLen, controlSize) {
      // malformed: report it and move the position to the declared end
      return Decoded(descLen - offset, [InvalidFeatureUnitLength(pos, descLen - pos)]), [];
    }
    var ch: nat := FeatureUnitChannels(descLen, controlSize);
    var ok;
    ok, controls := ReadControls(buf, pos, ch + 1, controlSize);
    if !ok {
      return ReadPastEnd, [];
    }
    pos := pos + (ch + 1) * controlSize;
    pos := pos + 1;  // iFeature
    if pos > |buf| {
      return ReadPastEnd, [];
    }
    r := Decoded(pos - offset, []);
  }

  /** `count` strides of `size` bytes, added up one at a time as the control loop does. */
  function Stride(count: nat, size: nat): nat
  {
    if count == 0 then 0 else Stride(count - 1, size) + size
  }

  lemma {:induction false} StrideIsProduct(count: nat, size: nat)
    ensures Stride(count, size) == count * size
  {
    if count > 0 {
      StrideIsProduct(count - 1, size);
      assert count * size == (count - 1) * size + size;
    }
  }

  lemma {:induction false} StrideMonotone(i: nat, count: nat, size: nat)
    requires i <= count
    ensures Stride(i, size) <= Stride(count, size)
    decreases count - i
  {
    if i < count {
      StrideMonotone(i, count - 1, size);
    }
  }

  /** One more entry read after the entries so far keeps them the bytes from `start` on. */
  lemma ControlsGrow(buf: seq<byte>, start: nat, pos: nat, size: nat, controls: seq<seq<byte>>)
    requires start <= pos && pos + size <= |buf| && Flatten(controls) == buf[start .. pos]
    ensures Flatten(controls + [buf[pos .. pos + size]]) == buf[start .. pos + size]
  {
    FlattenAppend(controls, buf[pos .. pos + size]);
    assert buf[start .. pos] + buf[pos .. pos + size] == buf[start .. pos + size];
  }

  /** The control array of a feature unit: `count` bmaControls entries of `size` bytes each, from `start`. */
  method ReadControls(buf: seq<byte>, start: nat, count: nat, size: nat) returns (ok: bool, controls: seq<seq<byte>>)
    requires start <= |buf|
    ensures ok <==> start + count * size <= |buf|
    ensures ok ==>
      && |controls| == count
      && (forall c :: c in controls ==> |c| == size)
      && Flatten(controls) == buf[start .. start + count * size]
  {
    StrideIsProduct(count, size);
    controls := [];
    var pos := start;
    var i := 0;
    while i < count
      invariant 0 <= i <= count
      invariant pos == start + Stride(i, size) <= |buf|
      invariant |controls| == i
      invariant forall c :: c in controls ==> |c| == size
      invariant Flatten(controls) == buf[start .. pos]
    {
      if pos + size > |buf| {
        StrideMonotone(i + 1, count, size);
        return false, [];
      }
      ControlsGrow(buf, start, pos, size, controls);
      controls := controls + [buf[pos .. pos + size]];
      pos := pos + size;
      i := i + 1;
    }
    ok := true;
  }

  // ------------------------------------------------------------ clock units

  /** Clock source: five fixed one-byte fields. */
  method DissectClockSource(buf: seq<byte>, offset: nat) returns (r: Outcome)
    ensures r == Span(buf, offset, 5)
  {
    var pos := offset;
    pos := pos + 1;  // bClockID
    pos := pos + 1;  // bmAttributes
    pos := pos + 1;  // bmControls
    pos := pos + 1;  // bAssocTerminal
    pos := pos + 1;  // iClockSource
    if pos > |buf| {
      return ReadPastEnd;
    }
    r := Decoded(pos - offset, []);
  }

  /** Clock selector: bNrInPins source IDs among 4 bytes of fixed fields. */
  method DissectClockSelector(buf: seq<byte>, offset: nat) returns (r: Outcome, sourceIds: seq<byte>)
    ensures r == CountedBody(buf, offset, 1, 4, 1)
    ensures r.Decoded? ==>
      offset + 2 + buf[offset + 1] <= |buf| &&
      sourceIds == buf[offset + 2 .. offset + 2 + buf[offset + 1]]
  {
    sourceIds := [];
    var pos := offset + 1;  // bClockID
    if pos >= |buf| {
      return ReadPastEnd, [];
    }
    var nrInPins := buf[pos];
    pos := pos + 1;
    while nrInPins > 0
      invariant pos + nrInPins == offset + 2 + buf[offset + 1]
      invariant pos <= |buf|
      invariant sourceIds == buf[offset + 2 .. pos]
    {
      if pos >= |buf| {
        return ReadPastEnd, [];
      }
      sourceIds := sourceIds + [buf[pos]];
      nrInPins := nrInPins - 1;
      pos := pos + 1;
    }
    pos := pos + 1;  // bmControls
    pos := pos + 1;  // iClockSelector
    if pos > |buf| {
      return ReadPastEnd, [];
    }
    r := Decoded(pos - offset, []);
  }
}

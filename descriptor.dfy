/*
 * The class-specific descriptor dispatcher: the USB layer hands it one
 * descriptor of an audio interface; it picks the kind of descriptor from
 * bDescriptorType and the interface subclass, hands the body after the
 * three-byte header to the decoder of that subtype, flags whatever the body
 * decoder left undecoded and reports the descriptor's own bLength.
 */
module Descriptor {
  import opened UsbAudioTypes
  import opened Conversation
  import AudioControl
  import AudioStreaming
  import MidiStreaming

  /** Every body starts past bLength, bDescriptorType and bDescriptorSubtype. */
  const BodyStart: nat := 3

  /** The interface a descriptor belongs to, as the USB layer reports it. */
  datatype InterfaceInfo = InterfaceInfo(interfaceClass: int, interfaceSubclass: int)

  /** The five kinds of class-specific descriptor this decoder handles. */
  datatype DescriptorKind = AcInterface | AsInterface | AsEndpoint | MsInterface | MsEndpoint

  /** The descriptor type and interface subclass each kind is found under. */
  function KindCodes(k: DescriptorKind): (byte, int)
  {
    match k
    case AcInterface => (CsInterface, SubclassAudioControl)
    case AsInterface => (CsInterface, SubclassAudioStreaming)
    case AsEndpoint => (CsEndpoint, SubclassAudioStreaming)
    case MsInterface => (CsInterface, SubclassMidiStreaming)
    case MsEndpoint => (CsEndpoint, SubclassMidiStreaming)
  }

  /**
   * The kind of descriptor found under a descriptor type and an interface
   * subclass; audio control has no class-specific endpoint descriptors.
   */
  function Classify(descType: byte, subclass: int): (k: Option<DescriptorKind>)
    ensures k.Some? ==> KindCodes(k.value) == (descType, subclass)
    ensures k.None? ==> forall kind: DescriptorKind :: KindCodes(kind) != (descType, subclass)
  {
    if descType == CsInterface && subclass == SubclassAudioControl then Some(AcInterface)
    else if descType == CsInterface && subclass == SubclassAudioStreaming then Some(AsInterface)
    else if descType == CsEndpoint && subclass == SubclassAudioStreaming then Some(AsEndpoint)
    else if descType == CsInterface && subclass == SubclassMidiStreaming then Some(MsInterface)
    else if descType == CsEndpoint && subclass == SubclassMidiStreaming then Some(MsEndpoint)
    else None
  }

  /**
   * The body decoder chosen by kind and subtype, run at BodyStart: its
   * outcome and the class data it leaves. Unknown subtypes decode nothing.
   */
  function BodySpec(kind: DescriptorKind, subtype: byte, buf: seq<byte>, descLen: byte, cd: ClassData): (Outcome, ClassData)
  {
    match kind
    case AcInterface =>
      if subtype == AcSubtypeHeader then AudioControl.AcHeaderSpec(buf, BodyStart, cd)
      else if subtype == AcSubtypeInputTerminal then (VersionedSpan(buf, BodyStart, cd, 9, 14), cd)
      else if subtype == AcSubtypeOutputTerminal then (VersionedSpan(buf, BodyStart, cd, 6, 9), cd)
      else if subtype == AcSubtypeMixerUnit then (CountedBody(buf, BodyStart, 1, 8, 1), cd)
      else if subtype == AcSubtypeSelectorUnit then (CountedBody(buf, BodyStart, 1, 3, 1), cd)
      else if subtype == AcSubtypeFeatureUnit then (AudioControl.FeatureUnitSpec(buf, BodyStart, descLen), cd)
      else if subtype == AcSubtypeClockSource then (Span(buf, BodyStart, 5), cd)
      else if subtype == AcSubtypeClockSelector then (CountedBody(buf, BodyStart, 1, 4, 1), cd)
      else (Decoded(0, []), cd)
    case AsInterface =>
      if subtype == AsSubtypeGeneral then (VersionedSpan(buf, BodyStart, cd, 4, 13), cd)
      else if subtype == AsSubtypeFormatType then (AudioStreaming.FormatTypeSpec(buf, BodyStart, cd), cd)
      else (Decoded(0, []), cd)
    case AsEndpoint =>
      if subtype == AsEpSubtypeGeneral then (VersionedSpan(buf, BodyStart, cd, 4, 5), cd)
      else (Decoded(0, []), cd)
    case MsInterface =>
      if subtype == MsSubtypeHeader then MidiStreaming.MsHeaderSpec(buf, BodyStart, cd)
      else if subtype == MsSubtypeMidiInJack then (Span(buf, BodyStart, 3), cd)
      else if subtype == MsSubtypeMidiOutJack then (CountedBody(buf, BodyStart, 2, 4, 2), cd)
      else (Decoded(0, []), cd)
    case MsEndpoint =>
      if subtype == MsEpSubtypeGeneral then (CountedBody(buf, BodyStart, 0, 1, 1), cd)
      else (Decoded(0, []), cd)
  }

  /**
   * The descriptor's result from its body's: bLength is reported whatever the
   * body consumed, and a shortfall is flagged as undecoded from where the
   * body stopped to bLength.
   */
  function Reconcile(descLen: byte, body: Outcome): Outcome
  {
    match body
    case ReadPastEnd => ReadPastEnd
    case Decoded(n, diags) =>
      var dissected := BodyStart + n;
      Decoded(descLen, if dissected < descLen then diags + [Undecoded(dissected, descLen - dissected)] else diags)
  }

  /** Whether the USB layer handed over a descriptor of an audio interface. */
  predicate IsAudioInterface(iface: Option<InterfaceInfo>)
  {
    iface.Some? && iface.value.interfaceClass == IfClassAudio
  }

  /** The whole descriptor: its outcome and the class data it leaves. */
  function DescriptorSpec(buf: seq<byte>, iface: Option<InterfaceInfo>, cd: ClassData): (Outcome, ClassData)
  {
    if !IsAudioInterface(iface) then (Decoded(0, []), cd)
    else if |buf| < 2 then (ReadPastEnd, cd)
    else match Classify(buf[1], iface.value.interfaceSubclass)
      case None => (Decoded(0, []), cd)
      case Some(kind) =>
        if |buf| < BodyStart then (ReadPastEnd, cd)
        else
          var body := BodySpec(kind, buf[2], buf, buf[0], cd);
          (Reconcile(buf[0], body.0), body.1)
  }

  /** Runs the body decoder for a kind and subtype at BodyStart. */
  method DissectDescriptorBody(kind: DescriptorKind, subtype: byte, buf: seq<byte>, descLen: byte, conv: UsbConvInfo)
    returns (n: Outcome)
    modifies conv`classData
    ensures (n, conv.classData) == BodySpec(kind, subtype, buf, descLen, old(conv.classData))
  {
    var offset := BodyStart;
    var cd := conv.classData;
    match kind {
      case AcInterface =>
        if subtype == AcSubtypeHeader {
          var interfaceNrs;
          n, interfaceNrs := AudioControl.DissectAcHeader(buf, offset, conv);
        } else if subtype == AcSubtypeInputTerminal {
          n := AudioControl.DissectInputTerminal(buf, offset, cd);
        } else if subtype == AcSubtypeOutputTerminal {
          n := AudioControl.DissectOutputTerminal(buf, offset, cd);
        } else if subtype == AcSubtypeMixerUnit {
          var sourceIds;
          n, sourceIds := AudioControl.DissectMixerUnit(buf, offset);
        } else if subtype == AcSubtypeSelectorUnit {
          var sourceIds;
          n, sourceIds := AudioControl.DissectSelectorUnit(buf, offset);
        } else if subtype == AcSubtypeFeatureUnit {
          var controls;
          n, controls := AudioControl.DissectFeatureUnit(buf, offset, descLen);
        } else if subtype == AcSubtypeClockSource {
          n := AudioControl.DissectClockSource(buf, offset);
        } else if subtype == AcSubtypeClockSelector {
          var sourceIds;
          n, sourceIds := AudioControl.DissectClockSelector(buf, offset);
        } else {
          n := Decoded(0, []);
        }
      case AsInterface =>
        if subtype == AsSubtypeGeneral {
          n := AudioStreaming.DissectAsGeneral(buf, offset, cd);
        } else if subtype == AsSubtypeFormatType {
          n := AudioStreaming.DissectFormatType(buf, offset, cd);
        } else {
          n := Decoded(0, []);
        }
      case AsEndpoint =>
        if subtype == AsEpSubtypeGeneral {
          n := AudioStreaming.DissectAsEndpointGeneral(buf, offset, cd);
        } else {
          n := Decoded(0, []);
        }
      case MsInterface =>
        if subtype == MsSubtypeHeader {
          n := MidiStreaming.DissectMsHeader(buf, offset, conv);
        } else if subtype == MsSubtypeMidiInJack {
          n := MidiStreaming.DissectMidiInJack(buf, offset);
        } else if subtype == MsSubtypeMidiOutJack {
          var sources;
          n, sources := MidiStreaming.DissectMidiOutJack(buf, offset);
        } else {
          n := Decoded(0, []);
        }
      case MsEndpoint =>
        if subtype == MsEpSubtypeGeneral {
          var jackIds;
          n, jackIds := MidiStreaming.DissectMsEndpointGeneral(buf, offset);
        } else {
          n := Decoded(0, []);
        }
    }
  }

  /**
   * Decodes one class-specific descriptor of an audio interface. Returns 0
   * for descriptors it does not handle (no conversation record, a non-audio
   * interface, an unhandled type or subclass), otherwise bLength.
   */
  method DissectUsbAudioDescriptor(buf: seq<byte>, conv: UsbConvInfo?) returns (r: Outcome)
    modifies conv
    ensures conv == null ==> r == Decoded(0, [])
    ensures conv != null ==>
      && conv.interfaceClass == old(conv.interfaceClass)
      && conv.interfaceSubclass == old(conv.interfaceSubclass)
      && (r, conv.classData) == DescriptorSpec(buf, Some(InterfaceInfo(conv.interfaceClass, conv.interfaceSubclass)), old(conv.classData))
  {
    if conv == null || conv.interfaceClass != IfClassAudio {
      return Decoded(0, []);
    }
    if |buf| < 2 {
      return ReadPastEnd;
    }
    var descLen := buf[0];
    var descType := buf[1];
    var kind := Classify(descType, conv.interfaceSubclass);
    if kind.None? {
      return Decoded(0, []);
    }
    if |buf| < BodyStart {
      return ReadPastEnd;
    }
    var subtype := buf[2];
    var n := DissectDescriptorBody(kind.value, subtype, buf, descLen, conv);
    if n.ReadPastEnd? {
      return ReadPastEnd;
    }
    var bytesDissected := BodyStart + n.consumed;
    var diags := n.diags;
    if bytesDissected < descLen {
      diags := diags + [Undecoded(bytesDissected, descLen - bytesDissected)];
    }
    r := Decoded(descLen, diags);
  }

  // ---------------------------------------------------------------- lemmas

  /** Whether the dispatcher decodes this descriptor at all (given it can read the first two bytes). */
  predicate Handled(buf: seq<byte>, iface: Option<InterfaceInfo>)
  {
    IsAudioInterface(iface) && |buf| >= 2 && Classify(buf[1], iface.value.interfaceSubclass).Some?
  }

  /** No body decoder raises the undecoded diagnostic; only the dispatcher does. */
  lemma BodyRaisesNoUndecoded(kind: DescriptorKind, subtype: byte, buf: seq<byte>, descLen: byte, cd: ClassData)
    ensures var body := BodySpec(kind, subtype, buf, descLen, cd).0;
      body.Decoded? ==> forall d :: d in body.diags ==> !d.Undecoded?
  {
    var body := BodySpec(kind, subtype, buf, descLen, cd).0;
    if kind == AsInterface && subtype == AsSubtypeFormatType && body.Decoded? {
      var v := GatedVersion(cd);
      if v.Some? && v.value == 1 && BodyStart < |buf| && buf[BodyStart] == 3 {
        assert body.diags == [] || body.diags == AudioStreaming.Type3Diags(buf, BodyStart);
      }
    }
  }

  /**
   * The value reported: bLength for every handled descriptor, 0 for the rest;
   * a read past the end only happens on an audio interface's descriptor.
   */
  lemma DescriptorReportsBLength(buf: seq<byte>, iface: Option<InterfaceInfo>, cd: ClassData)
    ensures var r := DescriptorSpec(buf, iface, cd).0;
      && (r.Decoded? ==> r.consumed == if Handled(buf, iface) then buf[0] else 0)
      && (r.ReadPastEnd? ==> IsAudioInterface(iface) && (|buf| < 2 || Handled(buf, iface)))
  {
  }

  /**
   * The undecoded diagnostic is raised exactly when the body decoder stopped
   * short of bLength, and then covers the rest of the descriptor up to bLength.
   */
  lemma UndecodedCoversTail(buf: seq<byte>, iface: Option<InterfaceInfo>, cd: ClassData)
    requires Handled(buf, iface) && |buf| >= BodyStart
    ensures var kind := Classify(buf[1], iface.value.interfaceSubclass).value;
      var body := BodySpec(kind, buf[2], buf, buf[0], cd).0;
      var r := DescriptorSpec(buf, iface, cd).0;
      r.Decoded? ==>
        && body.Decoded?
        && ((exists d :: d in r.diags && d.Undecoded?) <==> BodyStart + body.consumed < buf[0])
        && (forall d :: d in r.diags && d.Undecoded? ==>
              d.start == BodyStart + body.consumed && d.start + d.length == buf[0])
  {
    var kind := Classify(buf[1], iface.value.interfaceSubclass).value;
    var body := BodySpec(kind, buf[2], buf, buf[0], cd).0;
    BodyRaisesNoUndecoded(kind, buf[2], buf, buf[0], cd);
    var r := DescriptorSpec(buf, iface, cd).0;
    if r.Decoded? && BodyStart + body.consumed < buf[0] {
      assert r.diags[|r.diags| - 1].Undecoded?;
    }
  }

  /**
   * Only the audio control and MIDI streaming header descriptors change the
   * conversation's class data, and never when it belongs to another class.
   */
  lemma OnlyHeadersChangeState(buf: seq<byte>, iface: Option<InterfaceInfo>, cd: ClassData)
    ensures var cd' := DescriptorSpec(buf, iface, cd).1;
      && (cd.ForeignData? ==> cd' == cd)
      && (cd' != cd ==>
            && IsAudioInterface(iface)
            && |buf| >= 5 && buf[1] == CsInterface && buf[2] == 0x01
            && iface.value.interfaceSubclass in {SubclassAudioControl, SubclassMidiStreaming})
  {
  }

  /**
   * A header descriptor readable up to bcdADC (or bcdMSC) records its major
   * version, keeping the other class's version and creating the audio state
   * when none exists.
   */
  lemma HeaderRecordsVersion(buf: seq<byte>, iface: Option<InterfaceInfo>, cd: ClassData)
    requires IsAudioInterface(iface) && |buf| >= 5 && buf[1] == CsInterface && buf[2] == 0x01
    requires !cd.ForeignData?
    ensures var cd' := DescriptorSpec(buf, iface, cd).1;
      var old1 := if cd.AudioData? then cd.audioVerMajor else 0;
      var old2 := if cd.AudioData? then cd.midiVerMajor else 0;
      && (iface.value.interfaceSubclass == SubclassAudioControl ==>
            cd' == AudioData(Bcd44ToDec(buf[4]), old2) && GatedVersion(cd') == Some(Bcd44ToDec(buf[4])))
      && (iface.value.interfaceSubclass == SubclassMidiStreaming ==>
            cd' == AudioData(old1, Bcd44ToDec(buf[4])))
  {
  }

  /**
   * The feature unit always accounts for the whole descriptor: a length
   * consistent with bControlSize is decoded to bLength without diagnostics,
   * any other is reported as malformed from bControlSize's end to bLength.
   */
  lemma FeatureUnitFillsDescriptor(buf: seq<byte>, iface: Option<InterfaceInfo>, cd: ClassData)
    requires IsAudioInterface(iface) && iface.value.interfaceSubclass == SubclassAudioControl
    requires |buf| >= 6 && buf[1] == CsInterface && buf[2] == AcSubtypeFeatureUnit
    ensures var r := DescriptorSpec(buf, iface, cd).0;
      r.Decoded? ==>
        r.consumed == buf[0] &&
        r.diags == if AudioControl.FeatureUnitLengthValid(buf[0], buf[5]) then []
                   else [InvalidFeatureUnitLength(6, buf[0] as int - 6)]
  {
  }

  /**
   * An audio control header followed by an input terminal: the terminal is
   * sized by the version the header recorded, 9 body bytes under version 1
   * and 14 under version 2.
   */
  lemma TerminalFollowsHeaderVersion(header: seq<byte>, terminal: seq<byte>, iface: Option<InterfaceInfo>)
    requires IsAudioInterface(iface) && iface.value.interfaceSubclass == SubclassAudioControl
    requires |header| >= 5 && header[1] == CsInterface && header[2] == AcSubtypeHeader
    requires |terminal| >= 3 && terminal[1] == CsInterface && terminal[2] == AcSubtypeInputTerminal
    ensures var cd1 := DescriptorSpec(header, iface, NoClassData).1;
      var major := Bcd44ToDec(header[4]);
      && cd1 == AudioData(major, 0)
      && DescriptorSpec(terminal, iface, cd1) ==
           (Reconcile(terminal[0], if major == 1 then Span(terminal, BodyStart, 9)
                                   else if major == 2 then Span(terminal, BodyStart, 14)
                                   else Decoded(0, [])), cd1)
  {
  }

  /**
   * Before any header has been seen the version-gated bodies decode nothing,
   * so such a descriptor is reported whole as undecoded past its header.
   */
  lemma VersionGatedBeforeHeader(buf: seq<byte>, iface: Option<InterfaceInfo>)
    requires Handled(buf, iface) && |buf| >= BodyStart
    requires var kind := Classify(buf[1], iface.value.interfaceSubclass).value;
      || (kind == AcInterface && buf[2] in {AcSubtypeInputTerminal, AcSubtypeOutputTerminal})
      || (kind == AsInterface && buf[2] in {AsSubtypeGeneral, AsSubtypeFormatType})
      || (kind == AsEndpoint && buf[2] == AsEpSubtypeGeneral)
    ensures DescriptorSpec(buf, iface, NoClassData) ==
      (Decoded(buf[0], if buf[0] > BodyStart then [Undecoded(BodyStart, buf[0] - BodyStart)] else []), NoClassData)
  {
    var kind := Classify(buf[1], iface.value.interfaceSubclass).value;
    assert BodySpec(kind, buf[2], buf, buf[0], NoClassData) == (Decoded(0, []), NoClassData);
    assert Reconcile(buf[0], Decoded(0, [])) == Decoded(buf[0], if buf[0] > BodyStart then [Undecoded(BodyStart, buf[0] - BodyStart)] else []);
  }
}

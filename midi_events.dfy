/*
 * USB-MIDI event packets (section 4 of the USB MIDI device class definition,
 * release 1.0) carried on a MIDI streaming bulk endpoint: each 4-byte packet
 * holds a cable number, a code index number and up to three MIDI bytes.
 * System exclusive messages span several packets and are reassembled per
 * cable; a completed message is handed on only when no later packet of the
 * same buffer carries a SysEx code.
 */
module MidiEvents {
  import opened UsbAudioTypes
  import opened Conversation

  /** Bytes of MIDI data an event packet carries for a code index number; 0 for no valid code. */
  function MidiEventSize(code: int): (size: nat)
    ensures size <= 3
    ensures size == 0 <==> !(0 <= code < 16)
    ensures code in {0x5, 0xF} ==> size == 1
    ensures code in {0x2, 0x6, 0xC, 0xD} ==> size == 2
    ensures 0 <= code < 16 && code !in {0x2, 0x5, 0x6, 0xC, 0xD, 0xF} ==> size == 3
  {
    if code == 0x0 || code == 0x1 then 3         // reserved: assume three bytes
    else if code == 0x5 || code == 0xF then 1    // single-byte message, SysEx ends with one byte
    else if code == 0x2 || code == 0x6 || code == 0xC || code == 0xD then 2
    else if 0x3 <= code <= 0xE then 3             // 0x3, 0x4, 0x7 and the channel messages
    else 0
  }

  /** Code index numbers 0x4 (SysEx starts or continues) and 0x5..0x7 (SysEx ends). */
  predicate IsSysexCode(code: int)
    ensures IsSysexCode(code) <==> 0x4 <= code <= 0x7
    ensures IsSysexCode(code) ==> MidiEventSize(code) >= 1
  {
    code == 0x04 || code == 0x05 || code == 0x06 || code == 0x07
  }

  /** An event packet split into its parts: the event bytes and the padding after them. */
  datatype EventPacket = EventPacket(cable: nat, code: nat, event: seq<byte>, padding: seq<byte>)

  /** Splits a 4-byte event packet; the parts put back together give the packet. */
  function SplitEventPacket(packet: seq<byte>): (e: EventPacket)
    requires |packet| == 4
    ensures e.cable < 16 && e.code < 16 && e.cable * 16 + e.code == packet[0]
    ensures |e.event| == MidiEventSize(e.code) && |e.event| + |e.padding| == 3
    ensures e.event + e.padding == packet[1..]
  {
    var code := packet[0] % 16;
    var size := MidiEventSize(code);
    EventPacket(packet[0] / 16, code, packet[1 .. 1 + size], packet[1 + size ..])
  }

  /** Bytes a SysEx packet adds to its message: three for 0x4, code-4 for the terminators. */
  function SysexChunkLength(code: int): (n: nat)
    requires IsSysexCode(code)
    ensures 1 <= n <= 3 && n == MidiEventSize(code)
  {
    if code == 0x04 then 3 else code - 4
  }

  // --------------------------------------------------------------- lookahead

  /** No packet starting at `pos` or a multiple of 4 bytes after it carries a SysEx code. */
  predicate NoSysexFrom(buf: seq<byte>, pos: nat)
    decreases |buf| - pos
  {
    pos >= |buf| || (!IsSysexCode(buf[pos] % 16) && NoSysexFrom(buf, pos + 4))
  }

  /** No packet after the one at `offset` in the buffer (whatever its cable) carries a SysEx code. */
  predicate NoLaterSysex(buf: seq<byte>, offset: nat)
  {
    NoSysexFrom(buf, offset + 4)
  }

  /** The scan from `pos` looks at exactly the positions pos, pos+4, ... below the buffer's length. */
  lemma {:induction false} NoSysexFromMeaning(buf: seq<byte>, pos: nat)
    ensures NoSysexFrom(buf, pos) <==>
      forall p :: pos <= p < |buf| && (p - pos) % 4 == 0 ==> !IsSysexCode(buf[p] % 16)
    decreases |buf| - pos
  {
    if pos < |buf| {
      NoSysexFromMeaning(buf, pos + 4);
    }
  }

  /** Scans the packets after `offset` up to the end of the buffer for a SysEx code. */
  method IsLastSysexPacketInTvb(buf: seq<byte>, offset: nat) returns (last: bool)
    ensures last <==> NoLaterSysex(buf, offset)
  {
    last := true;
    var length := |buf|;
    var pos := offset + 4;
    while pos < length
      invariant last
      invariant NoLaterSysex(buf, offset) == NoSysexFrom(buf, pos)
      decreases length - pos
    {
      var code := buf[pos] % 16;
      if IsSysexCode(code) {
        last := false;
        break;
      }
      pos := pos + 4;
    }
  }

  // -------------------------------------------------------------- reassembly

  /** Fragments belong together when they share source and destination address and cable. */
  datatype FragmentKey = FragmentKey(src: int, dst: int, cable: nat)

  type Pending = map<FragmentKey, seq<seq<byte>>>

  /** The fragments recorded so far for a key, in the order they were added. */
  function Lookup(pending: Pending, key: FragmentKey): seq<seq<byte>>
  {
    if key in pending then pending[key] else []
  }

  /**
   * The reassembly table's "add the next fragment" operation as this model
   * assumes it: the chunk is appended to its key's group; a chunk marked as
   * the last one closes the group and yields all its fragments.
   */
  function AddSeqNext(pending: Pending, key: FragmentKey, chunk: seq<byte>, more: bool): (Pending, Option<seq<seq<byte>>>)
  {
    var chunks := Lookup(pending, key) + [chunk];
    if more then (pending[key := chunks], None) else (pending - {key}, Some(chunks))
  }

  /** What one event packet does: the new pending groups, the message handed on, the info text added. */
  datatype EventEffect = EventEffect(pending: Pending, delivered: Option<seq<byte>>, note: string)

  const SysexReassembledNote := " (SysEx Reassembled)"
  const SysexFragmentNote := " (SysEx fragment)"

  /** The effect of the event packet at `offset`, given the addresses of the packet and the pending groups. */
  function EventStep(buf: seq<byte>, offset: nat, src: int, dst: int, pending: Pending): EventEffect
    requires offset + 4 <= |buf|
  {
    var code := buf[offset] % 16;
    if !IsSysexCode(code) then EventEffect(pending, None, "")
    else
      var key := FragmentKey(src, dst, buf[offset] / 16);
      var added := AddSeqNext(pending, key, buf[offset + 1 .. offset + 1 + SysexChunkLength(code)], code == 0x04);
      if NoLaterSysex(buf, offset) then
        EventEffect(added.0,
                    if added.1.Some? then Some(Flatten(added.1.value)) else None,
                    if code != 0x04 then SysexReassembledNote else SysexFragmentNote)
      else EventEffect(added.0, None, "")
  }

  /** The packet-level state the decoder reads and writes. */
  class PacketInfo {
    var src: int
    var dst: int
    var fragmented: bool
    var protocol: string
    var info: string

    constructor (source: int, destination: int)
      ensures src == source && dst == destination
      ensures !fragmented && protocol == "" && info == ""
    {
      src := source;
      dst := destination;
      fragmented := false;
      protocol := "";
      info := "";
    }
  }

  /** The SysEx reassembly table shared by all packets of a capture. */
  class ReassemblyTable {
    var pending: Pending

    constructor ()
      ensures pending == map[]
    {
      pending := map[];
    }
  }

  /**
   * Decodes the event packet at `offset`: splits it, and for a SysEx code
   * adds its bytes to the cable's group; when no later packet of the buffer
   * carries a SysEx code, notes the packet's role and hands on a completed
   * message. The packet's fragmented flag is set meanwhile and restored.
   */
  method DissectUsbMidiEvent(buf: seq<byte>, pinfo: PacketInfo, table: ReassemblyTable, offset: nat)
    returns (packet: EventPacket, delivered: Option<seq<byte>>)
    requires offset + 4 <= |buf|
    modifies pinfo, table
    ensures packet == SplitEventPacket(buf[offset .. offset + 4])
    ensures var e := EventStep(buf, offset, old(pinfo.src), old(pinfo.dst), old(table.pending));
      && table.pending == e.pending
      && delivered == e.delivered
      && pinfo.info == old(pinfo.info) + e.note
    ensures pinfo.fragmented == old(pinfo.fragmented) && pinfo.protocol == old(pinfo.protocol)
    ensures pinfo.src == old(pinfo.src) && pinfo.dst == old(pinfo.dst)
  {
    var code := buf[offset];
    var cable := code / 16;
    code := code % 16;
    packet := SplitEventPacket(buf[offset .. offset + 4]);

    var saveFragmented := pinfo.fragmented;
    delivered := None;
    if IsSysexCode(code) {
      pinfo.fragmented := true;
      var key := FragmentKey(pinfo.src, pinfo.dst, cable);
      var added;
      if code == 0x04 {
        added := AddSeqNext(table.pending, key, buf[offset + 1 .. offset + 4], true);
      } else {
        added := AddSeqNext(table.pending, key, buf[offset + 1 .. offset + 1 + (code - 4)], false);
      }
      table.pending := added.0;
      var last := IsLastSysexPacketInTvb(buf, offset);
      if last {
        if added.1.Some? {
          delivered := Some(Flatten(added.1.value));
        }
        if code != 0x04 {
          pinfo.info := pinfo.info + SysexReassembledNote;
        } else {
          pinfo.info := pinfo.info + SysexFragmentNote;
        }
      }
    }
    pinfo.fragmented := saveFragmented;
  }

  // --------------------------------------------------------------- bulk data

  /** What the packets of a buffer accumulate: pending groups, messages handed on, the info text. */
  datatype BulkState = BulkState(pending: Pending, delivered: seq<seq<byte>>, info: string)

  function ApplyEffect(st: BulkState, e: EventEffect): BulkState
  {
    BulkState(e.pending, st.delivered + (if e.delivered.Some? then [e.delivered.value] else []), st.info + e.note)
  }

  /** The effect of the whole packets of the buffer from packet `k` on; a trailing partial packet is skipped. */
  function ProcessFrom(buf: seq<byte>, src: int, dst: int, k: nat, st: BulkState): BulkState
    decreases |buf| - 4 * k
  {
    if |buf| < 4 * k + 4 then st
    else ProcessFrom(buf, src, dst, k + 1, ApplyEffect(st, EventStep(buf, 4 * k, src, dst, st.pending)))
  }

  const BulkProtocol := "USBAUDIO"
  const BulkInfo := "USB-MIDI Event Packets"

  /** Decodes every whole 4-byte packet of the buffer in order; a trailing partial packet is left alone. */
  method DissectEventPackets(buf: seq<byte>, pinfo: PacketInfo, table: ReassemblyTable) returns (delivered: seq<seq<byte>>)
    modifies pinfo, table
    ensures var res := ProcessFrom(buf, old(pinfo.src), old(pinfo.dst), 0, BulkState(old(table.pending), [], old(pinfo.info)));
      table.pending == res.pending && delivered == res.delivered && pinfo.info == res.info
    ensures pinfo.fragmented == old(pinfo.fragmented) && pinfo.protocol == old(pinfo.protocol)
    ensures pinfo.src == old(pinfo.src) && pinfo.dst == old(pinfo.dst)
  {
    delivered := [];
    var length := |buf|;
    var offset := 0;
    ghost var src, dst := pinfo.src, pinfo.dst;
    ghost var goal := ProcessFrom(buf, src, dst, 0, BulkState(table.pending, [], pinfo.info));
    var i := 0;
    while i < length / 4
      invariant 0 <= i <= length / 4 && offset == 4 * i
      invariant pinfo.src == src && pinfo.dst == dst
      invariant pinfo.fragmented == old(pinfo.fragmented) && pinfo.protocol == old(pinfo.protocol)
      invariant ProcessFrom(buf, src, dst, i, BulkState(table.pending, delivered, pinfo.info)) == goal
    {
      ghost var before := BulkState(table.pending, delivered, pinfo.info);
      ghost var effect := EventStep(buf, offset, src, dst, table.pending);
      ProcessStep(buf, src, dst, i, before);
      var packet, message := DissectUsbMidiEvent(buf, pinfo, table, offset);
      if message.Some? {
        delivered := delivered + [message.value];
      }
      assert BulkState(table.pending, delivered, pinfo.info) == ApplyEffect(before, effect);
      offset := offset + 4;
      i := i + 1;
    }
    ProcessEnd(buf, src, dst, i, BulkState(table.pending, delivered, pinfo.info));
  }

  /**
   * Decodes a bulk payload: on a MIDI streaming interface every whole 4-byte
   * packet in order, otherwise the payload is flagged as undecoded. Returns
   * the payload length, or 0 without a conversation record.
   */
  method DissectUsbAudioBulk(buf: seq<byte>, conv: UsbConvInfo?, pinfo: PacketInfo, table: ReassemblyTable)
    returns (r: int, delivered: seq<seq<byte>>, diags: seq<Diagnostic>)
    modifies pinfo, table
    ensures pinfo.fragmented == old(pinfo.fragmented) && pinfo.src == old(pinfo.src) && pinfo.dst == old(pinfo.dst)
    ensures conv == null ==>
      && r == 0 && delivered == [] && diags == []
      && table.pending == old(table.pending) && pinfo.info == old(pinfo.info) && pinfo.protocol == old(pinfo.protocol)
    ensures conv != null ==> r == |buf| && pinfo.protocol == BulkProtocol
    ensures conv != null && conv.interfaceSubclass == SubclassMidiStreaming ==>
      var res := ProcessFrom(buf, old(pinfo.src), old(pinfo.dst), 0, BulkState(old(table.pending), [], BulkInfo));
      && table.pending == res.pending && delivered == res.delivered && pinfo.info == res.info
      && diags == []
    ensures conv != null && conv.interfaceSubclass != SubclassMidiStreaming ==>
      && diags == [Undecoded(0, |buf|)] && delivered == []
      && table.pending == old(table.pending) && pinfo.info == old(pinfo.info)
  {
    delivered := [];
    diags := [];
    if conv == null {
      return 0, [], [];
    }
    pinfo.protocol := BulkProtocol;
    var length := |buf|;
    var offset := 0;
    if conv.interfaceSubclass == SubclassMidiStreaming {
      pinfo.info := BulkInfo;
      delivered := DissectEventPackets(buf, pinfo, table);
    } else {
      diags := [Undecoded(offset, length)];
    }
    r := length;
  }

  // ------------------------------------------------------------------ lemmas

  /** The bytes a SysEx packet adds to its group are exactly the packet's event bytes. */
  lemma SysexChunkIsEvent(packet: seq<byte>)
    requires |packet| == 4 && IsSysexCode(packet[0] % 16)
    ensures SysexChunkLength(packet[0] % 16) == MidiEventSize(packet[0] % 16)
    ensures SplitEventPacket(packet).event == packet[1 .. 1 + SysexChunkLength(packet[0] % 16)]
  {
  }

  /**
   * One packet's effect on its own group: a 0x4 packet extends the group and
   * hands nothing on; a terminator closes the group, and hands on all its
   * bytes, in the order added, exactly when no later packet of the buffer
   * carries a SysEx code. Info text is added exactly when the lookahead finds
   * no later SysEx packet.
   */
  lemma EventStepOwnGroup(buf: seq<byte>, offset: nat, src: int, dst: int, pending: Pending)
    requires offset + 4 <= |buf| && IsSysexCode(buf[offset] % 16)
    ensures var code := buf[offset] % 16;
      var key := FragmentKey(src, dst, buf[offset] / 16);
      var chunk := buf[offset + 1 .. offset + 1 + SysexChunkLength(code)];
      var e := EventStep(buf, offset, src, dst, pending);
      && (code == 0x04 ==> Lookup(e.pending, key) == Lookup(pending, key) + [chunk] && e.delivered.None?)
      && (code != 0x04 ==> key !in e.pending)
      && (e.delivered.Some? <==> code != 0x04 && NoLaterSysex(buf, offset))
      && (e.delivered.Some? ==> e.delivered.value == Flatten(Lookup(pending, key)) + chunk)
      && (e.note != "" <==> NoLaterSysex(buf, offset))
  {
    var code := buf[offset] % 16;
    var key := FragmentKey(src, dst, buf[offset] / 16);
    FlattenAppend(Lookup(pending, key), buf[offset + 1 .. offset + 1 + SysexChunkLength(code)]);
  }

  /** Groups of different keys (addresses or cable) are independent: a packet touches only its own. */
  lemma EventStepOtherGroups(buf: seq<byte>, offset: nat, src: int, dst: int, pending: Pending, key: FragmentKey)
    requires offset + 4 <= |buf|
    requires key != FragmentKey(src, dst, buf[offset] / 16)
    ensures Lookup(EventStep(buf, offset, src, dst, pending).pending, key) == Lookup(pending, key)
  {
  }

  /** The code index number of the `j`th whole packet of a buffer. */
  function PacketCode(buf: seq<byte>, j: nat): int
    requires 4 * j < |buf|
  {
    buf[4 * j] % 16
  }

  /** Packets without SysEx codes leave the pending groups, the messages and the info text alone. */
  lemma {:induction false} NonSysexPacketsInert(buf: seq<byte>, src: int, dst: int, k: nat, st: BulkState)
    requires forall j: nat :: k <= j < |buf| / 4 ==> !IsSysexCode(PacketCode(buf, j))
    ensures ProcessFrom(buf, src, dst, k, st) == st
    decreases |buf| / 4 - k
  {
    if k < |buf| / 4 {
      assert !IsSysexCode(PacketCode(buf, k));
      var e := EventStep(buf, 4 * k, src, dst, st.pending);
      assert ApplyEffect(st, e) == st;
      NonSysexPacketsInert(buf, src, dst, k + 1, st);
    }
  }

  /** `n` zero bytes. */
  function Zeros(n: nat): (z: seq<byte>)
    ensures |z| == n
  {
    if n == 0 then [] else [0] + Zeros(n - 1)
  }

  /**
   * A SysEx message sent on a cable as event packets: 0x4 packets carrying
   * three bytes each, then one 0x5, 0x6 or 0x7 packet carrying the last one,
   * two or three bytes, zero-padded.
   */
  function SysexPackets(cable: nat, msg: seq<byte>): (packets: seq<byte>)
    requires cable < 16 && |msg| >= 1
    ensures |packets| >= 4 && |packets| % 4 == 0
    ensures packets[0] / 16 == cable && IsSysexCode(packets[0] % 16)
    ensures packets[0] % 16 == 0x04 <==> |msg| > 3
    decreases |msg|
  {
    if |msg| <= 3 then [cable * 16 + 4 + |msg|] + msg + Zeros(3 - |msg|)
    else [cable * 16 + 4] + msg[..3] + SysexPackets(cable, msg[3..])
  }

  /** Processing from a whole packet is that packet's step followed by processing the rest. */
  lemma ProcessStep(buf: seq<byte>, src: int, dst: int, k: nat, st: BulkState)
    requires 4 * k + 4 <= |buf|
    ensures ProcessFrom(buf, src, dst, k, st) ==
      ProcessFrom(buf, src, dst, k + 1, ApplyEffect(st, EventStep(buf, 4 * k, src, dst, st.pending)))
  {
  }

  /** Processing past the last whole packet changes nothing. */
  lemma ProcessEnd(buf: seq<byte>, src: int, dst: int, k: nat, st: BulkState)
    requires |buf| < 4 * k + 4
    ensures ProcessFrom(buf, src, dst, k, st) == st
  {
  }

  /** A 0x4 packet followed by a SysEx packet only extends its cable's group. */
  lemma ContinuationStep(buf: seq<byte>, offset: nat, src: int, dst: int, st: BulkState)
    requires offset + 8 <= |buf| && buf[offset] % 16 == 0x04 && IsSysexCode(buf[offset + 4] % 16)
    ensures var key := FragmentKey(src, dst, buf[offset] / 16);
      ApplyEffect(st, EventStep(buf, offset, src, dst, st.pending)) ==
        BulkState(st.pending[key := Lookup(st.pending, key) + [buf[offset + 1 .. offset + 4]]], st.delivered, st.info)
  {
  }

  /** A terminator followed by a SysEx packet closes its cable's group without handing it on. */
  lemma DeferredTerminatorStep(buf: seq<byte>, offset: nat, src: int, dst: int, st: BulkState)
    requires offset + 4 < |buf| && 0x05 <= buf[offset] % 16 <= 0x07 && IsSysexCode(buf[offset + 4] % 16)
    ensures ApplyEffect(st, EventStep(buf, offset, src, dst, st.pending)) ==
      BulkState(st.pending - {FragmentKey(src, dst, buf[offset] / 16)}, st.delivered, st.info)
  {
  }

  /** A terminator in the last whole packet of a buffer hands its cable's whole group on. */
  lemma FinalTerminatorStep(buf: seq<byte>, offset: nat, src: int, dst: int, st: BulkState, cable: nat, chunk: seq<byte>)
    requires offset + 4 == |buf| && 0x05 <= buf[offset] % 16 <= 0x07
    requires cable == buf[offset] / 16 && chunk == buf[offset + 1 .. offset + 1 + (buf[offset] % 16 - 4)]
    ensures var key := FragmentKey(src, dst, cable);
      ApplyEffect(st, EventStep(buf, offset, src, dst, st.pending)) ==
        BulkState(st.pending - {key}, st.delivered + [Flatten(Lookup(st.pending, key)) + chunk], st.info + SysexReassembledNote)
  {
    var key := FragmentKey(src, dst, cable);
    FlattenAppend(Lookup(st.pending, key), chunk);
  }

  /** The first packet of a SysEx message's packets, and what follows it. */
  lemma SysexPacketsLayout(cable: nat, msg: seq<byte>)
    requires cable < 16 && |msg| >= 1
    ensures var packets := SysexPackets(cable, msg);
      && (|msg| <= 3 ==> |packets| == 4 && packets[0] % 16 == 4 + |msg| && packets[1 .. 1 + |msg|] == msg)
      && (|msg| > 3 ==> packets[0] % 16 == 0x04 && packets[1 .. 4] == msg[..3] && packets[4..] == SysexPackets(cable, msg[3..]))
  {
    var packets := SysexPackets(cable, msg);
    if |msg| <= 3 {
      assert packets == [cable * 16 + 4 + |msg|] + msg + Zeros(3 - |msg|);
      assert packets[1 .. 1 + |msg|] == msg;
    } else {
      var rest := SysexPackets(cable, msg[3..]);
      assert packets == [cable * 16 + 4] + msg[..3] + rest;
      assert packets[1 .. 4] == msg[..3];
      assert packets[4..] == rest;
    }
  }

  /** Slices of a buffer's suffix are slices of the buffer. */
  lemma SuffixSlice(buf: seq<byte>, offset: nat, suffix: seq<byte>, i: nat, j: nat)
    requires offset <= |buf| && buf[offset..] == suffix && i <= j <= |suffix|
    ensures buf[offset + i .. offset + j] == suffix[i .. j]
    ensures buf[offset + i ..] == suffix[i..]
  {
    forall x | 0 <= x < |suffix|
      ensures suffix[x] == buf[offset + x]
    {
      assert suffix[x] == buf[offset..][x];
    }
    assert buf[offset + i .. offset + j] == suffix[i .. j];
    assert buf[offset + i ..] == suffix[i..];
  }

  /** Where a SysEx message's packets end a buffer and the message fits one packet: that packet's fields. */
  lemma SysexTerminatorLayout(buf: seq<byte>, k: nat, cable: nat, msg: seq<byte>)
    requires cable < 16 && 1 <= |msg| <= 3
    requires 4 * k <= |buf| && buf[4 * k ..] == SysexPackets(cable, msg)
    ensures |buf| == 4 * k + 4 && buf[4 * k] % 16 == 4 + |msg| && buf[4 * k] / 16 == cable
    ensures buf[4 * k + 1 .. 4 * k + 1 + |msg|] == msg
  {
    var packets := SysexPackets(cable, msg);
    SysexPacketsLayout(cable, msg);
    SuffixSlice(buf, 4 * k, packets, 1, 1 + |msg|);
    assert buf[4 * k] == packets[0];
  }

  /** Where a SysEx message's packets end a buffer and the message is longer: the first packet's fields and the rest. */
  lemma SysexContinuationLayout(buf: seq<byte>, k: nat, cable: nat, msg: seq<byte>)
    requires cable < 16 && |msg| > 3
    requires 4 * k <= |buf| && buf[4 * k ..] == SysexPackets(cable, msg)
    ensures 4 * k + 8 <= |buf| && buf[4 * k] % 16 == 0x04 && buf[4 * k] / 16 == cable
    ensures buf[4 * k + 1 .. 4 * k + 4] == msg[..3]
    ensures buf[4 * (k + 1) ..] == SysexPackets(cable, msg[3..]) && IsSysexCode(buf[4 * k + 4] % 16)
  {
    var packets := SysexPackets(cable, msg);
    var rest := SysexPackets(cable, msg[3..]);
    SysexPacketsLayout(cable, msg);
    SuffixSlice(buf, 4 * k, packets, 1, 4);
    SuffixSlice(buf, 4 * k, packets, 4, 4);
    assert buf[4 * k] == packets[0];
    assert buf[4 * k + 4] == rest[0];
  }

  /** A terminator as the buffer's last whole packet: processing from it hands on the group with its bytes. */
  lemma TerminatorDelivered(buf: seq<byte>, src: int, dst: int, k: nat, cable: nat, chunk: seq<byte>, st: BulkState)
    requires |buf| == 4 * k + 4 && 0x05 <= buf[4 * k] % 16 <= 0x07 && buf[4 * k] / 16 == cable
    requires chunk == buf[4 * k + 1 .. 4 * k + 1 + (buf[4 * k] % 16 - 4)]
    ensures var key := FragmentKey(src, dst, cable);
      ProcessFrom(buf, src, dst, k, st) ==
        BulkState(st.pending - {key}, st.delivered + [Flatten(Lookup(st.pending, key)) + chunk], st.info + SysexReassembledNote)
  {
    ProcessStep(buf, src, dst, k, st);
    FinalTerminatorStep(buf, 4 * k, src, dst, st, cable, chunk);
    ProcessEnd(buf, src, dst, k + 1, ApplyEffect(st, EventStep(buf, 4 * k, src, dst, st.pending)));
  }

  /** A 0x4 packet followed by a SysEx packet: processing from it continues with its bytes added to the group. */
  lemma ContinuationAdded(buf: seq<byte>, src: int, dst: int, k: nat, cable: nat, chunk: seq<byte>, st: BulkState)
    requires 4 * k + 8 <= |buf| && buf[4 * k] % 16 == 0x04 && buf[4 * k] / 16 == cable
    requires IsSysexCode(buf[4 * k + 4] % 16) && chunk == buf[4 * k + 1 .. 4 * k + 4]
    ensures var key := FragmentKey(src, dst, cable);
      ProcessFrom(buf, src, dst, k, st) ==
        ProcessFrom(buf, src, dst, k + 1, BulkState(st.pending[key := Lookup(st.pending, key) + [chunk]], st.delivered, st.info))
  {
    ProcessStep(buf, src, dst, k, st);
    ContinuationStep(buf, 4 * k, src, dst, st);
  }

  /** A terminator followed by a SysEx packet: processing from it continues with the group dropped. */
  lemma TerminatorDeferred(buf: seq<byte>, src: int, dst: int, k: nat, cable: nat, st: BulkState)
    requires 4 * k + 8 <= |buf| && 0x05 <= buf[4 * k] % 16 <= 0x07 && buf[4 * k] / 16 == cable
    requires IsSysexCode(buf[4 * k + 4] % 16)
    ensures ProcessFrom(buf, src, dst, k, st) ==
      ProcessFrom(buf, src, dst, k + 1, BulkState(st.pending - {FragmentKey(src, dst, cable)}, st.delivered, st.info))
  {
    ProcessStep(buf, src, dst, k, st);
    DeferredTerminatorStep(buf, 4 * k, src, dst, st);
  }

  /**
   * A SysEx message's packets ending a buffer, processed from their first
   * packet: the bytes already pending for that cable followed by the whole
   * message are handed on once, the group is gone, and the info text gains
   * one "reassembled" note.
   */
  lemma {:induction false} SysexPacketsDelivered(buf: seq<byte>, src: int, dst: int, k: nat, cable: nat, msg: seq<byte>, st: BulkState)
    requires cable < 16 && |msg| >= 1
    requires 4 * k <= |buf| && buf[4 * k ..] == SysexPackets(cable, msg)
    ensures var key := FragmentKey(src, dst, cable);
      ProcessFrom(buf, src, dst, k, st) ==
        BulkState(st.pending - {key}, st.delivered + [Flatten(Lookup(st.pending, key)) + msg], st.info + SysexReassembledNote)
    decreases |msg|
  {
    if |msg| <= 3 {
      SysexTerminatorLayout(buf, k, cable, msg);
      TerminatorDelivered(buf, src, dst, k, cable, msg, st);
    } else {
      var key := FragmentKey(src, dst, cable);
      var next := BulkState(st.pending[key := Lookup(st.pending, key) + [msg[..3]]], st.delivered, st.info);
      SysexContinuationLayout(buf, k, cable, msg);
      ContinuationAdded(buf, src, dst, k, cable, msg[..3], st);
      SysexPacketsDelivered(buf, src, dst, k + 1, cable, msg[3..], next);
      GroupExtended(st.pending, key, msg[..3], msg[3..]);
      assert msg[..3] + msg[3..] == msg;
    }
  }

  /** Adding a chunk to a group and then handing the group on with a tail equals handing it on with chunk and tail. */
  lemma GroupExtended(pending: Pending, key: FragmentKey, chunk: seq<byte>, tail: seq<byte>)
    ensures var extended := pending[key := Lookup(pending, key) + [chunk]];
      && Flatten(Lookup(extended, key)) + tail == Flatten(Lookup(pending, key)) + (chunk + tail)
      && extended - {key} == pending - {key}
  {
    var extended := pending[key := Lookup(pending, key) + [chunk]];
    assert Lookup(extended, key) == Lookup(pending, key) + [chunk];
    FlattenAppend(Lookup(pending, key), chunk);
    assert extended - {key} == pending - {key};
  }

  /**
   * Round trip: a SysEx message sent on any cable as event packets, decoded
   * as one bulk payload with an empty reassembly table, is handed on exactly
   * once and unchanged, and leaves no group pending.
   */
  lemma SysexRoundTrip(cable: nat, msg: seq<byte>, src: int, dst: int)
    requires cable < 16 && |msg| >= 1
    ensures var res := ProcessFrom(SysexPackets(cable, msg), src, dst, 0, BulkState(map[], [], BulkInfo));
      res.delivered == [msg] && res.pending == map[] && res.info == BulkInfo + SysexReassembledNote
  {
    var buf := SysexPackets(cable, msg);
    var key := FragmentKey(src, dst, cable);
    var empty: Pending := map[];
    SysexPacketsDelivered(buf, src, dst, 0, cable, msg, BulkState(empty, [], BulkInfo));
    assert Lookup(empty, key) == [];
    assert Flatten(Lookup(empty, key)) + msg == msg;
    assert empty - {key} == empty;
  }

  /**
   * Four packets on cable 0 with codes 0x4, 0x4, 0x6 and 0x5 (for instance
   * "abc", "def", "gh", "i"). The 0x6 packet closes the group, but a SysEx
   * packet follows in the same buffer, so the first eight bytes are never
   * handed on; the 0x5 packet then forms a group of its own and only its byte
   * is handed on.
   */
  lemma ClosedGroupWithLaterSysexIsDropped(buf: seq<byte>)
    requires |buf| == 16 && buf[0] == 0x04 && buf[4] == 0x04 && buf[8] == 0x06 && buf[12] == 0x05
    ensures var res := ProcessFrom(buf, 0, 0, 0, BulkState(map[], [], BulkInfo));
      res.delivered == [buf[13..14]] && res.pending == map[] && res.info == BulkInfo + SysexReassembledNote
  {
    TwoContinuationsOpenGroup(buf);
    ClosedGroupThenLoneTerminator(buf);
  }

  /** From the scenario's 0x6 packet on: the open group is dropped and the 0x5 packet's byte handed on. */
  lemma ClosedGroupThenLoneTerminator(buf: seq<byte>)
    requires |buf| == 16 && buf[8] == 0x06 && buf[12] == 0x05
    ensures ProcessFrom(buf, 0, 0, 2, BulkState(map[FragmentKey(0, 0, 0) := [buf[1..4], buf[5..8]]], [], BulkInfo)) ==
      BulkState(map[], [buf[13..14]], BulkInfo + SysexReassembledNote)
  {
    ClosedGroupDropped(buf);
    LoneTerminatorDelivered(buf, 3, 0);
  }

  /** The scenario's 0x6 packet, with a SysEx packet after it, drops the open group. */
  lemma ClosedGroupDropped(buf: seq<byte>)
    requires |buf| == 16 && buf[8] == 0x06 && buf[12] == 0x05
    ensures ProcessFrom(buf, 0, 0, 2, BulkState(map[FragmentKey(0, 0, 0) := [buf[1..4], buf[5..8]]], [], BulkInfo)) ==
      ProcessFrom(buf, 0, 0, 3, BulkState(map[], [], BulkInfo))
  {
    var key := FragmentKey(0, 0, 0);
    var open: Pending := map[key := [buf[1..4], buf[5..8]]];
    OnlyGroupRemoved(open, key);
    TerminatorDeferred(buf, 0, 0, 2, 0, BulkState(open, [], BulkInfo));
  }

  lemma OnlyGroupRemoved(pending: Pending, key: FragmentKey)
    requires pending.Keys == {key}
    ensures pending - {key} == map[]
  {
    var empty: Pending := map[];
    assert (pending - {key}).Keys == {};
    assert pending - {key} == empty;
  }

  /** Two 0x4 packets on cable 0 followed by a SysEx packet open a group holding both their chunks. */
  lemma TwoContinuationsOpenGroup(buf: seq<byte>)
    requires 12 <= |buf| && buf[0] == 0x04 && buf[4] == 0x04 && IsSysexCode(buf[8] % 16)
    ensures var key := FragmentKey(0, 0, 0);
      ProcessFrom(buf, 0, 0, 0, BulkState(map[], [], BulkInfo)) ==
      ProcessFrom(buf, 0, 0, 2, BulkState(map[key := [buf[1..4], buf[5..8]]], [], BulkInfo))
  {
    ContinuationOpensGroup(buf, 0, 0);
    SecondContinuation(buf);
  }

  /** A 0x4 packet followed by a SysEx packet, with nothing pending, opens its cable's group. */
  lemma ContinuationOpensGroup(buf: seq<byte>, k: nat, cable: nat)
    requires 4 * k + 8 <= |buf| && buf[4 * k] == 16 * cable + 0x04 && IsSysexCode(buf[4 * k + 4] % 16)
    ensures ProcessFrom(buf, 0, 0, k, BulkState(map[], [], BulkInfo)) ==
      ProcessFrom(buf, 0, 0, k + 1, BulkState(map[FragmentKey(0, 0, cable) := [buf[4 * k + 1 .. 4 * k + 4]]], [], BulkInfo))
  {
    var empty: Pending := map[];
    GroupOpened(FragmentKey(0, 0, cable), buf[4 * k + 1 .. 4 * k + 4]);
    ContinuationAdded(buf, 0, 0, k, cable, buf[4 * k + 1 .. 4 * k + 4], BulkState(empty, [], BulkInfo));
  }

  /** A chunk added with nothing pending forms a group of its own. */
  lemma GroupOpened(key: FragmentKey, chunk: seq<byte>)
    ensures var empty: Pending := map[];
      empty[key := Lookup(empty, key) + [chunk]] == map[key := [chunk]]
  {
    var empty: Pending := map[];
    assert Lookup(empty, key) + [chunk] == [chunk];
  }

  lemma SecondContinuation(buf: seq<byte>)
    requires 12 <= |buf| && buf[4] == 0x04 && IsSysexCode(buf[8] % 16)
    ensures ProcessFrom(buf, 0, 0, 1, BulkState(map[FragmentKey(0, 0, 0) := [buf[1..4]]], [], BulkInfo)) ==
      ProcessFrom(buf, 0, 0, 2, BulkState(map[FragmentKey(0, 0, 0) := [buf[1..4], buf[5..8]]], [], BulkInfo))
  {
    var key := FragmentKey(0, 0, 0);
    var p1: Pending := map[key := [buf[1..4]]];
    assert Lookup(p1, key) + [buf[5..8]] == [buf[1..4], buf[5..8]];
    assert p1[key := Lookup(p1, key) + [buf[5..8]]] == map[key := [buf[1..4], buf[5..8]]];
    ContinuationAdded(buf, 0, 0, 1, 0, buf[5..8], BulkState(p1, [], BulkInfo));
  }

  /**
   * The lookahead ignores cables: a terminator on cable 0 followed by one on
   * cable 1 closes cable 0's group without handing it on; only cable 1's byte
   * is handed on.
   */
  lemma LookaheadSpansCables(buf: seq<byte>)
    requires |buf| == 8 && buf[0] == 0x05 && buf[4] == 0x15
    ensures var res := ProcessFrom(buf, 0, 0, 0, BulkState(map[], [], BulkInfo));
      res.delivered == [buf[5..6]] && res.pending == map[] && res.info == BulkInfo + SysexReassembledNote
  {
    LoneTerminatorDeferred(buf, 0, 0);
    LoneTerminatorDelivered(buf, 1, 1);
  }

  /** A terminator followed by a SysEx packet, with nothing pending: nothing is handed on. */
  lemma LoneTerminatorDeferred(buf: seq<byte>, k: nat, cable: nat)
    requires 4 * k + 8 <= |buf| && buf[4 * k] == 16 * cable + 0x05 && IsSysexCode(buf[4 * k + 4] % 16)
    ensures ProcessFrom(buf, 0, 0, k, BulkState(map[], [], BulkInfo)) ==
      ProcessFrom(buf, 0, 0, k + 1, BulkState(map[], [], BulkInfo))
  {
    var empty: Pending := map[];
    assert empty - {FragmentKey(0, 0, cable)} == empty;
    TerminatorDeferred(buf, 0, 0, k, cable, BulkState(empty, [], BulkInfo));
  }

  /** A terminator ending the buffer, with nothing pending: its own bytes are handed on. */
  lemma LoneTerminatorDelivered(buf: seq<byte>, k: nat, cable: nat)
    requires |buf| == 4 * k + 4 && buf[4 * k] == 16 * cable + 0x05
    ensures ProcessFrom(buf, 0, 0, k, BulkState(map[], [], BulkInfo)) ==
      BulkState(map[], [buf[4 * k + 1 .. 4 * k + 2]], BulkInfo + SysexReassembledNote)
  {
    var key := FragmentKey(0, 0, cable);
    var empty: Pending := map[];
    var chunk := buf[4 * k + 1 .. 4 * k + 2];
    TerminatorDelivered(buf, 0, 0, k, cable, chunk, BulkState(empty, [], BulkInfo));
    assert Lookup(empty, key) == [];
    assert Flatten(Lookup(empty, key)) + chunk == chunk;
    assert empty - {key} == empty;
  }

  /**
   * A trailing partial packet is not decoded, but the lookahead still reads
   * its first byte: a terminator followed by two bytes starting with a SysEx
   * code hands nothing on and adds no info text.
   */
  lemma PartialTrailingPacketBlocksDelivery(buf: seq<byte>)
    requires buf == [0x05, 97, 0, 0, 0x05, 98]
    ensures var res := ProcessFrom(buf, 0, 0, 0, BulkState(map[], [], BulkInfo));
      res.delivered == [] && res.pending == map[] && res.info == BulkInfo
  {
    var empty: Pending := map[];
    var st0 := BulkState(empty, [], BulkInfo);
    ProcessStep(buf, 0, 0, 0, st0);
    DeferredTerminatorStep(buf, 0, 0, 0, st0);
    assert empty - {FragmentKey(0, 0, 0)} == empty;
    ProcessEnd(buf, 0, 0, 1, st0);
  }
}

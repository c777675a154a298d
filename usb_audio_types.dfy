/*
 * Shared vocabulary of the USB audio / MIDI descriptor and event decoder:
 * bytes, the class and subtype codes the dispatcher compares against, the
 * diagnostics the decoders raise, and the outcome every decoder returns.
 */
module UsbAudioTypes {

  /** One octet of a captured buffer. */
  type byte = x: int | 0 <= x < 256

  datatype Option<T> = None | Some(value: T)

  // Interface class code of audio interfaces (USB class codes).
  const IfClassAudio := 0x01

  // Audio interface subclass codes.
  const SubclassAudioControl := 0x01
  const SubclassAudioStreaming := 0x02
  const SubclassMidiStreaming := 0x03

  // Class-specific descriptor types (section A.8 of Audio 2.0).
  const CsInterface: byte := 0x24
  const CsEndpoint: byte := 0x25

  // Audio control interface descriptor subtypes.
  const AcSubtypeHeader: byte := 0x01
  const AcSubtypeInputTerminal: byte := 0x02
  const AcSubtypeOutputTerminal: byte := 0x03
  const AcSubtypeMixerUnit: byte := 0x04
  const AcSubtypeSelectorUnit: byte := 0x05
  const AcSubtypeFeatureUnit: byte := 0x06
  const AcSubtypeClockSource: byte := 0x0A
  const AcSubtypeClockSelector: byte := 0x0B

  // Audio streaming interface and endpoint descriptor subtypes.
  const AsSubtypeGeneral: byte := 0x01
  const AsSubtypeFormatType: byte := 0x02
  const AsEpSubtypeGeneral: byte := 0x01

  // MIDI streaming interface and endpoint descriptor subtypes.
  const MsSubtypeHeader: byte := 0x01
  const MsSubtypeMidiInJack: byte := 0x02
  const MsSubtypeMidiOutJack: byte := 0x03
  const MsEpSubtypeGeneral: byte := 0x01

  /** Expert diagnostics; each covers a byte range of the buffer (start, length). */
  datatype Diagnostic =
    | Undecoded(start: int, length: int)
    | InvalidFeatureUnitLength(start: int, length: int)
    | InvalidType3NrChannels(at: int)
    | InvalidType3SubframeSize(at: int)
    | InvalidType3BitResolution(at: int)

  /**
   * What a decoder yields: the value it returns (bytes consumed, or for the
   * dispatcher the length it reports) with the diagnostics it raised, or the
   * exception thrown when a field read runs past the end of the buffer.
   */
  datatype Outcome = Decoded(consumed: int, diags: seq<Diagnostic>) | ReadPastEnd

  /** A body made of fixed fields only, `len` bytes in all, starting at `offset`. */
  function Span(buf: seq<byte>, offset: nat, len: nat): Outcome
  {
    if offset + len <= |buf| then Decoded(len, []) else ReadPastEnd
  }

  /**
   * A body of `fixed` bytes of fields plus `count` items of `itemWidth` bytes,
   * where `count` is the byte at `offset + countAt` (itself one of the fields).
   */
  function CountedBody(buf: seq<byte>, offset: nat, countAt: nat, fixed: nat, itemWidth: nat): Outcome
    requires countAt < fixed
  {
    if offset + countAt < |buf| then Span(buf, offset, fixed + itemWidth * buf[offset + countAt])
    else ReadPastEnd
  }

  /** The concatenation of a sequence of byte chunks, in order. */
  function Flatten(chunks: seq<seq<byte>>): seq<byte>
  {
    if chunks == [] then [] else Flatten(chunks[..|chunks| - 1]) + chunks[|chunks| - 1]
  }

  lemma FlattenAppend(chunks: seq<seq<byte>>, c: seq<byte>)
    ensures Flatten(chunks + [c]) == Flatten(chunks) + c
  {
    assert (chunks + [c])[..|chunks|] == chunks;
  }

  /**
   * Decodes a byte holding two BCD digits (high nibble tens, low nibble units),
   * as the source's 4.4 BCD macro does; nibbles above 9 are not rejected.
   */
  function Bcd44ToDec(x: byte): (d: byte)
    ensures d <= 165
    ensures x % 16 <= 9 ==> d / 10 == x / 16 && d % 10 == x % 16
  {
    (x / 16) * 10 + x % 16
  }

  /** The two-digit BCD encoding of a number below 100. */
  function DecToBcd44(d: nat): (x: byte)
    requires d < 100
  {
    (d / 10) * 16 + d % 10
  }

  predicate IsBcd44(x: byte)
  {
    x / 16 <= 9 && x % 16 <= 9
  }

  /** The BCD decoding and encoding are inverse on valid BCD bytes and on 0..99. */
  lemma BcdRoundTrip(x: byte, d: nat)
    requires d < 100
    ensures Bcd44ToDec(DecToBcd44(d)) == d
    ensures IsBcd44(DecToBcd44(d))
    ensures IsBcd44(x) ==> Bcd44ToDec(x) < 100 && DecToBcd44(Bcd44ToDec(x)) == x
  {
    var tens, units := d / 10, d % 10;
    var y := DecToBcd44(d);
    assert y == tens * 16 + units && units < 16;
    assert y / 16 == tens && y % 16 == units;
    if IsBcd44(x) {
      var t := Bcd44ToDec(x);
      assert t / 10 == x / 16 && t % 10 == x % 16;
    }
  }

  /** Euclidean division of a natural number by a positive one brackets it. */
  lemma DivBracket(n: nat, b: int)
    requires b > 0
    ensures 0 <= (n / b) * b <= n < (n / b) * b + b
  {
    var q, r := n / b, n % b;
    assert n == b * q + r && 0 <= r < b;
    assert q * b == b * q;
    assert q >= 0;
  }

  /** C integer division of `a` by a positive `b`: the quotient rounds toward zero. */
  function TruncDiv(a: int, b: int): (q: int)
    requires b > 0
    ensures a >= 0 ==> 0 <= q * b <= a < q * b + b
    ensures a < 0 ==> q * b - b < a <= q * b <= 0
  {
    if a >= 0 then
      DivBracket(a, b);
      a / b
    else
      var m := (-a) / b;
      DivBracket(-a, b);
      assert (-m) * b == -(m * b);
      -m
  }
}

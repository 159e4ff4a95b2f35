/** Percent decoding of proxy credentials (src/transport/proxy.rs), on bytes. */
module PercentDecode {
  import opened Wrappers
  import opened LittleEndian

  const PERCENT: Byte := 0x25

  function HexNibble(b: Byte): (n: Option<nat>)
    ensures n.Some? ==> n.value < 16
    ensures n.Some? <==> 0x30 <= b <= 0x39 || 0x41 <= b <= 0x46 || 0x61 <= b <= 0x66
  {
    if 0x30 <= b <= 0x39 then Some(b - 0x30)
    else if 0x61 <= b <= 0x66 then Some(b - 0x61 + 10)
    else if 0x41 <= b <= 0x46 then Some(b - 0x41 + 10)
    else None
  }

  /** A percent sign followed by two hex digits, all inside the input. */
  predicate EscapeAt(s: Bytes, i: nat) {
    && i + 2 < |s|
    && s[i] == PERCENT
    && HexNibble(s[i + 1]).Some?
    && HexNibble(s[i + 2]).Some?
  }

  function EscapedByte(s: Bytes, i: nat): Byte
    requires EscapeAt(s, i)
  {
    16 * HexNibble(s[i + 1]).value + HexNibble(s[i + 2]).value
  }

  /** The decoding of `s` from `i` on. */
  function DecodeFrom(s: Bytes, i: nat): Bytes
    requires i <= |s|
    decreases |s| - i
  {
    if i == |s| then []
    else if EscapeAt(s, i) then [EscapedByte(s, i)] + DecodeFrom(s, i + 3)
    else [s[i]] + DecodeFrom(s, i + 1)
  }

  /** The source's loop. */
  method Decode(input: Bytes) returns (out: Bytes)
    ensures out == DecodeFrom(input, 0)
  {
    out := [];
    var i := 0;
    while i < |input|
      invariant 0 <= i <= |input|
      invariant out + DecodeFrom(input, i) == DecodeFrom(input, 0)
    {
      if input[i] == PERCENT && i + 2 < |input| {
        var h, l := HexNibble(input[i + 1]), HexNibble(input[i + 2]);
        if h.Some? && l.Some? {
          var b: Byte := 16 * h.value + l.value;
          assert out + ([b] + DecodeFrom(input, i + 3)) == out + [b] + DecodeFrom(input, i + 3);
          out := out + [b];
          i := i + 3;
          continue;
        }
      }
      assert out + ([input[i]] + DecodeFrom(input, i + 1)) == out + [input[i]] + DecodeFrom(input, i + 1);
      out := out + [input[i]];
      i := i + 1;
    }
    assert out + [] == out;
  }

  // ------------------------------------------------------------------
  // Decoding inverts encoding
  // ------------------------------------------------------------------

  /** One byte of an encoding: as it is, or escaped with each digit in either case. */
  datatype Token = Literal(b: Byte) | Escape(b: Byte, upperHigh: bool, upperLow: bool)

  function HexDigit(n: nat, upper: bool): Byte
    requires n < 16
  {
    if n < 10 then 0x30 + n else if upper then 0x41 + n - 10 else 0x61 + n - 10
  }

  lemma HexRoundTrip(n: nat, upper: bool)
    requires n < 16
    ensures HexNibble(HexDigit(n, upper)) == Some(n)
    ensures HexDigit(n, upper) != PERCENT
  {
  }

  function Print(t: Token): Bytes {
    match t
    case Literal(b) => [b]
    case Escape(b, upperHigh, upperLow) => [PERCENT, HexDigit(b / 16, upperHigh), HexDigit(b % 16, upperLow)]
  }

  function PrintAll(ts: seq<Token>): Bytes {
    if ts == [] then [] else Print(ts[0]) + PrintAll(ts[1..])
  }

  function Values(ts: seq<Token>): Bytes {
    if ts == [] then [] else [ts[0].b] + Values(ts[1..])
  }

  /** Only a literal percent sign must not be left as it is. */
  ghost predicate Encodes(ts: seq<Token>) {
    forall i :: 0 <= i < |ts| && ts[i].Literal? ==> ts[i].b != PERCENT
  }

  /** Decoding a suffix looks only at that suffix. */
  lemma {:induction false} DecodeSuffix(a: Bytes, s: Bytes, i: nat)
    requires i <= |s|
    ensures DecodeFrom(a + s, |a| + i) == DecodeFrom(s, i)
    decreases |s| - i
  {
    if i < |s| {
      assert EscapeAt(a + s, |a| + i) <==> EscapeAt(s, i);
      if EscapeAt(s, i) {
        DecodeSuffix(a, s, i + 3);
      } else {
        DecodeSuffix(a, s, i + 1);
      }
    }
  }

  /**
   For every byte string, every choice of bytes to escape that includes the percent sign, and
   either case of each hex digit, decoding the encoding gives the bytes back.
   */
  lemma {:induction false} DecodeInvertsEncode(ts: seq<Token>)
    requires Encodes(ts)
    ensures DecodeFrom(PrintAll(ts), 0) == Values(ts)
    decreases |ts|
  {
    if ts != [] {
      var head, tail := Print(ts[0]), PrintAll(ts[1..]);
      DecodeInvertsEncode(ts[1..]);
      DecodeSuffix(head, tail, 0);
      match ts[0]
      case Literal(b) =>
        assert !EscapeAt(head + tail, 0);
      case Escape(b, upperHigh, upperLow) =>
        HexRoundTrip(b / 16, upperHigh);
        HexRoundTrip(b % 16, upperLow);
        assert EscapeAt(head + tail, 0) && EscapedByte(head + tail, 0) == b;
    }
  }

  // ------------------------------------------------------------------
  // What is left alone
  // ------------------------------------------------------------------

  /** How many escapes start at or after `i`. */
  function Escapes(s: Bytes, i: nat): nat
    requires i <= |s|
    decreases |s| - i
  {
    if i == |s| then 0 else (if EscapeAt(s, i) then 1 else 0) + Escapes(s, i + 1)
  }

  /** No escape starts inside another: hex digits are not percent signs. */
  lemma EscapesApart(s: Bytes, i: nat)
    requires EscapeAt(s, i)
    ensures Escapes(s, i) == 1 + Escapes(s, i + 3)
  {
    assert !EscapeAt(s, i + 1) && !EscapeAt(s, i + 2);
    assert Escapes(s, i + 1) == Escapes(s, i + 2) == Escapes(s, i + 3);
  }

  /** Every well-formed escape anywhere in the input is decoded, and nothing else shrinks. */
  lemma {:induction false} DecodedLength(s: Bytes, i: nat)
    requires i <= |s|
    ensures |DecodeFrom(s, i)| + 2 * Escapes(s, i) == |s| - i
    decreases |s| - i
  {
    if i < |s| {
      if EscapeAt(s, i) {
        EscapesApart(s, i);
        DecodedLength(s, i + 3);
      } else {
        DecodedLength(s, i + 1);
      }
    }
  }

  lemma {:induction false} NoEscapes(s: Bytes, i: nat)
    requires i <= |s|
    ensures Escapes(s, i) == 0 <==> forall k :: i <= k < |s| ==> !EscapeAt(s, k)
    ensures Escapes(s, i) == 0 ==> DecodeFrom(s, i) == s[i..]
    decreases |s| - i
  {
    if i < |s| {
      NoEscapes(s, i + 1);
    }
  }

  /** Decoding is the identity exactly on inputs without a well-formed escape. */
  lemma IdentityIff(s: Bytes)
    ensures DecodeFrom(s, 0) == s <==> forall k :: 0 <= k < |s| ==> !EscapeAt(s, k)
  {
    DecodedLength(s, 0);
    NoEscapes(s, 0);
    assert s[0..] == s;
  }
}

/** Bitwise operators on small words, bit by bit from the lowest. */
module Bits {
  /** `x` needs at most `width` bits. */
  predicate Fits(x: nat, width: nat) {
    if width == 0 then x == 0 else Fits(x / 2, width - 1)
  }

  function Or(x: nat, y: nat, width: nat): nat {
    if width == 0 then 0 else 2 * Or(x / 2, y / 2, width - 1) + if x % 2 == 0 && y % 2 == 0 then 0 else 1
  }

  function Xor(x: nat, y: nat, width: nat): nat {
    if width == 0 then 0 else 2 * Xor(x / 2, y / 2, width - 1) + if x % 2 == y % 2 then 0 else 1
  }

  lemma {:induction false} OrIsZero(x: nat, y: nat, width: nat)
    requires Fits(x, width) && Fits(y, width)
    ensures Or(x, y, width) == 0 <==> x == 0 && y == 0
  {
    if width > 0 {
      OrIsZero(x / 2, y / 2, width - 1);
    }
  }

  lemma {:induction false} XorIsZero(x: nat, y: nat, width: nat)
    requires Fits(x, width) && Fits(y, width)
    ensures Xor(x, y, width) == 0 <==> x == y
  {
    if width > 0 {
      XorIsZero(x / 2, y / 2, width - 1);
    }
  }

  lemma {:induction false} ResultsFit(x: nat, y: nat, width: nat)
    ensures Fits(Or(x, y, width), width) && Fits(Xor(x, y, width), width)
  {
    if width > 0 {
      ResultsFit(x / 2, y / 2, width - 1);
      assert Or(x, y, width) / 2 == Or(x / 2, y / 2, width - 1) && Xor(x, y, width) / 2 == Xor(x / 2, y / 2, width - 1);
    }
  }

  lemma {:induction false} FitsEight(x: nat)
    requires x < 256
    ensures Fits(x, 8)
  {
    Halves(x, 7);
  }

  function Power(width: nat): nat { if width == 0 then 1 else 2 * Power(width - 1) }

  lemma {:induction false} Halves(x: nat, width: nat)
    requires x < 2 * Power(width)
    ensures Fits(x, width + 1)
  {
    if width > 0 {
      Halves(x / 2, width - 1);
    }
  }
}

/** Bytes, their comparison without an early exit, and their hexadecimal spelling
    (src/realtime/session.rs, src/application/service/sms_status_webhook_service.rs). */
module Bytes {
  import opened Prelude
  import Bits

  type Byte = b: int | 0 <= b < 256

  /** The accumulating comparison: every position is looked at, whatever differs first. */
  method ConstEq(a: seq<Byte>, b: seq<Byte>) returns (equal: bool)
    ensures equal <==> a == b
  {
    if |a| != |b| { return false; }
    var diff := 0;
    for i := 0 to |a|
      invariant Bits.Fits(diff, 8) && (diff == 0 <==> a[..i] == b[..i])
    {
      Accumulates(diff, a[i], b[i]);
      diff := Bits.Or(diff, Bits.Xor(a[i], b[i], 8), 8);
      assert a[..i + 1] == a[..i] + [a[i]] && b[..i + 1] == b[..i] + [b[i]];
    }
    assert a[..|a|] == a && b[..|b|] == b;
    return diff == 0;
  }

  lemma Accumulates(diff: nat, x: Byte, y: Byte)
    requires Bits.Fits(diff, 8)
    ensures var next := Bits.Or(diff, Bits.Xor(x, y, 8), 8);
      Bits.Fits(next, 8) && (next == 0 <==> diff == 0 && x == y)
  {
    Bits.FitsEight(x);
    Bits.FitsEight(y);
    Bits.XorIsZero(x, y, 8);
    Bits.ResultsFit(x, y, 8);
    Bits.OrIsZero(diff, Bits.Xor(x, y, 8), 8);
    Bits.ResultsFit(diff, Bits.Xor(x, y, 8), 8);
  }

  const HEX: string := "0123456789abcdef"

  predicate HexDigit(c: char) { '0' <= c <= '9' || 'a' <= c <= 'f' || 'A' <= c <= 'F' }

  function DigitValue(c: char): (v: int)
    requires HexDigit(c)
    ensures 0 <= v < 16
  {
    if '0' <= c <= '9' then c as int - '0' as int
    else if 'a' <= c <= 'f' then c as int - 'a' as int + 10
    else c as int - 'A' as int + 10
  }

  function LowerChar(c: char): char {
    if 'A' <= c <= 'Z' then (c as int + 32) as char else c
  }

  function Lower(s: string): string {
    seq(|s|, i requires 0 <= i < |s| => LowerChar(s[i]))
  }

  /** Lowercase hexadecimal, two digits a byte. */
  function Print(bytes: seq<Byte>): (s: string)
    ensures |s| == 2 * |bytes|
  {
    seq(2 * |bytes|, i requires 0 <= i < 2 * |bytes| =>
      HEX[if i % 2 == 0 then bytes[i / 2] / 16 else bytes[i / 2] % 16])
  }

  lemma DigitSpelling(c: char, v: int)
    requires 0 <= v < 16
    ensures HexDigit(c) && DigitValue(c) == v <==> LowerChar(c) == HEX[v]
    ensures HexDigit(HEX[v]) && LowerChar(HEX[v]) == HEX[v]
  {
  }

  /** 64 hex digits of either case and nothing else are accepted; the bytes are the ones whose
      lowercase spelling the text is. */
  ghost predicate HexParse(s: string, r: Option<seq<Byte>>) {
    && (r.Some? <==> |s| == 64 && forall c :: c in s ==> HexDigit(c))
    && (r.Some? ==> |r.value| == 32 && Print(r.value) == Lower(s))
  }

  method ParseHex32(s: string) returns (r: Option<seq<Byte>>)
    ensures HexParse(s, r)
  {
    if |s| != 64 || exists c :: c in s && !HexDigit(c) { return None; }
    assert forall k :: 0 <= k < 64 ==> HexDigit(s[k]);
    var out: array<Byte> := new Byte[32](_ => 0);
    for i := 0 to 32
      invariant forall k :: 0 <= k < i ==> out[k] == PairValue(s[2 * k], s[2 * k + 1])
    {
      var hi, lo := DigitValue(s[2 * i]), DigitValue(s[2 * i + 1]);
      out[i] := hi * 16 + lo;
    }
    PairsSpell(s, out[..]);
    return Some(out[..]);
  }

  function PairValue(hi: char, lo: char): Byte
    requires HexDigit(hi) && HexDigit(lo)
  {
    DigitValue(hi) * 16 + DigitValue(lo)
  }

  lemma PairSpells(hi: char, lo: char)
    requires HexDigit(hi) && HexDigit(lo)
    ensures HEX[PairValue(hi, lo) / 16] == LowerChar(hi) && HEX[PairValue(hi, lo) % 16] == LowerChar(lo)
  {
    assert PairValue(hi, lo) / 16 == DigitValue(hi) && PairValue(hi, lo) % 16 == DigitValue(lo);
    DigitSpelling(hi, DigitValue(hi));
    DigitSpelling(lo, DigitValue(lo));
  }

  lemma PairsSpell(s: string, bytes: seq<Byte>)
    requires |s| == 2 * |bytes| && forall k :: 0 <= k < |s| ==> HexDigit(s[k])
    requires forall k :: 0 <= k < |bytes| ==> bytes[k] == PairValue(s[2 * k], s[2 * k + 1])
    ensures Print(bytes) == Lower(s)
  {
    forall i | 0 <= i < |s|
      ensures Print(bytes)[i] == Lower(s)[i]
    {
      var k := i / 2;
      PairSpells(s[2 * k], s[2 * k + 1]);
      assert i == 2 * k || i == 2 * k + 1;
    }
  }

  /** Printing is one-to-one, so the parse result is the only one the contract allows. */
  lemma PrintIsInjective(a: seq<Byte>, b: seq<Byte>)
    requires Print(a) == Print(b)
    ensures a == b
  {
    assert |Print(a)| == |Print(b)|;
    forall k | 0 <= k < |a|
      ensures a[k] == b[k]
    {
      assert Print(a)[2 * k] == Print(b)[2 * k];
      assert Print(a)[2 * k + 1] == Print(b)[2 * k + 1];
      DigitSpelling(HEX[a[k] / 16], b[k] / 16);
      DigitSpelling(HEX[a[k] % 16], b[k] % 16);
      DigitSpelling(HEX[a[k] / 16], a[k] / 16);
      DigitSpelling(HEX[a[k] % 16], a[k] % 16);
    }
  }

  /** A text spells these bytes when its lowercase form is their print. */
  predicate Spells(s: string, bytes: seq<Byte>) { Lower(s) == Print(bytes) }

  lemma SpellingIsHex(s: string, bytes: seq<Byte>)
    requires Spells(s, bytes)
    ensures |s| == 2 * |bytes| && forall c :: c in s ==> HexDigit(c)
  {
    assert |Lower(s)| == |s|;
    forall i | 0 <= i < |s|
      ensures HexDigit(s[i])
    {
      assert Lower(s)[i] == Print(bytes)[i];
      DigitSpelling(s[i], if i % 2 == 0 then bytes[i / 2] / 16 else bytes[i / 2] % 16);
    }
  }

  lemma PrintIsItsOwnSpelling(bytes: seq<Byte>)
    ensures Spells(Print(bytes), bytes)
  {
  }

  /** Parsing and printing undo each other: what parses to a digest is exactly the case
      variants of its print, the print itself among them. */
  lemma ParsesToIffSpells(s: string, r: Option<seq<Byte>>, digest: seq<Byte>)
    requires HexParse(s, r) && |digest| == 32
    ensures r == Some(digest) <==> Spells(s, digest)
    ensures s == Print(digest) ==> r == Some(digest)
  {
    PrintIsItsOwnSpelling(digest);
    if Spells(s, digest) {
      SpellingIsHex(s, digest);
      PrintIsInjective(r.value, digest);
    }
  }
}

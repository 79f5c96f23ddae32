/** Base64url without padding, section 5 of RFC 4648, decoded strictly: no padding, no foreign
    characters, no leftover bits. */
module Base64 {
  import opened Prelude
  import opened Bytes

  function Symbol(v: int): char
    requires 0 <= v < 64
  {
    if v < 26 then (v + 'A' as int) as char
    else if v < 52 then (v - 26 + 'a' as int) as char
    else if v < 62 then (v - 52 + '0' as int) as char
    else if v == 62 then '-' else '_'
  }

  predicate InAlphabet(c: char) {
    'A' <= c <= 'Z' || 'a' <= c <= 'z' || '0' <= c <= '9' || c == '-' || c == '_'
  }

  function Value(c: char): (v: int)
    requires InAlphabet(c)
    ensures 0 <= v < 64
  {
    if 'A' <= c <= 'Z' then c as int - 'A' as int
    else if 'a' <= c <= 'z' then c as int - 'a' as int + 26
    else if '0' <= c <= '9' then c as int - '0' as int + 52
    else if c == '-' then 62 else 63
  }

  lemma ValueOfSymbol(v: int)
    requires 0 <= v < 64
    ensures InAlphabet(Symbol(v)) && Value(Symbol(v)) == v
  {
  }

  lemma SymbolOfValue(c: char)
    requires InAlphabet(c)
    ensures Symbol(Value(c)) == c
  {
  }

  function Encode(b: seq<Byte>): string {
    if |b| == 0 then ""
    else if |b| == 1 then [Symbol(b[0] / 4), Symbol(b[0] % 4 * 16)]
    else if |b| == 2 then [Symbol(b[0] / 4), Symbol(b[0] % 4 * 16 + b[1] / 16), Symbol(b[1] % 16 * 4)]
    else Quad(b[0], b[1], b[2]) + Encode(b[3..])
  }

  function Quad(x: Byte, y: Byte, z: Byte): (q: string)
    ensures |q| == 4
  {
    [Symbol(x / 4), Symbol(x % 4 * 16 + y / 16), Symbol(y % 16 * 4 + z / 64), Symbol(z % 64)]
  }

  function Triple(s: string): (b: seq<Byte>)
    requires |s| == 4 && forall c :: c in s ==> InAlphabet(c)
    ensures |b| == 3
  {
    [Value(s[0]) * 4 + Value(s[1]) / 16, Value(s[1]) % 16 * 16 + Value(s[2]) / 4, Value(s[2]) % 4 * 64 + Value(s[3])]
  }

  function Decode(s: string): Option<seq<Byte>> {
    if |s| == 0 then Some([])
    else if exists c :: c in s && !InAlphabet(c) then None
    else if |s| == 1 then None
    else if |s| == 2 then
      if Value(s[1]) % 16 != 0 then None else Some([Value(s[0]) * 4 + Value(s[1]) / 16])
    else if |s| == 3 then
      if Value(s[2]) % 4 != 0 then None
      else Some([Value(s[0]) * 4 + Value(s[1]) / 16, Value(s[1]) % 16 * 16 + Value(s[2]) / 4])
    else
      var rest := Decode(s[4..]);
      if rest.None? then None else Some(Triple(s[..4]) + rest.value)
  }

  /** The six-bit pieces of three bytes put the bytes back together. */
  lemma SextetsToBytes(x: Byte, y: Byte, z: Byte)
    ensures x / 4 * 4 + (x % 4 * 16 + y / 16) / 16 == x
    ensures (x % 4 * 16 + y / 16) % 16 * 16 + (y % 16 * 4 + z / 64) / 4 == y
    ensures (y % 16 * 4 + z / 64) % 4 * 64 + z % 64 == z
  {
  }

  lemma BytesToSextets(p: int, q: int, r: int, s: int)
    requires 0 <= p < 64 && 0 <= q < 64 && 0 <= r < 64 && 0 <= s < 64
    ensures var x, y, z := p * 4 + q / 16, q % 16 * 16 + r / 4, r % 4 * 64 + s;
      x / 4 == p && x % 4 * 16 + y / 16 == q && y % 16 * 4 + z / 64 == r && z % 64 == s
  {
  }

  lemma QuadTriple(x: Byte, y: Byte, z: Byte)
    ensures (forall c :: c in Quad(x, y, z) ==> InAlphabet(c)) && Triple(Quad(x, y, z)) == [x, y, z]
  {
    var p, q, r, t := x / 4, x % 4 * 16 + y / 16, y % 16 * 4 + z / 64, z % 64;
    assert p * 4 + q / 16 == x && q % 16 * 16 + r / 4 == y && r % 4 * 64 + t == z by {
      SextetsToBytes(x, y, z);
    }
    TripleOfSymbols(p, q, r, t);
  }

  lemma TripleOfSymbols(p: int, q: int, r: int, t: int)
    requires 0 <= p < 64 && 0 <= q < 64 && 0 <= r < 64 && 0 <= t < 64
    ensures var s := [Symbol(p), Symbol(q), Symbol(r), Symbol(t)];
      (forall c :: c in s ==> InAlphabet(c)) && Triple(s) == [p * 4 + q / 16, q % 16 * 16 + r / 4, r % 4 * 64 + t]
  {
    ValueOfSymbol(p);
    ValueOfSymbol(q);
    ValueOfSymbol(r);
    ValueOfSymbol(t);
  }

  lemma TripleQuad(s: string)
    requires |s| == 4 && forall c :: c in s ==> InAlphabet(c)
    ensures Quad(Triple(s)[0], Triple(s)[1], Triple(s)[2]) == s
  {
    FourSymbols(s);
    var p, q, r, t := Value(s[0]), Value(s[1]), Value(s[2]), Value(s[3]);
    TripleAsSextets(s, p, q, r, t);
    QuadOfSextets(Triple(s)[0], Triple(s)[1], Triple(s)[2], p, q, r, t);
  }

  lemma FourSymbols(s: string)
    requires |s| == 4 && forall c :: c in s ==> InAlphabet(c)
    ensures s == [Symbol(Value(s[0])), Symbol(Value(s[1])), Symbol(Value(s[2])), Symbol(Value(s[3]))]
  {
    SymbolOfValue(s[0]);
    SymbolOfValue(s[1]);
    SymbolOfValue(s[2]);
    SymbolOfValue(s[3]);
  }

  lemma TripleAsSextets(s: string, p: int, q: int, r: int, t: int)
    requires |s| == 4 && forall c :: c in s ==> InAlphabet(c)
    requires p == Value(s[0]) && q == Value(s[1]) && r == Value(s[2]) && t == Value(s[3])
    ensures Triple(s)[0] == p * 4 + q / 16 && Triple(s)[1] == q % 16 * 16 + r / 4 && Triple(s)[2] == r % 4 * 64 + t
  {
  }

  lemma QuadOfSextets(x: Byte, y: Byte, z: Byte, p: int, q: int, r: int, t: int)
    requires 0 <= p < 64 && 0 <= q < 64 && 0 <= r < 64 && 0 <= t < 64
    requires x == p * 4 + q / 16 && y == q % 16 * 16 + r / 4 && z == r % 4 * 64 + t
    ensures Quad(x, y, z) == [Symbol(p), Symbol(q), Symbol(r), Symbol(t)]
  {
    BytesToSextets(p, q, r, t);
  }

  lemma OneByte(x: Byte)
    ensures var e := Encode([x]); (forall c :: c in e ==> InAlphabet(c)) && Decode(e) == Some([x])
  {
  }

  lemma TwoBytes(x: Byte, y: Byte)
    ensures var e := Encode([x, y]); (forall c :: c in e ==> InAlphabet(c)) && Decode(e) == Some([x, y])
  {
    var p, q, r := x / 4, x % 4 * 16 + y / 16, y % 16 * 4;
    ValueOfSymbol(p);
    ValueOfSymbol(q);
    ValueOfSymbol(r);
    assert Encode([x, y]) == [Symbol(p), Symbol(q), Symbol(r)];
    assert p * 4 + q / 16 == x;
    assert r % 4 == 0 && q % 16 * 16 + r / 4 == y;
  }

  lemma TwoSymbols(s: string)
    requires |s| == 2 && Decode(s).Some?
    ensures Encode(Decode(s).value) == s
  {
    assert s[0] in s && s[1] in s;
    var p, q := Value(s[0]), Value(s[1]);
    SymbolOfValue(s[0]);
    SymbolOfValue(s[1]);
    var x := p * 4 + q / 16;
    assert x / 4 == p && x % 4 * 16 == q;
    assert Encode([x]) == [Symbol(p), Symbol(q)];
  }

  lemma TwelveBits(p: int, q: int, r: int)
    requires 0 <= p < 64 && 0 <= q < 64 && 0 <= r < 64 && r % 4 == 0
    ensures var x, y := p * 4 + q / 16, q % 16 * 16 + r / 4;
      0 <= x < 256 && 0 <= y < 256 && x / 4 == p && x % 4 * 16 + y / 16 == q && y % 16 * 4 == r
  {
  }

  lemma EncodeTwo(x: Byte, y: Byte)
    ensures Encode([x, y]) == [Symbol(x / 4), Symbol(x % 4 * 16 + y / 16), Symbol(y % 16 * 4)]
  {
  }

  lemma ThreeSymbols(s: string)
    requires |s| == 3 && Decode(s).Some?
    ensures Encode(Decode(s).value) == s
  {
    DecodeThree(s);
    var b := Decode(s).value;
    SpellThree(s, b[0], b[1]);
    assert b == [b[0], b[1]];
  }

  lemma SpellThree(s: string, x: Byte, y: Byte)
    requires |s| == 3 && InAlphabet(s[0]) && InAlphabet(s[1]) && InAlphabet(s[2]) && Value(s[2]) % 4 == 0
    requires x == Value(s[0]) * 4 + Value(s[1]) / 16 && y == Value(s[1]) % 16 * 16 + Value(s[2]) / 4
    ensures Encode([x, y]) == s
  {
    var p, q, r := Value(s[0]), Value(s[1]), Value(s[2]);
    EncodeSextets(x, y, p, q, r);
    SymbolsAre(s, p, q, r);
  }

  lemma EncodeSextets(x: Byte, y: Byte, p: int, q: int, r: int)
    requires 0 <= p < 64 && 0 <= q < 64 && 0 <= r < 64 && r % 4 == 0
    requires x == p * 4 + q / 16 && y == q % 16 * 16 + r / 4
    ensures Encode([x, y]) == [Symbol(p), Symbol(q), Symbol(r)]
  {
    TwelveBits(p, q, r);
    EncodeTwo(x, y);
  }

  lemma DecodeThree(s: string)
    requires |s| == 3 && Decode(s).Some?
    ensures InAlphabet(s[0]) && InAlphabet(s[1]) && InAlphabet(s[2]) && Value(s[2]) % 4 == 0
    ensures Decode(s).value == [Value(s[0]) * 4 + Value(s[1]) / 16, Value(s[1]) % 16 * 16 + Value(s[2]) / 4]
  {
    assert s[0] in s && s[1] in s && s[2] in s;
  }

  lemma SymbolsAre(s: string, p: int, q: int, r: int)
    requires |s| == 3 && InAlphabet(s[0]) && InAlphabet(s[1]) && InAlphabet(s[2])
    requires p == Value(s[0]) && q == Value(s[1]) && r == Value(s[2])
    ensures [Symbol(p), Symbol(q), Symbol(r)] == s
  {
    SymbolOfValue(s[0]);
    SymbolOfValue(s[1]);
    SymbolOfValue(s[2]);
  }

  /** Encoding uses the alphabet only, and decoding gives the bytes back. */
  lemma {:induction false} DecodeOfEncode(b: seq<Byte>)
    ensures forall c :: c in Encode(b) ==> InAlphabet(c)
    ensures Decode(Encode(b)) == Some(b)
  {
    if |b| == 1 {
      OneByte(b[0]);
      assert b == [b[0]];
    } else if |b| == 2 {
      TwoBytes(b[0], b[1]);
      assert b == [b[0], b[1]];
    } else if |b| >= 3 {
      DecodeOfEncode(b[3..]);
      QuadTriple(b[0], b[1], b[2]);
      var s := Encode(b);
      assert s[..4] == Quad(b[0], b[1], b[2]) && s[4..] == Encode(b[3..]);
      assert b == [b[0], b[1], b[2]] + b[3..];
    }
  }

  /** Decoding accepts nothing but encodings: each byte string has one spelling. */
  lemma {:induction false} EncodeOfDecode(s: string)
    requires Decode(s).Some?
    ensures Encode(Decode(s).value) == s
  {
    if |s| == 2 {
      TwoSymbols(s);
    } else if |s| == 3 {
      ThreeSymbols(s);
    } else if |s| >= 4 {
      EncodeOfDecode(s[4..]);
      TripleQuad(s[..4]);
      var b := Decode(s).value;
      assert b[3..] == Decode(s[4..]).value && [b[0], b[1], b[2]] == Triple(s[..4]);
      assert s == s[..4] + s[4..];
    }
  }

  lemma EncodeIsInjective(a: seq<Byte>, b: seq<Byte>)
    requires Encode(a) == Encode(b)
    ensures a == b
  {
    DecodeOfEncode(a);
    DecodeOfEncode(b);
  }
}

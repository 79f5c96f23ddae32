/** The session proof minted at connect time (src/realtime/session.rs). The MAC is a parameter:
    nothing is claimed about its strength. */
module Session {
  import opened Prelude
  import opened Bytes
  import opened Base64
  import Recipients

  const I64_MIN: int := -0x8000_0000_0000_0000
  const I64_MAX: int := 0x7FFF_FFFF_FFFF_FFFF

  predicate InI64(n: int) { I64_MIN <= n <= I64_MAX }

  type UuidBytes = b: seq<Byte> | |b| == 16 witness seq(16, _ => 0)

  datatype Identity = User(partnerId: UuidBytes) | Guest(guestId: UuidBytes)

  type Mac = (seq<Byte>, seq<Byte>) -> seq<Byte>

  // ---- identity keys ----

  /** The hyphenated spelling of a uuid. */
  function Hyphenated(id: UuidBytes): string {
    var h := Print(id);
    h[..8] + "-" + h[8..12] + "-" + h[12..16] + "-" + h[16..20] + "-" + h[20..]
  }

  function IdentityKey(identity: Identity): string {
    match identity
    case User(partnerId) => "p:" + Hyphenated(partnerId)
    case Guest(guestId) => "g:" + Hyphenated(guestId)
  }

  lemma HyphenatedIsInjective(a: UuidBytes, b: UuidBytes)
    requires Hyphenated(a) == Hyphenated(b)
    ensures a == b
  {
    var s, h, k := Hyphenated(a), Print(a), Print(b);
    assert |h| == 32 && |k| == 32;
    assert h[..8] == s[..8] == k[..8];
    assert h[8..12] == s[9..13] == k[8..12];
    assert h[12..16] == s[14..18] == k[12..16];
    assert h[16..20] == s[19..23] == k[16..20];
    assert h[20..] == s[24..] == k[20..];
    assert h == h[..8] + h[8..12] + h[12..16] + h[16..20] + h[20..];
    assert k == k[..8] + k[8..12] + k[12..16] + k[16..20] + k[20..];
    PrintIsInjective(a, b);
  }

  /** Two identities never share a key, a user and a guest of the same uuid included. */
  lemma IdentityKeyIsInjective(a: Identity, b: Identity)
    requires IdentityKey(a) == IdentityKey(b)
    ensures a == b
  {
    var s, t := IdentityKey(a), IdentityKey(b);
    assert s[0] == if a.User? then 'p' else 'g';
    assert t[0] == if b.User? then 'p' else 'g';
    match a
    case User(x) =>
      assert s[2..] == Hyphenated(x) && t[2..] == Hyphenated(b.partnerId);
      HyphenatedIsInjective(x, b.partnerId);
    case Guest(x) =>
      assert s[2..] == Hyphenated(x) && t[2..] == Hyphenated(b.guestId);
      HyphenatedIsInjective(x, b.guestId);
  }

  // ---- octets and decimals ----

  /** The octets of a text; the texts here are ASCII. */
  function Octets(s: string): seq<Byte> {
    seq(|s|, i requires 0 <= i < |s| => if s[i] as int < 256 then s[i] as int else 0)
  }

  predicate Ascii(s: string) { forall c :: c in s ==> c as int < 128 }

  lemma OctetsAreInjective(a: string, b: string)
    requires Ascii(a) && Ascii(b) && Octets(a) == Octets(b)
    ensures a == b
  {
    assert |Octets(a)| == |Octets(b)|;
    forall i | 0 <= i < |a|
      ensures a[i] == b[i]
    {
      assert a[i] in a && b[i] in b;
      assert Octets(a)[i] == Octets(b)[i];
    }
  }

  lemma KeyIsAscii(identity: Identity)
    ensures Ascii(IdentityKey(identity))
  {
    var id := if identity.User? then identity.partnerId else identity.guestId;
    HyphenatedIsKeyText(id);
    KeyTextIsAscii(Hyphenated(id));
    AsciiConcat(if identity.User? then "p:" else "g:", Hyphenated(id));
  }

  /** Hex digits and hyphens only. */
  predicate KeyText(s: string) { forall c :: c in s ==> HexDigit(c) || c == '-' }

  lemma KeyTextIsAscii(s: string)
    requires KeyText(s)
    ensures Ascii(s)
  {
  }

  lemma HyphenatedIsKeyText(id: UuidBytes)
    ensures KeyText(Hyphenated(id)) && |Hyphenated(id)| == 36
  {
    var h := Print(id);
    PrintIsHex(id);
    SliceIsKeyText(h, 0, 8);
    SliceIsKeyText(h, 8, 12);
    SliceIsKeyText(h, 12, 16);
    SliceIsKeyText(h, 16, 20);
    SliceIsKeyText(h, 20, 32);
    assert h[..8] == h[0..8] && h[20..] == h[20..32];
    PiecesAreKeyText(h[..8], h[8..12], h[12..16], h[16..20], h[20..]);
  }

  lemma SliceIsKeyText(s: string, lo: nat, hi: nat)
    requires KeyText(s) && lo <= hi <= |s|
    ensures KeyText(s[lo..hi])
  {
  }

  lemma PiecesAreKeyText(a: string, b: string, c: string, d: string, e: string)
    requires KeyText(a) && KeyText(b) && KeyText(c) && KeyText(d) && KeyText(e)
    ensures KeyText(a + "-" + b + "-" + c + "-" + d + "-" + e)
  {
  }

  lemma AsciiConcat(a: string, b: string)
    requires Ascii(a) && Ascii(b)
    ensures Ascii(a + b)
  {
  }

  lemma PrintIsHex(bytes: seq<Byte>)
    ensures forall c :: c in Print(bytes) ==> HexDigit(c)
  {
  }

  function PrintNat(n: nat): seq<Byte> {
    (if n < 10 then [] else PrintNat(n / 10)) + [48 + n % 10]
  }

  function PrintInt(n: int): seq<Byte> {
    if n < 0 then [45] + PrintNat(-n) else PrintNat(n)
  }

  predicate AllDigits(b: seq<Byte>) { forall i :: 0 <= i < |b| ==> 48 <= b[i] <= 57 }

  predicate Digits(b: seq<Byte>) { b != [] && AllDigits(b) }

  function NatValue(b: seq<Byte>): (v: int)
    requires AllDigits(b)
    ensures v >= 0
  {
    if b == [] then 0 else NatValue(b[..|b| - 1]) * 10 + (b[|b| - 1] as int - 48)
  }

  /** Decimal parsing of a signed 64-bit number: an optional sign, then digits, within range. */
  function ParseI64(b: seq<Byte>): (r: Option<int>)
    ensures r.Some? ==> InI64(r.value)
  {
    if b == [] then None
    else
      var digits := if b[0] == 43 || b[0] == 45 then b[1..] else b;
      if !Digits(digits) then None
      else
        var v: int := if b[0] == 45 then -NatValue(digits) else NatValue(digits);
        if InI64(v) then Some(v) else None
  }

  predicate Denotes(digits: seq<Byte>, n: int) { AllDigits(digits) && NatValue(digits) == n }

  lemma {:induction false} PrintDenotes(n: nat)
    ensures Denotes(PrintNat(n), n)
  {
    PrintIsLastDigit(n);
    if n >= 10 {
      PrintDenotes(n / 10);
      OneMoreDigit(PrintNat(n / 10), n / 10, n % 10);
    } else {
      OneMoreDigit([], 0, n);
    }
  }

  lemma PrintIsLastDigit(n: nat)
    ensures PrintNat(n) == (if n < 10 then [] else PrintNat(n / 10)) + [48 + n % 10]
    ensures n == n / 10 * 10 + n % 10
  {
  }

  lemma OneMoreDigit(digits: seq<Byte>, n: int, d: int)
    requires Denotes(digits, n) && 0 <= d < 10
    ensures Denotes(digits + [48 + d], n * 10 + d)
  {
    assert (digits + [48 + d])[..|digits|] == digits;
  }

  lemma NatValueOfPrint(n: nat)
    ensures Digits(PrintNat(n)) && NatValue(PrintNat(n)) == n
  {
    PrintDenotes(n);
  }

  lemma ParseSigned(digits: seq<Byte>)
    requires Digits(digits) && InI64(0 - NatValue(digits))
    ensures ParseI64([45] + digits) == Some(0 - NatValue(digits))
  {
  }

  lemma ParseUnsigned(digits: seq<Byte>)
    requires Digits(digits) && InI64(NatValue(digits))
    ensures ParseI64(digits) == Some(NatValue(digits))
  {
  }

  lemma ParseOfPrint(n: int)
    requires InI64(n)
    ensures ParseI64(PrintInt(n)) == Some(n)
  {
    if n < 0 {
      NatValueOfPrint(-n);
      ParseSigned(PrintNat(-n));
    } else {
      NatValueOfPrint(n);
      ParseUnsigned(PrintNat(n));
    }
  }

  // ---- the token ----

  /** The identity's key as the bytes a token carries. */
  function Key(identity: Identity): seq<Byte> { Octets(IdentityKey(identity)) }

  /** What the MAC signs: the key, a bar, the expiry in its canonical decimal form. */
  function SignedPayload(key: seq<Byte>, exp: int): seq<Byte> { key + [124] + PrintInt(exp) }

  function Token(key: seq<Byte>, exp: seq<Byte>, sig: seq<Byte>): string {
    Encode(key) + "." + Encode(exp) + "." + Encode(sig)
  }

  function Minted(mac: Mac, secret: seq<Byte>, key: seq<Byte>, exp: int): string {
    Token(key, PrintInt(exp), mac(secret, SignedPayload(key, exp)))
  }

  function MintSessionToken(mac: Mac, secret: seq<Byte>, identity: Identity, now: int, ttl: int): string
    requires InI64(now + ttl)
  {
    Minted(mac, secret, Key(identity), now + ttl)
  }

  /** The tokens an identity may present at a given time: its key, some decimal spelling of a time
      not yet past, and the MAC of key and time. */
  ghost predicate Accepted(mac: Mac, secret: seq<Byte>, token: string, identity: Identity, now: int) {
    Passes(mac, secret, token, Key(identity), now)
  }

  ghost predicate Passes(mac: Mac, secret: seq<Byte>, token: string, key: seq<Byte>, now: int) {
    exists text :: PassesWith(mac, secret, token, key, now, text)
  }

  predicate PassesWith(
      mac: Mac, secret: seq<Byte>, token: string, key: seq<Byte>, now: int, text: seq<Byte>) {
    var exp := ParseI64(text);
    && exp.Some? && now <= exp.value && token == Token(key, text, mac(secret, SignedPayload(key, exp.value)))
  }

  lemma {:induction false} JoinOfSplit(s: string, sep: char)
    ensures Recipients.Join(Recipients.Split(s, sep), [sep]) == s
  {
    if s != "" {
      var init, c := s[..|s| - 1], s[|s| - 1];
      JoinOfSplit(init, sep);
      var pieces := Recipients.Split(init, sep);
      if c == sep {
        assert (pieces + [""])[..|pieces|] == pieces;
        assert Recipients.Join(pieces, [sep]) + [sep] + "" == Recipients.Join(pieces, [sep]) + [sep];
      } else {
        JoinGrow(pieces, [sep], [c]);
      }
      assert s == init + [c];
    }
  }

  lemma JoinGrow(pieces: seq<string>, sep: string, t: string)
    requires pieces != []
    ensures Recipients.Join(Recipients.Grow(pieces, t), sep) == Recipients.Join(pieces, sep) + t
  {
  }

  lemma NoDot(b: seq<Byte>)
    ensures '.' !in Encode(b)
  {
  }

  lemma SplitAppend(s: string, sep: char, t: string)
    requires sep !in t
    ensures Recipients.Split(s + [sep] + t, sep) == Recipients.Split(s, sep) + [t]
  {
    Recipients.SplitStep(s, sep, sep);
    Recipients.SplitTail(s + [sep], sep, t);
    assert "" + t == t;
  }

  /** A dot never occurs inside an encoded part, so a token splits into exactly its three parts. */
  lemma TokenSplits(key: seq<Byte>, exp: seq<Byte>, sig: seq<Byte>)
    ensures Recipients.Split(Token(key, exp, sig), '.') == [Encode(key), Encode(exp), Encode(sig)]
  {
    NoDot(key);
    NoDot(exp);
    NoDot(sig);
    ThreePieces(Encode(key), Encode(exp), Encode(sig));
  }

  lemma ThreePieces(a: string, b: string, c: string)
    requires '.' !in a && '.' !in b && '.' !in c
    ensures Recipients.Split(a + "." + b + "." + c, '.') == [a, b, c]
  {
    Recipients.SplitTail("", '.', a);
    assert "" + a == a;
    assert Recipients.Split(a, '.') == [a];
    SplitAppend(a, '.', b);
    SplitAppend(a + "." + b, '.', c);
  }

  lemma TokenIsInjective(k1: seq<Byte>, e1: seq<Byte>, s1: seq<Byte>, k2: seq<Byte>, e2: seq<Byte>, s2: seq<Byte>)
    requires Token(k1, e1, s1) == Token(k2, e2, s2)
    ensures k1 == k2 && e1 == e2 && s1 == s2
  {
    TokenSplits(k1, e1, s1);
    TokenSplits(k2, e2, s2);
    var parts := [Encode(k1), Encode(e1), Encode(s1)];
    assert parts[0] == Encode(k2) && parts[1] == Encode(e2) && parts[2] == Encode(s2);
    EncodeIsInjective(k1, k2);
    EncodeIsInjective(e1, e2);
    EncodeIsInjective(s1, s2);
  }

  lemma ThreePartsMakeTheToken(token: string, key: seq<Byte>, exp: seq<Byte>, sig: seq<Byte>)
    requires Recipients.Split(token, '.') == [Encode(key), Encode(exp), Encode(sig)]
    ensures token == Token(key, exp, sig)
  {
    JoinOfSplit(token, '.');
    TokenSplits(key, exp, sig);
    JoinOfSplit(Token(key, exp, sig), '.');
  }

  /** The checks of the verifier, in its order. */
  predicate PartsCheck(mac: Mac, secret: seq<Byte>, parts: seq<string>, key: seq<Byte>, now: int) {
    && |parts| == 3
    && Decode(parts[0]) == Some(key)
    && Decode(parts[1]).Some? && Decode(parts[2]).Some?
    && (var exp := ParseI64(Decode(parts[1]).value);
        exp.Some? && now <= exp.value && Decode(parts[2]).value == mac(secret, SignedPayload(key, exp.value)))
  }

  lemma PassingPassesChecks(mac: Mac, secret: seq<Byte>, token: string, key: seq<Byte>, now: int, text: seq<Byte>)
    requires PassesWith(mac, secret, token, key, now, text)
    ensures PartsCheck(mac, secret, Recipients.Split(token, '.'), key, now)
  {
    var sig := mac(secret, SignedPayload(key, ParseI64(text).value));
    TokenSplits(key, text, sig);
    DecodeOfEncode(key);
    DecodeOfEncode(text);
    DecodeOfEncode(sig);
  }

  lemma PartsAreEncodings(parts: seq<string>, key: seq<Byte>, text: seq<Byte>, sig: seq<Byte>)
    requires |parts| == 3
    requires Decode(parts[0]) == Some(key) && Decode(parts[1]) == Some(text) && Decode(parts[2]) == Some(sig)
    ensures parts == [Encode(key), Encode(text), Encode(sig)]
  {
    EncodeOfDecode(parts[0]);
    EncodeOfDecode(parts[1]);
    EncodeOfDecode(parts[2]);
  }

  lemma ChecksMeanPassing(mac: Mac, secret: seq<Byte>, token: string, key: seq<Byte>, now: int)
    requires PartsCheck(mac, secret, Recipients.Split(token, '.'), key, now)
    ensures Passes(mac, secret, token, key, now)
  {
    var parts := Recipients.Split(token, '.');
    var text, sig := Decode(parts[1]).value, Decode(parts[2]).value;
    PartsAreEncodings(parts, key, text, sig);
    ThreePartsMakeTheToken(token, key, text, sig);
    assert PassesWith(mac, secret, token, key, now, text);
  }

  lemma AcceptedIffPartsCheck(mac: Mac, secret: seq<Byte>, token: string, identity: Identity, now: int)
    ensures Accepted(mac, secret, token, identity, now) <==>
      PartsCheck(mac, secret, Recipients.Split(token, '.'), Key(identity), now)
  {
    PassesIffPartsCheck(mac, secret, token, Key(identity), now);
  }

  lemma PassesIffPartsCheck(mac: Mac, secret: seq<Byte>, token: string, key: seq<Byte>, now: int)
    ensures Passes(mac, secret, token, key, now) <==>
      PartsCheck(mac, secret, Recipients.Split(token, '.'), key, now)
  {
    if text :| PassesWith(mac, secret, token, key, now, text) {
      PassingPassesChecks(mac, secret, token, key, now, text);
    }
    if PartsCheck(mac, secret, Recipients.Split(token, '.'), key, now) {
      ChecksMeanPassing(mac, secret, token, key, now);
    }
  }

  /** Accepts exactly the tokens this identity may present now; every malformed input is refused. */
  method VerifySessionToken(mac: Mac, secret: seq<Byte>, token: string, identity: Identity, now: int) returns (ok: bool)
    ensures ok <==> Accepted(mac, secret, token, identity, now)
  {
    AcceptedIffPartsCheck(mac, secret, token, identity, now);
    var parts := Recipients.Split(token, '.');
    if |parts| != 3 { return false; }
    var idRaw, expRaw, sigGiven := Decode(parts[0]), Decode(parts[1]), Decode(parts[2]);
    if idRaw.None? || expRaw.None? || sigGiven.None? { return false; }
    if idRaw.value != Key(identity) { return false; }
    var exp := ParseI64(expRaw.value);
    if exp.None? || now > exp.value { return false; }
    var expected := mac(secret, SignedPayload(Key(identity), exp.value));
    ok := ConstEq(expected, sigGiven.value);
  }

  // ---- what a minted token proves ----

  /** A token passes for no key and at no time but those written in it. */
  lemma PassesAsWritten(
      mac: Mac, secret: seq<Byte>, token: string, key: seq<Byte>, text: seq<Byte>, sig: seq<Byte>,
      other: seq<Byte>, later: int)
    requires token == Token(key, text, sig) && Passes(mac, secret, token, other, later)
    ensures key == other && ParseI64(text).Some? && later <= ParseI64(text).value
  {
    var spelled :| PassesWith(mac, secret, token, other, later, spelled);
    TokenIsInjective(key, text, sig, other, spelled, mac(secret, SignedPayload(other, ParseI64(spelled).value)));
  }

  lemma MintedPassesIff(mac: Mac, secret: seq<Byte>, key: seq<Byte>, exp: int, other: seq<Byte>, later: int)
    requires InI64(exp)
    ensures Passes(mac, secret, Minted(mac, secret, key, exp), other, later) <==> key == other && later <= exp
  {
    var token, text, sig := Minted(mac, secret, key, exp), PrintInt(exp), mac(secret, SignedPayload(key, exp));
    ParseOfPrint(exp);
    if Passes(mac, secret, token, other, later) {
      PassesAsWritten(mac, secret, token, key, text, sig, other, later);
    }
    if key == other && later <= exp {
      assert PassesWith(mac, secret, token, key, later, text);
    }
  }

  /** A minted proof is accepted for its own identity exactly while the time is at most its expiry. */
  lemma MintedIsAcceptedUntilExpiry(mac: Mac, secret: seq<Byte>, identity: Identity, now: int, ttl: int, later: int)
    requires InI64(now + ttl)
    ensures Accepted(mac, secret, MintSessionToken(mac, secret, identity, now, ttl), identity, later) <==>
      later <= now + ttl
  {
    MintedPassesIff(mac, secret, Key(identity), now + ttl, Key(identity), later);
  }

  /** No other identity is ever accepted with it. */
  lemma MintedIsBoundToItsIdentity(mac: Mac, secret: seq<Byte>, identity: Identity, other: Identity, now: int,
      ttl: int, later: int)
    requires InI64(now + ttl) && other != identity
    ensures !Accepted(mac, secret, MintSessionToken(mac, secret, identity, now, ttl), other, later)
  {
    if Accepted(mac, secret, MintSessionToken(mac, secret, identity, now, ttl), other, later) {
      PassesForOneIdentity(mac, secret, identity, now + ttl, other, later);
    }
  }

  lemma PassesForOneIdentity(
      mac: Mac, secret: seq<Byte>, identity: Identity, exp: int, other: Identity, later: int)
    requires InI64(exp) && Passes(mac, secret, Minted(mac, secret, Key(identity), exp), Key(other), later)
    ensures identity == other
  {
    MintedPassesIff(mac, secret, Key(identity), exp, Key(other), later);
    KeyIsInjective(identity, other);
  }

  lemma KeyIsInjective(a: Identity, b: Identity)
    requires Key(a) == Key(b)
    ensures a == b
  {
    KeyIsAscii(a);
    KeyIsAscii(b);
    OctetsAreInjective(IdentityKey(a), IdentityKey(b));
    IdentityKeyIsInjective(a, b);
  }
}

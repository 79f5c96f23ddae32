/** Escaping of addresses reflected into the warning body (src/application/service/relay_b7.rs). */
module HtmlEscape {
  import opened Prelude

  /** Every occurrence of `c` replaced by `by`, left to right. */
  function Replace(s: string, c: char, to: string): string {
    if s == "" then "" else (if s[0] == c then to else [s[0]]) + Replace(s[1..], c, to)
  }

  const AMP: string := "&amp;"
  const LT: string := "&lt;"
  const GT: string := "&gt;"
  const QUOT: string := "&quot;"
  const APOS: string := "&#x27;"

  /** Five passes, one after the other. */
  function HtmlEscape(s: string): string {
    Replace(Replace(Replace(Replace(Replace(s, '&', AMP), '<', LT), '>', GT), '"', QUOT), '\'', APOS)
  }

  function Entity(c: char): string {
    if c == '&' then AMP
    else if c == '<' then LT
    else if c == '>' then GT
    else if c == '"' then QUOT
    else if c == '\'' then APOS
    else [c]
  }

  /** Every character substituted at once. */
  function Substituted(s: string): string {
    if s == "" then "" else Entity(s[0]) + Substituted(s[1..])
  }

  /** A reader of the escaped text: entities back to characters, left to right. */
  function Unescape(s: string): string
    decreases |s|
  {
    if s == "" then ""
    else if AMP <= s then ['&'] + Unescape(s[5..])
    else if LT <= s then ['<'] + Unescape(s[4..])
    else if GT <= s then ['>'] + Unescape(s[4..])
    else if QUOT <= s then ['"'] + Unescape(s[6..])
    else if APOS <= s then ['\''] + Unescape(s[6..])
    else [s[0]] + Unescape(s[1..])
  }

  lemma {:induction false} ReplaceConcat(a: string, b: string, c: char, to: string)
    ensures Replace(a + b, c, to) == Replace(a, c, to) + Replace(b, c, to)
  {
    if a == "" {
      assert a + b == b;
    } else {
      ReplaceConcat(a[1..], b, c, to);
      assert (a + b)[1..] == a[1..] + b && (a + b)[0] == a[0];
      Associate(if a[0] == c then to else [a[0]], Replace(a[1..], c, to), Replace(b, c, to));
    }
  }

  lemma {:induction false} ReplaceAbsent(s: string, c: char, to: string)
    requires c !in s
    ensures Replace(s, c, to) == s
  {
    if s != "" {
      ReplaceAbsent(s[1..], c, to);
      assert s == [s[0]] + s[1..];
    }
  }

  lemma EscapeConcat(a: string, b: string)
    ensures HtmlEscape(a + b) == HtmlEscape(a) + HtmlEscape(b)
  {
    ReplaceConcat(a, b, '&', AMP);
    var a1, b1 := Replace(a, '&', AMP), Replace(b, '&', AMP);
    ReplaceConcat(a1, b1, '<', LT);
    var a2, b2 := Replace(a1, '<', LT), Replace(b1, '<', LT);
    ReplaceConcat(a2, b2, '>', GT);
    var a3, b3 := Replace(a2, '>', GT), Replace(b2, '>', GT);
    ReplaceConcat(a3, b3, '"', QUOT);
    ReplaceConcat(Replace(a3, '"', QUOT), Replace(b3, '"', QUOT), '\'', APOS);
  }

  lemma ReplaceOne(x: char, c: char, to: string)
    ensures Replace([x], c, to) == if x == c then to else [x]
  {
  }

  /** The later passes leave a text without their characters alone. */
  lemma LastTwoPassesIgnore(s: string)
    requires '"' !in s && '\'' !in s
    ensures Replace(Replace(s, '"', QUOT), '\'', APOS) == s
  {
    ReplaceAbsent(s, '"', QUOT);
    ReplaceAbsent(s, '\'', APOS);
  }

  lemma LastThreePassesIgnore(s: string)
    requires '>' !in s && '"' !in s && '\'' !in s
    ensures Replace(Replace(Replace(s, '>', GT), '"', QUOT), '\'', APOS) == s
  {
    ReplaceAbsent(s, '>', GT);
    LastTwoPassesIgnore(s);
  }

  lemma LaterPassesIgnore(s: string)
    requires '<' !in s && '>' !in s && '"' !in s && '\'' !in s
    ensures Replace(Replace(Replace(Replace(s, '<', LT), '>', GT), '"', QUOT), '\'', APOS) == s
  {
    ReplaceAbsent(s, '<', LT);
    LastThreePassesIgnore(s);
  }

  lemma EscapeAmp()
    ensures HtmlEscape(['&']) == AMP
  {
    ReplaceOne('&', '&', AMP);
    LaterPassesIgnore(AMP);
  }

  lemma EscapeLt()
    ensures HtmlEscape(['<']) == LT
  {
    ReplaceOne('<', '&', AMP);
    ReplaceOne('<', '<', LT);
    LastThreePassesIgnore(LT);
  }

  lemma EscapeGt()
    ensures HtmlEscape(['>']) == GT
  {
    ReplaceOne('>', '&', AMP);
    ReplaceOne('>', '<', LT);
    ReplaceOne('>', '>', GT);
    LastTwoPassesIgnore(GT);
  }

  lemma EscapeQuot()
    ensures HtmlEscape(['"']) == QUOT
  {
    ReplaceOne('"', '&', AMP);
    ReplaceOne('"', '<', LT);
    ReplaceOne('"', '>', GT);
    ReplaceOne('"', '"', QUOT);
    ReplaceAbsent(QUOT, '\'', APOS);
  }

  lemma EscapeOther(c: char)
    requires c != '&' && c != '<' && c != '>' && c != '"'
    ensures HtmlEscape([c]) == Entity(c)
  {
    ReplaceOne(c, '&', AMP);
    ReplaceOne(c, '<', LT);
    ReplaceOne(c, '>', GT);
    ReplaceOne(c, '"', QUOT);
    ReplaceOne(c, '\'', APOS);
  }

  /** No later pass touches what an earlier one wrote. */
  lemma EscapeOne(c: char)
    ensures HtmlEscape([c]) == Entity(c)
  {
    if c == '&' { EscapeAmp(); }
    else if c == '<' { EscapeLt(); }
    else if c == '>' { EscapeGt(); }
    else if c == '"' { EscapeQuot(); }
    else { EscapeOther(c); }
  }

  /** The five passes are one simultaneous substitution. */
  lemma {:induction false} PassesAreOneSubstitution(s: string)
    ensures HtmlEscape(s) == Substituted(s)
  {
    if s != "" {
      PassesAreOneSubstitution(s[1..]);
      EscapeOne(s[0]);
      EscapeConcat([s[0]], s[1..]);
      assert s == [s[0]] + s[1..];
    }
  }

  predicate Markup(c: char) { c == '<' || c == '>' || c == '"' || c == '\'' }

  lemma {:induction false} SubstitutedHasNoMarkup(s: string)
    ensures forall c :: c in Substituted(s) ==> !Markup(c)
  {
    if s != "" {
      SubstitutedHasNoMarkup(s[1..]);
      assert forall c :: c in Entity(s[0]) ==> !Markup(c);
    }
  }

  /** None of the four raw characters survives. */
  lemma EscapedHasNoMarkup(s: string)
    ensures forall c :: c in HtmlEscape(s) ==> !Markup(c)
  {
    PassesAreOneSubstitution(s);
    SubstitutedHasNoMarkup(s);
  }

  lemma UnescapeAmp(rest: string)
    ensures Unescape(AMP + rest) == ['&'] + Unescape(rest)
  {
    assert (AMP + rest)[5..] == rest;
  }

  lemma UnescapeLt(rest: string)
    ensures Unescape(LT + rest) == ['<'] + Unescape(rest)
  {
    assert (LT + rest)[1] == 'l' && (LT + rest)[4..] == rest;
  }

  lemma UnescapeGt(rest: string)
    ensures Unescape(GT + rest) == ['>'] + Unescape(rest)
  {
    assert (GT + rest)[1] == 'g' && (GT + rest)[4..] == rest;
  }

  lemma UnescapeQuot(rest: string)
    ensures Unescape(QUOT + rest) == ['"'] + Unescape(rest)
  {
    assert (QUOT + rest)[1] == 'q' && (QUOT + rest)[6..] == rest;
  }

  lemma UnescapeApos(rest: string)
    ensures Unescape(APOS + rest) == ['\''] + Unescape(rest)
  {
    assert (APOS + rest)[1] == '#' && (APOS + rest)[6..] == rest;
  }

  lemma UnescapePlain(c: char, rest: string)
    requires c != '&'
    ensures Unescape([c] + rest) == [c] + Unescape(rest)
  {
    assert ([c] + rest)[0] == c && ([c] + rest)[1..] == rest;
  }

  lemma UnescapeEntity(c: char, rest: string)
    ensures Unescape(Entity(c) + rest) == [c] + Unescape(rest)
  {
    if c == '&' { UnescapeAmp(rest); }
    else if c == '<' { UnescapeLt(rest); }
    else if c == '>' { UnescapeGt(rest); }
    else if c == '"' { UnescapeQuot(rest); }
    else if c == '\'' { UnescapeApos(rest); }
    else { UnescapePlain(c, rest); }
  }

  /** Reading the escaped text back gives the original, whatever it was. */
  lemma {:induction false} UnescapeOfEscape(s: string)
    ensures Unescape(HtmlEscape(s)) == s
  {
    PassesAreOneSubstitution(s);
    if s != "" {
      UnescapeOfEscape(s[1..]);
      PassesAreOneSubstitution(s[1..]);
      UnescapeEntity(s[0], Substituted(s[1..]));
    }
  }

  // ---- the warning body ----

  const BEFORE_PREVIOUS: string := "<p>Your account's email address was changed.</p><p>Previous address: <strong>"
  const BETWEEN: string := "</strong></p><p>New address: <strong>"
  const CLOSING: string := "</strong></p>"
  const ADVICE: string :=
    "<p>If you did not request this change, contact your administrator "
    + "immediately \U{2014} use a channel you already trust.</p>"

  function Fill(head: string, middle: string, tail: string, a: string, b: string): string {
    head + HtmlEscape(a) + middle + HtmlEscape(b) + tail
  }

  function SecurityBody(previousEmail: string, newEmail: string): string {
    Fill(BEFORE_PREVIOUS, BETWEEN, CLOSING + ADVICE, previousEmail, newEmail)
  }

  /** The text before the first tag. */
  function Lead(s: string): string {
    if s == "" || s[0] == '<' then "" else [s[0]] + Lead(s[1..])
  }

  lemma {:induction false} LeadStopsAtTag(a: string, u: string)
    requires '<' !in a && u != "" && u[0] == '<'
    ensures Lead(a + u) == a
  {
    if a == "" {
      assert a + u == u;
    } else {
      LeadStopsAtTag(a[1..], u);
      assert (a + u)[1..] == a[1..] + u;
    }
  }

  lemma SamePrefix(a: string, u: string, v: string)
    requires a + u == a + v
    ensures u == v
  {
    assert u == (a + u)[|a|..] && v == (a + v)[|a|..];
  }

  /** Text without a tag, followed by a tag, is determined by the whole. */
  lemma CutAtTag(a: string, b: string, u: string, v: string)
    requires '<' !in a && '<' !in b && u != "" && v != "" && u[0] == '<' == v[0]
    requires a + u == b + v
    ensures a == b && u == v
  {
    LeadStopsAtTag(a, u);
    LeadStopsAtTag(b, v);
    SamePrefix(a, u, v);
  }

  lemma FillInPieces(head: string, middle: string, tail: string, a: string, b: string)
    ensures Fill(head, middle, tail, a, b) == head + (HtmlEscape(a) + (middle + (HtmlEscape(b) + tail)))
  {
  }

  /** A template whose later parts start with a tag tells both texts apart. */
  lemma FillIsInjective(head: string, middle: string, tail: string, a: string, b: string, a': string, b': string)
    requires middle != "" && tail != "" && middle[0] == '<' == tail[0]
    requires Fill(head, middle, tail, a, b) == Fill(head, middle, tail, a', b')
    ensures a == a' && b == b'
  {
    FillInPieces(head, middle, tail, a, b);
    FillInPieces(head, middle, tail, a', b');
    EscapedHasNoMarkup(a);
    EscapedHasNoMarkup(b);
    EscapedHasNoMarkup(a');
    EscapedHasNoMarkup(b');
    var rest, rest' := HtmlEscape(b) + tail, HtmlEscape(b') + tail;
    SamePrefix(head, HtmlEscape(a) + (middle + rest), HtmlEscape(a') + (middle + rest'));
    CutAtTag(HtmlEscape(a), HtmlEscape(a'), middle + rest, middle + rest');
    SamePrefix(middle, rest, rest');
    CutAtTag(HtmlEscape(b), HtmlEscape(b'), tail, tail);
    UnescapeOfEscape(a);
    UnescapeOfEscape(a');
    UnescapeOfEscape(b);
    UnescapeOfEscape(b');
  }

  /** No address can imitate the template: the body determines both addresses. */
  lemma BodyTellsAddressesApart(p: string, n: string, p': string, n': string)
    requires SecurityBody(p, n) == SecurityBody(p', n')
    ensures p == p' && n == n'
  {
    assert BETWEEN[0] == '<' && CLOSING[0] == '<';
    assert (CLOSING + ADVICE)[0] == CLOSING[0];
    FillIsInjective(BEFORE_PREVIOUS, BETWEEN, CLOSING + ADVICE, p, n, p', n');
  }
}

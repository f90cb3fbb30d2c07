/** Rewriting GitHub close directives in commit messages.

    The pattern is a close keyword standing as a whole word, an optional colon, white space,
    then `#` and digits; case is ignored. It is modelled for ASCII text. */
module CommitRefs {
  import opened Text

  predicate IsDigit(c: char) { '0' <= c <= '9' }

  predicate IsWord(c: char) {
    IsDigit(c) || 'a' <= c <= 'z' || 'A' <= c <= 'Z' || c == '_'
  }

  /** `\s` of the pattern. */
  predicate IsGap(c: char) {
    c == '\t' || c == '\n' || c == '\U{0C}' || c == '\r' || c == ' '
  }

  /** The character classes of the pattern: `\w`, `\s` and `\d`. */
  datatype Class = Word | Gap | Digit {
    predicate Has(c: char) {
      match this
      case Word => IsWord(c)
      case Gap => IsGap(c)
      case Digit => IsDigit(c)
    }
  }

  const KEYWORDS: seq<string> :=
    ["close", "closes", "closed", "fix", "fixes", "fixed", "resolve", "resolves", "resolved"]

  predicate IsOneOf(word: string, list: seq<string>) {
    list != [] && (word == list[0] || IsOneOf(word, list[1..]))
  }

  predicate IsKeyword(word: string) { IsOneOf(ToLowerAscii(word), KEYWORDS) }

  /** End of the run of characters satisfying `p` that starts at `i`. */
  function RunEnd(s: string, i: nat, kind: Class): (e: nat)
    requires i <= |s|
    ensures i <= e <= |s|
    ensures forall k | i <= k < e :: kind.Has(s[k])
    ensures e < |s| ==> !kind.Has(s[e])
    decreases |s| - i
  {
    if i == |s| || !kind.Has(s[i]) then i else RunEnd(s, i + 1, kind)
  }

  /** A directive at the start of a text: where its word ends, where its white space starts,
      where its hash sign is and where its digits end. */
  datatype Directive = Directive(word: nat, gap: nat, hash: nat, end: nat)

  /** What the pattern says of a directive, part by part; `\d+` is greedy. */
  ghost predicate Describes(s: string, d: Directive) {
    && 0 < d.word <= d.gap < d.hash < d.end - 1 < |s|
    && (forall k | 0 <= k < d.word :: IsWord(s[k])) && !IsWord(s[d.word])
    && IsKeyword(s[..d.word])
    && d.gap == (if s[d.word] == ':' then d.word + 1 else d.word)
    && (forall k | d.gap <= k < d.hash :: IsGap(s[k]))
    && s[d.hash] == '#'
    && (forall k | d.hash < k < d.end :: IsDigit(s[k]))
    && (d.end < |s| ==> !IsDigit(s[d.end]))
  }

  /** The leftmost-first match of the pattern at the start of `s`; `inWord` says whether the
      character before `s` is a word character, in which case no word starts here. */
  function Match(inWord: bool, s: string): (d: Option<Directive>)
    ensures d.Some? ==> !inWord && Describes(s, d.value)
  {
    var word := RunEnd(s, 0, Word);
    if inWord || word == 0 || word == |s| || !IsKeyword(s[..word]) then None
    else
      var gap := if s[word] == ':' then word + 1 else word;
      var hash := RunEnd(s, gap, Gap);
      if hash == gap || hash == |s| || s[hash] != '#' then None
      else
        var end := RunEnd(s, hash + 1, Digit);
        if end == hash + 1 then None else Some(Directive(word, gap, hash, end))
  }

  lemma RunEndIs(s: string, i: nat, kind: Class, e: nat)
    requires i <= e <= |s| && (forall k | i <= k < e :: kind.Has(s[k])) && (e < |s| ==> !kind.Has(s[e]))
    ensures RunEnd(s, i, kind) == e
  {
  }

  /** The matcher finds every directive the pattern describes. */
  lemma MatchFinds(s: string, d: Directive)
    requires Describes(s, d)
    ensures Match(false, s) == Some(d)
  {
    WordEnds(s, d);
    GapEnds(s, d);
    DigitsEnd(s, d);
  }

  lemma WordEnds(s: string, d: Directive)
    requires Describes(s, d)
    ensures RunEnd(s, 0, Word) == d.word
  {
    RunEndIs(s, 0, Word, d.word);
  }

  lemma GapEnds(s: string, d: Directive)
    requires Describes(s, d)
    ensures RunEnd(s, d.gap, Gap) == d.hash
  {
    RunEndIs(s, d.gap, Gap, d.hash);
  }

  lemma DigitsEnd(s: string, d: Directive)
    requires Describes(s, d)
    ensures RunEnd(s, d.hash + 1, Digit) == d.end
  {
    RunEndIs(s, d.hash + 1, Digit, d.end);
  }

  function Number(s: string, d: Directive): string
    requires d.hash < d.end <= |s|
  {
    s[d.hash + 1..d.end]
  }

  /** Scan from left to right; each match is replaced, everything else is copied. */
  function Rewrite(inWord: bool, s: string): string
    decreases |s|
  {
    if s == "" then ""
    else
      match Match(inWord, s)
      case Some(d) => "Refs #" + Number(s, d) + Rewrite(true, s[d.end..])
      case None => [s[0]] + Rewrite(IsWord(s[0]), s[1..])
  }

  function NeutralizeCloseDirectives(s: string): string { Rewrite(false, s) }

  /** No position of the text starts a directive. */
  predicate DirectiveFree(inWord: bool, s: string)
    decreases |s|
  {
    s == "" || (Match(inWord, s).None? && DirectiveFree(IsWord(s[0]), s[1..]))
  }

  // ---- No directive survives or arises ----

  predicate StartsLikeKeyword(c: char) { c == 'c' || c == 'f' || c == 'r' }

  /** What all keywords have in common. */
  predicate LooksLikeKeyword(w: string) { |w| > 2 && StartsLikeKeyword(w[0]) && w[2] != 'f' }

  lemma {:induction false} OneOfLooks(word: string, list: seq<string>)
    requires IsOneOf(word, list)
    requires forall i | 0 <= i < |list| :: LooksLikeKeyword(list[i])
    ensures LooksLikeKeyword(word)
  {
    if word != list[0] {
      OneOfLooks(word, list[1..]);
    }
  }

  lemma KeywordLooks(s: string)
    requires IsKeyword(s)
    ensures |s| > 2 && StartsLikeKeyword(LowerAscii(s[0])) && LowerAscii(s[2]) != 'f'
  {
    OneOfLooks(ToLowerAscii(s), KEYWORDS);
  }

  lemma NoMatchAt(inWord: bool, s: string)
    requires s != "" && !StartsLikeKeyword(LowerAscii(s[0]))
    ensures Match(inWord, s).None?
  {
    var word := RunEnd(s, 0, Word);
    if word > 0 && IsKeyword(s[..word]) {
      KeywordLooks(s[..word]);
    }
  }

  /** Whether a directive starts a text depends on its characters up to the first digit. */
  lemma MatchIsLocal(t: string, d: Directive, s: string)
    requires Describes(t, d) && d.hash + 2 <= |s| && s[..d.hash + 2] == t[..d.hash + 2]
    ensures Match(false, s).Some?
  {
    assert forall k | 0 <= k < d.hash + 2 :: s[k] == s[..d.hash + 2][k] == t[..d.hash + 2][k] == t[k];
    assert s[..d.word] == t[..d.word];
    MatchFinds(s, d.(end := RunEnd(s, d.hash + 1, Digit)));
  }

  lemma ReplacementStartsWithR(inWord: bool, s: string)
    requires s != ""
    ensures Match(inWord, s).Some? ==> Rewrite(inWord, s) != "" && Rewrite(inWord, s)[0] == 'R' && !inWord
  {
  }

  /** A prefix of the output into which no replacement reaches was copied. */
  lemma {:induction false} CopiedPrefix(inWord: bool, s: string, n: nat)
    requires Match(inWord, s).None? && n <= |Rewrite(inWord, s)|
    requires forall j | 0 < j < n :: IsWord(Rewrite(inWord, s)[j - 1]) || Rewrite(inWord, s)[j] != 'R'
    ensures n <= |s| && s[..n] == Rewrite(inWord, s)[..n]
    decreases n
  {
    if n > 0 {
      var t, u := Rewrite(inWord, s), Rewrite(IsWord(s[0]), s[1..]);
      assert t == [s[0]] + u;
      if n > 1 {
        assert t[1] == u[0];
        assert IsWord(t[1 - 1]) || t[1] != 'R';
        ReplacementStartsWithR(IsWord(s[0]), s[1..]);
        forall j | 0 < j < n - 1 ensures IsWord(u[j - 1]) || u[j] != 'R' {
          assert u[j - 1] == t[j] && u[j] == t[j + 1];
        }
        CopiedPrefix(IsWord(s[0]), s[1..], n - 1);
        assert t[..n] == [s[0]] + u[..n - 1] && s[..n] == [s[0]] + s[1..][..n - 1];
      }
    }
  }

  lemma DirectiveHasNoLaterR(t: string, d: Directive)
    requires Describes(t, d)
    ensures forall j | 0 < j < d.hash + 2 :: IsWord(t[j - 1]) || t[j] != 'R'
  {
  }

  /** Copying a character cannot start a directive that was not there. */
  lemma CopyStaysUnmatched(inWord: bool, s: string)
    requires Match(inWord, s).None?
    ensures Match(inWord, Rewrite(inWord, s)).None?
  {
    var t := Rewrite(inWord, s);
    if Match(inWord, t).Some? {
      var d := Match(inWord, t).value;
      DirectiveHasNoLaterR(t, d);
      CopiedPrefix(inWord, s, d.hash + 2);
      MatchIsLocal(t, d, s);
      assert false;
    }
  }

  lemma {:induction false} DigitsStartNothing(inWord: bool, number: string, rest: string)
    requires number != "" && forall k | 0 <= k < |number| :: IsDigit(number[k])
    requires DirectiveFree(true, rest)
    ensures DirectiveFree(inWord, number + rest)
    decreases |number|
  {
    var t := number + rest;
    NoMatchAt(inWord, t);
    if |number| == 1 {
      assert t[1..] == rest;
    } else {
      DigitsStartNothing(true, number[1..], rest);
      assert t[1..] == number[1..] + rest;
    }
  }

  /** The replacement's own prefix neither is nor starts a directive. */
  lemma RefsPrefix(v: string)
    ensures DirectiveFree(false, "Refs #" + v) == DirectiveFree(false, v)
  {
    var t := "Refs #" + v;
    assert t[0] == 'R' && t[1] == 'e' && t[2] == 'f' && t[3] == 's' && t[4] == ' ' && t[5] == '#';
    RunEndIs(t, 0, Word, 4);
    if IsKeyword(t[..4]) {
      KeywordLooks(t[..4]);
    }
    assert t[1..][0] == 'e' && t[2..][0] == 'f' && t[3..][0] == 's' && t[4..][0] == ' ' && t[5..][0] == '#';
    assert t[1..][1..] == t[2..] && t[2..][1..] == t[3..] && t[3..][1..] == t[4..] && t[4..][1..] == t[5..];
    assert t[5..][1..] == v;
    NoMatchAt(false, t[5..]);
    NoMatchAt(true, t[4..]);
    assert DirectiveFree(false, t[5..]) == DirectiveFree(false, v);
    assert DirectiveFree(true, t[4..]) == DirectiveFree(false, t[5..]);
    assert DirectiveFree(true, t[3..]) == DirectiveFree(true, t[4..]);
    assert DirectiveFree(true, t[2..]) == DirectiveFree(true, t[3..]);
    assert DirectiveFree(true, t[1..]) == DirectiveFree(true, t[2..]);
  }

  lemma {:induction false} RewriteIsDirectiveFree(inWord: bool, s: string)
    ensures DirectiveFree(inWord, Rewrite(inWord, s))
    decreases |s|
  {
    if s != "" {
      var t := Rewrite(inWord, s);
      match Match(inWord, s)
      case None =>
        var u := Rewrite(IsWord(s[0]), s[1..]);
        RewriteIsDirectiveFree(IsWord(s[0]), s[1..]);
        CopyStaysUnmatched(inWord, s);
        assert t[1..] == u;
      case Some(d) =>
        RewriteIsDirectiveFree(true, s[d.end..]);
        ReplacementIsFree(s, d, Rewrite(true, s[d.end..]));
    }
  }

  lemma ReplacementIsFree(s: string, d: Directive, rest: string)
    requires Describes(s, d) && DirectiveFree(true, rest)
    ensures DirectiveFree(false, "Refs #" + Number(s, d) + rest)
  {
    var number := Number(s, d);
    NumberIsDigits(s, d);
    DigitsStartNothing(false, number, rest);
    RefsPrefix(number + rest);
    assert "Refs #" + number + rest == "Refs #" + (number + rest);
  }

  lemma NumberIsDigits(s: string, d: Directive)
    requires Describes(s, d)
    ensures Number(s, d) != "" && forall k | 0 <= k < |Number(s, d)| :: IsDigit(Number(s, d)[k])
    ensures forall k | 0 <= k < d.hash :: s[k] != '#'
  {
  }

  /** The neutralized text contains no close directive, not even across a replacement seam. */
  lemma NeutralizedHasNoDirective(s: string)
    ensures DirectiveFree(false, NeutralizeCloseDirectives(s))
  {
    RewriteIsDirectiveFree(false, s);
  }

  lemma {:induction false} FreeTextIsUnchanged(inWord: bool, s: string)
    requires DirectiveFree(inWord, s)
    ensures Rewrite(inWord, s) == s
    decreases |s|
  {
    if s != "" {
      FreeTextIsUnchanged(IsWord(s[0]), s[1..]);
    }
  }

  /** Exactly the texts without a directive are left as they are; so a second pass does nothing. */
  lemma NeutralizeFixpoints(s: string)
    ensures NeutralizeCloseDirectives(s) == s <==> DirectiveFree(false, s)
    ensures NeutralizeCloseDirectives(NeutralizeCloseDirectives(s)) == NeutralizeCloseDirectives(s)
  {
    NeutralizedHasNoDirective(s);
    FreeTextIsUnchanged(false, NeutralizeCloseDirectives(s));
    if DirectiveFree(false, s) {
      FreeTextIsUnchanged(false, s);
    }
  }

  // ---- What is kept ----

  /** A text cut into copied characters and directives. */
  datatype Segment = Copied(c: char) | Directed(text: string, number: string) {
    function Old(): string { if Copied? then [c] else text }
    function New(): string { if Copied? then [c] else "Refs #" + number }
  }

  function Segments(inWord: bool, s: string): seq<Segment>
    decreases |s|
  {
    if s == "" then []
    else
      match Match(inWord, s)
      case Some(d) => [Directed(s[..d.end], Number(s, d))] + Segments(true, s[d.end..])
      case None => [Copied(s[0])] + Segments(IsWord(s[0]), s[1..])
  }

  function Before(segments: seq<Segment>): string {
    if segments == [] then ""
    else segments[0].Old() + Before(segments[1..])
  }

  function Afterwards(segments: seq<Segment>): string {
    if segments == [] then ""
    else segments[0].New() + Afterwards(segments[1..])
  }

  /** The whole of `text` is one directive for issue `number`. */
  ghost predicate IsDirective(text: string, number: string) {
    exists d :: Describes(text, d) && d.end == |text| && Number(text, d) == number
  }

  lemma WholeDirective(s: string, d: Directive)
    requires Describes(s, d)
    ensures IsDirective(s[..d.end], Number(s, d))
  {
    var text := s[..d.end];
    assert text[..d.word] == s[..d.word];
    assert Describes(text, d) && Number(text, d) == Number(s, d);
  }

  lemma FirstSegment(x: Segment, rest: seq<Segment>)
    ensures Before([x] + rest) == x.Old() + Before(rest)
    ensures Afterwards([x] + rest) == x.New() + Afterwards(rest)
  {
    assert ([x] + rest)[1..] == rest;
  }

  lemma {:induction false} SegmentsSpell(inWord: bool, s: string)
    ensures Before(Segments(inWord, s)) == s
    decreases |s|
  {
    if s != "" {
      match Match(inWord, s)
      case None =>
        SegmentsSpell(IsWord(s[0]), s[1..]);
        FirstSegment(Copied(s[0]), Segments(IsWord(s[0]), s[1..]));
      case Some(d) =>
        SegmentsSpell(true, s[d.end..]);
        FirstSegment(Directed(s[..d.end], Number(s, d)), Segments(true, s[d.end..]));
    }
  }

  lemma {:induction false} SegmentsRewrite(inWord: bool, s: string)
    ensures Afterwards(Segments(inWord, s)) == Rewrite(inWord, s)
    decreases |s|
  {
    if s != "" {
      match Match(inWord, s)
      case None =>
        SegmentsRewrite(IsWord(s[0]), s[1..]);
        FirstSegment(Copied(s[0]), Segments(IsWord(s[0]), s[1..]));
      case Some(d) =>
        SegmentsRewrite(true, s[d.end..]);
        FirstSegment(Directed(s[..d.end], Number(s, d)), Segments(true, s[d.end..]));
    }
  }

  lemma {:induction false} SegmentsAreDirectives(inWord: bool, s: string, x: Segment)
    requires x in Segments(inWord, s) && x.Directed?
    ensures IsDirective(x.text, x.number)
    decreases |s|
  {
    if s != "" {
      match Match(inWord, s)
      case None => SegmentsAreDirectives(IsWord(s[0]), s[1..], x);
      case Some(d) =>
        WholeDirective(s, d);
        if x in Segments(true, s[d.end..]) {
          SegmentsAreDirectives(true, s[d.end..], x);
        }
    }
  }

  /** Cut into segments, the text and its neutralized form differ only in the directives:
      each keeps its number and nothing else of it; every other character is copied. */
  lemma OnlyDirectivesChange(inWord: bool, s: string)
    ensures var segments := Segments(inWord, s);
            && Before(segments) == s
            && Afterwards(segments) == Rewrite(inWord, s)
            && forall x | x in segments && x.Directed? :: IsDirective(x.text, x.number)
  {
    SegmentsSpell(inWord, s);
    SegmentsRewrite(inWord, s);
    forall x | x in Segments(inWord, s) && x.Directed? ensures IsDirective(x.text, x.number) {
      SegmentsAreDirectives(inWord, s, x);
    }
  }

  /** How many digits a text starts with. */
  function Digits(s: string): nat { RunEnd(s, 0, Digit) }

  /** The issue references of a text, directive or not, in order. */
  function References(s: string): seq<string>
    decreases |s|
  {
    if s == "" then []
    else if s[0] == '#' && Digits(s[1..]) > 0 then
      var n := Digits(s[1..]);
      [s[1..1 + n]] + References(s[1 + n..])
    else References(s[1..])
  }

  lemma {:induction false} SkipToHash(s: string, n: nat)
    requires n <= |s| && forall k | 0 <= k < n :: s[k] != '#'
    ensures References(s) == References(s[n..])
    decreases n
  {
    if n > 0 {
      SkipToHash(s[1..], n - 1);
      assert s[1..][n - 1..] == s[n..];
    }
  }

  lemma ReferenceAtHash(s: string, number: string, rest: string)
    requires s == "#" + (number + rest) && number != ""
    requires (forall k | 0 <= k < |number| :: IsDigit(number[k])) && (rest != "" ==> !IsDigit(rest[0]))
    ensures References(s) == [number] + References(rest)
  {
    HashParts(s, number, rest);
    DigitsOf(number, rest);
  }

  lemma HashParts(s: string, number: string, rest: string)
    requires s == "#" + (number + rest)
    ensures s[0] == '#' && s[1..] == number + rest && s[1..1 + |number|] == number && s[1 + |number|..] == rest
  {
  }

  lemma DigitsOf(number: string, rest: string)
    requires (forall k | 0 <= k < |number| :: IsDigit(number[k])) && (rest != "" ==> !IsDigit(rest[0]))
    ensures Digits(number + rest) == |number|
  {
    RunEndIs(number + rest, 0, Digit, |number|);
  }

  lemma DigitIsCopied(inWord: bool, s: string)
    requires s != "" && IsDigit(s[0])
    ensures Rewrite(inWord, s) == [s[0]] + Rewrite(true, s[1..])
  {
    NoMatchAt(inWord, s);
  }

  lemma NoDigitAppears(inWord: bool, s: string)
    requires NoLeadingDigit(s)
    ensures NoLeadingDigit(Rewrite(inWord, s))
  {
    if s != "" {
      ReplacementStartsWithR(inWord, s);
    }
  }

  /** Leading digits are copied, and what follows them is rewritten as before. */
  lemma {:induction false} LeadingDigitsCopied(inWord: bool, number: string, rest: string)
    requires number != "" && forall k | 0 <= k < |number| :: IsDigit(number[k])
    ensures Rewrite(inWord, number + rest) == number + Rewrite(true, rest)
    decreases |number|
  {
    var s := number + rest;
    DigitIsCopied(inWord, s);
    if |number| == 1 {
      assert s[1..] == rest;
    } else {
      assert s[1..] == number[1..] + rest;
      LeadingDigitsCopied(true, number[1..], rest);
      Regroup(number, Rewrite(true, rest));
    }
  }

  lemma Regroup(number: string, rest: string)
    requires number != ""
    ensures [number[0]] + (number[1..] + rest) == number + rest
  {
  }

  /** Neutralizing keeps the sequence of `#number` references. */
  lemma {:induction false} ReferencesKept(inWord: bool, s: string)
    ensures References(Rewrite(inWord, s)) == References(s)
    decreases |s|, 2
  {
    if s != "" {
      match Match(inWord, s)
      case None => CopyKeepsReferences(inWord, s);
      case Some(d) =>
        ReferencesKept(true, s[d.end..]);
        NoDigitAppears(true, s[d.end..]);
        ReplacementKeepsReferences(s, d, Rewrite(true, s[d.end..]));
    }
  }

  predicate NoLeadingDigit(s: string) { s == "" || !IsDigit(s[0]) }

  /** Texts with the same references still have the same ones behind `#number`. */
  lemma SameAfterHash(number: string, a: string, b: string)
    requires number != "" && forall k | 0 <= k < |number| :: IsDigit(number[k])
    requires NoLeadingDigit(a) && NoLeadingDigit(b) && References(a) == References(b)
    ensures References("#" + (number + a)) == References("#" + (number + b))
  {
    ReferenceAtHash("#" + (number + a), number, a);
    ReferenceAtHash("#" + (number + b), number, b);
  }

  lemma LonelyHash(s: string, rest: string)
    requires s == "#" + rest && NoLeadingDigit(rest)
    ensures References(s) == References(rest)
  {
    assert s[1..] == rest;
    RunEndIs(rest, 0, Digit, 0);
  }

  lemma DirectiveTail(s: string, d: Directive)
    requires Describes(s, d)
    ensures References(s) == References("#" + (Number(s, d) + s[d.end..]))
  {
    NumberIsDigits(s, d);
    SkipToHash(s, d.hash);
    FromHashOn(s, d);
  }

  lemma FromHashOn(s: string, d: Directive)
    requires Describes(s, d)
    ensures s[d.hash..] == "#" + (Number(s, d) + s[d.end..])
  {
  }

  lemma RefsTail(v: string)
    ensures References("Refs " + v) == References(v)
  {
    SkipToHash("Refs " + v, 5);
    assert ("Refs " + v)[5..] == v;
  }

  lemma ReplacementKeepsReferences(s: string, d: Directive, u: string)
    requires Describes(s, d) && NoLeadingDigit(u) && References(u) == References(s[d.end..])
    ensures References("Refs #" + Number(s, d) + u) == References(s)
  {
    var number := Number(s, d);
    DirectiveTail(s, d);
    NumberIsDigits(s, d);
    SameAfterHash(number, s[d.end..], u);
    RefsTail("#" + (number + u));
    RefsRegroup(number, u);
  }

  lemma RefsRegroup(number: string, u: string)
    ensures "Refs #" + number + u == "Refs " + ("#" + (number + u))
  {
  }

  lemma {:induction false} CopyKeepsReferences(inWord: bool, s: string)
    requires s != "" && Match(inWord, s).None?
    ensures References(Rewrite(inWord, s)) == References(s)
    decreases |s|, 1
  {
    if s[0] == '#' {
      HashKeepsReferences(inWord, s);
    } else {
      ReferencesKept(IsWord(s[0]), s[1..]);
      assert Rewrite(inWord, s)[1..] == Rewrite(IsWord(s[0]), s[1..]);
    }
  }

  lemma UnmatchedIsCopied(inWord: bool, s: string, c: char, rest: string)
    requires s == [c] + rest && Match(inWord, s).None?
    ensures Rewrite(inWord, s) == [c] + Rewrite(IsWord(c), rest)
  {
    assert s[1..] == rest;
  }

  lemma HashIsCopied(inWord: bool, rest: string)
    ensures Rewrite(inWord, "#" + rest) == "#" + Rewrite(false, rest)
  {
    NoMatchAt(inWord, "#" + rest);
    UnmatchedIsCopied(inWord, "#" + rest, '#', rest);
  }

  lemma LonelyHashKeepsReferences(inWord: bool, rest: string)
    requires NoLeadingDigit(rest) && References(Rewrite(false, rest)) == References(rest)
    ensures References(Rewrite(inWord, "#" + rest)) == References("#" + rest)
  {
    HashIsCopied(inWord, rest);
    NoDigitAppears(false, rest);
    LonelyHash("#" + rest, rest);
    LonelyHash("#" + Rewrite(false, rest), Rewrite(false, rest));
  }

  lemma NumberKeepsReferences(inWord: bool, number: string, rest: string)
    requires number != "" && forall k | 0 <= k < |number| :: IsDigit(number[k])
    requires NoLeadingDigit(rest) && References(Rewrite(true, rest)) == References(rest)
    ensures References(Rewrite(inWord, "#" + (number + rest))) == References("#" + (number + rest))
  {
    HashIsCopied(inWord, number + rest);
    LeadingDigitsCopied(false, number, rest);
    NoDigitAppears(true, rest);
    SameAfterHash(number, rest, Rewrite(true, rest));
  }

  lemma {:induction false} HashKeepsReferences(inWord: bool, s: string)
    requires s != "" && s[0] == '#'
    ensures References(Rewrite(inWord, s)) == References(s)
    decreases |s|, 0
  {
    var n := Digits(s[1..]);
    assert s == "#" + s[1..];
    if n == 0 {
      ReferencesKept(false, s[1..]);
      LonelyHashKeepsReferences(inWord, s[1..]);
    } else {
      var number, rest := s[1..][..n], s[1..][n..];
      assert s[1..] == number + rest && NoLeadingDigit(rest);
      ReferencesKept(true, rest);
      NumberKeepsReferences(inWord, number, rest);
    }
  }

  // ---- Footer lines ----

  function WithoutHashes(issue: string): (n: string)
    ensures n != "" ==> n[0] != '#'
  {
    if issue != "" && issue[0] == '#' then WithoutHashes(issue[1..]) else issue
  }

  method IssueRefLine(issue: string) returns (line: string)
    ensures line == "Refs #" + WithoutHashes(issue)
  {
    var n := issue;
    while |n| > 0 && n[0] == '#'
      invariant WithoutHashes(n) == WithoutHashes(issue)
    {
      n := n[1..];
    }
    return "Refs #" + n;
  }

  /** The footer line carries a close directive exactly when the issue text itself does;
      a bare number never does. */
  lemma FooterIsDirectiveFree(issue: string)
    ensures DirectiveFree(false, "Refs #" + WithoutHashes(issue)) <==> DirectiveFree(false, WithoutHashes(issue))
    ensures (forall k | 0 <= k < |WithoutHashes(issue)| :: IsDigit(WithoutHashes(issue)[k])) ==>
              DirectiveFree(false, "Refs #" + WithoutHashes(issue))
  {
    var n := WithoutHashes(issue);
    RefsPrefix(n);
    if forall k | 0 <= k < |n| :: IsDigit(n[k]) {
      if n != "" {
        DigitsStartNothing(false, n, "");
        assert n + "" == n;
      }
    }
  }

  const CLOSING_ISSUE := "fix #1"

  /** The exception is real: this issue text makes a line that closes issue 1. */
  lemma FooterCanClose()
    ensures !DirectiveFree(false, "Refs #" + WithoutHashes(CLOSING_ISSUE))
  {
    var s := CLOSING_ISSUE;
    assert s[..3] == ['f', 'i', 'x'] && ToLowerAscii(s[..3]) == "fix";
    assert KEYWORDS[1..][1..][1..][0] == "fix";
    assert IsOneOf("fix", KEYWORDS[1..][1..][1..]);
    MatchFinds(s, Directive(3, 3, 4, 6));
    FooterIsDirectiveFree(s);
  }

  // ---- The keywords, spelled out ----

  lemma {:induction false} OneOfIffIn(word: string, list: seq<string>)
    ensures IsOneOf(word, list) <==> word in list
    decreases |list|
  {
    if list != [] {
      OneOfIffIn(word, list[1..]);
      assert list == [list[0]] + list[1..];
    }
  }

  /** The nine keywords GitHub honors, in any case, and no other word. */
  lemma KeywordsExactly(word: string)
    ensures var w := ToLowerAscii(word);
            IsKeyword(word) <==>
            || w == "close" || w == "closes" || w == "closed" || w == "fix" || w == "fixes" || w == "fixed"
            || w == "resolve" || w == "resolves" || w == "resolved"
  {
    OneOfIffIn(ToLowerAscii(word), KEYWORDS);
  }

  /** The documented example. */
  lemma ClosesBecomesRefs()
    ensures NeutralizeCloseDirectives("Closes #14") == "Refs #14"
  {
    var s := "Closes #14";
    assert s[..6] == "Closes" && ToLowerAscii(s[..6]) == "closes";
    KeywordsExactly(s[..6]);
    MatchFinds(s, Directive(6, 6, 7, 10));
    assert s[8..10] == "14" && s[10..] == "";
  }
}

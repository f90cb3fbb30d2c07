/** String helpers with the meaning Go's `strings` package gives them. */
module Text {

  datatype Option<+T> = None | Some(value: T)

  /** `unicode.IsSpace`. */
  predicate IsSpace(c: char) {
    || '\t' <= c <= '\r' || c == ' ' || c == '\U{85}' || c == '\U{A0}' || c == '\U{1680}'
    || c == '\U{2028}' || c == '\U{2029}' || c == '\U{202F}' || c == '\U{205F}' || c == '\U{3000}'
    || '\U{2000}' <= c <= '\U{200A}'
  }

  /** Sets of characters that get trimmed. */
  datatype CutSet = WhiteSpace | DotsAndDashes | Slashes {
    predicate Has(c: char) {
      match this
      case WhiteSpace => IsSpace(c)
      case DotsAndDashes => c == '.' || c == '-'
      case Slashes => c == '/'
    }
  }

  /** First position from `i` on that is not cut. */
  function SkipForward(s: string, i: nat, cut: CutSet): (k: nat)
    requires i <= |s|
    ensures i <= k <= |s|
    decreases |s| - i
  {
    if i == |s| || !cut.Has(s[i]) then i else SkipForward(s, i + 1, cut)
  }

  lemma {:induction false} SkipForwardStops(s: string, i: nat, cut: CutSet)
    requires i <= |s|
    ensures var k := SkipForward(s, i, cut);
            (k < |s| ==> !cut.Has(s[k])) && forall j | i <= j < k :: cut.Has(s[j])
    decreases |s| - i
  {
    if i < |s| && cut.Has(s[i]) {
      SkipForwardStops(s, i + 1, cut);
    }
  }

  /** End, at most `i` and at least `lo`, of what remains when the right side is cut. */
  function SkipBack(s: string, lo: nat, i: nat, cut: CutSet): (k: nat)
    requires lo <= i <= |s|
    ensures lo <= k <= i
    decreases i
  {
    if i == lo || !cut.Has(s[i - 1]) then i else SkipBack(s, lo, i - 1, cut)
  }

  lemma {:induction false} SkipBackStops(s: string, lo: nat, i: nat, cut: CutSet)
    requires lo <= i <= |s|
    ensures var k := SkipBack(s, lo, i, cut);
            k > lo ==> !cut.Has(s[k - 1])
    decreases i
  {
    if i > lo && cut.Has(s[i - 1]) {
      SkipBackStops(s, lo, i - 1, cut);
    }
  }

  /** `strings.Trim`. */
  function Trim(s: string, cut: CutSet): string {
    var lo := SkipForward(s, 0, cut);
    s[lo..SkipBack(s, lo, |s|, cut)]
  }

  /** Neither end of a trimmed string can be cut. */
  lemma TrimEnds(s: string, cut: CutSet)
    ensures var r := Trim(s, cut); r != "" ==> !cut.Has(r[0]) && !cut.Has(r[|r| - 1])
  {
    SkipForwardStops(s, 0, cut);
    SkipBackStops(s, SkipForward(s, 0, cut), |s|, cut);
  }

  /** `strings.TrimSpace`. */
  function TrimSpace(s: string): string { Trim(s, WhiteSpace) }

  predicate Blank(s: string) { TrimSpace(s) == "" }

  /** `strings.TrimSpace` leaves nothing exactly of strings of white space. */
  lemma BlankMeansAllSpace(s: string)
    ensures Blank(s) <==> forall i | 0 <= i < |s| :: IsSpace(s[i])
  {
    var lo := SkipForward(s, 0, WhiteSpace);
    SkipForwardStops(s, 0, WhiteSpace);
    SkipBackStops(s, lo, |s|, WhiteSpace);
    if lo < |s| {
      assert !IsSpace(s[lo]);
      if SkipBack(s, lo, |s|, WhiteSpace) == lo {
        BackToStart(s, lo, |s|, WhiteSpace);
      }
    }
  }

  lemma {:induction false} BackToStart(s: string, lo: nat, i: nat, cut: CutSet)
    requires lo < i <= |s| && SkipBack(s, lo, i, cut) == lo
    ensures cut.Has(s[lo])
    decreases i
  {
    if i > lo + 1 {
      BackToStart(s, lo, i - 1, cut);
    }
  }

  /** Trimming has nothing to do when neither end is in the cut set. */
  lemma TrimFixed(s: string, cut: CutSet)
    requires s != "" ==> !cut.Has(s[0]) && !cut.Has(s[|s| - 1])
    ensures Trim(s, cut) == s
  {
  }

  lemma TrimSpaceIdempotent(s: string)
    ensures TrimSpace(TrimSpace(s)) == TrimSpace(s)
  {
    TrimEnds(s, WhiteSpace);
    TrimFixed(TrimSpace(s), WhiteSpace);
  }

  /** `strings.Split` on a one-character separator. */
  function Split(s: string, sep: char): (parts: seq<string>)
    ensures |parts| > 0
    ensures forall p :: p in parts ==> sep !in p
    decreases |s|
  {
    if s == "" then [""]
    else
      var rest := Split(s[1..], sep);
      if s[0] == sep then [""] + rest
      else [[s[0]] + rest[0]] + rest[1..]
  }

  /** `strings.Join`. */
  function Join(parts: seq<string>, sep: char): string
    decreases |parts|
  {
    if parts == [] then ""
    else if |parts| == 1 then parts[0]
    else parts[0] + [sep] + Join(parts[1..], sep)
  }

  lemma {:induction false} JoinSplit(s: string, sep: char)
    ensures Join(Split(s, sep), sep) == s
    decreases |s|
  {
    if s != "" {
      JoinSplit(s[1..], sep);
      var rest := Split(s[1..], sep);
      if s[0] == sep {
        assert ([""] + rest)[1..] == rest;
      } else {
        var parts := [[s[0]] + rest[0]] + rest[1..];
        assert parts[1..] == rest[1..];
        assert s == [s[0]] + s[1..];
      }
    }
  }

  /** Joining separator-free parts and splitting gives the parts back. */
  lemma {:induction false} SplitJoin(parts: seq<string>, sep: char)
    requires |parts| > 0
    requires forall p :: p in parts ==> sep !in p
    ensures Split(Join(parts, sep), sep) == parts
    decreases |parts|
  {
    if |parts| == 1 {
      SplitTokenThen(parts[0], "", sep);
      assert parts[0] + "" == parts[0];
    } else {
      SplitJoin(parts[1..], sep);
      var tail := [sep] + Join(parts[1..], sep);
      SplitTokenThen(parts[0], tail, sep);
      assert parts[0] + tail == parts[0] + [sep] + Join(parts[1..], sep);
      assert tail[1..] == Join(parts[1..], sep);
      assert Split(tail, sep) == [""] + parts[1..];
      assert parts[0] + "" == parts[0];
    }
  }

  /** A separator-free token is prepended to the first part of what follows it. */
  lemma {:induction false} SplitTokenThen(token: string, tail: string, sep: char)
    requires sep !in token
    ensures Split(token + tail, sep)
         == [token + Split(tail, sep)[0]] + Split(tail, sep)[1..]
    decreases |token|
  {
    if token == "" {
      assert token + tail == tail;
      assert token + Split(tail, sep)[0] == Split(tail, sep)[0];
    } else {
      assert (token + tail)[1..] == token[1..] + tail;
      SplitTokenThen(token[1..], tail, sep);
      var first := Split(tail, sep)[0];
      assert [token[0]] + (token[1..] + first) == token + first;
    }
  }

  /** `strings.Contains`. */
  predicate Contains(s: string, sub: string) {
    exists i | 0 <= i <= |s| :: sub <= s[i..]
  }

  function ToLowerAscii(s: string): (r: string)
    ensures |r| == |s|
  {
    seq(|s|, i requires 0 <= i < |s| => LowerAscii(s[i]))
  }

  function LowerAscii(c: char): char {
    if 'A' <= c <= 'Z' then (c as int - 'A' as int + 'a' as int) as char else c
  }

  function Digit(n: nat): char
    requires n < 10
  {
    (n + '0' as int) as char
  }

  /** `%d` of a natural number. */
  function Decimal(n: nat): (s: string)
    ensures s != ""
  {
    if n < 10 then [Digit(n)] else Decimal(n / 10) + [Digit(n % 10)]
  }

  function DecimalValue(s: string): int
    decreases |s|
  {
    if s == "" then 0 else 10 * DecimalValue(s[..|s| - 1]) + (s[|s| - 1] as int - '0' as int)
  }

  lemma {:induction false} DecimalReadsBack(n: nat)
    ensures DecimalValue(Decimal(n)) == n
  {
    if n < 10 {
      assert Decimal(n)[..0] == "";
    } else {
      DecimalReadsBack(n / 10);
      assert Decimal(n)[..|Decimal(n)| - 1] == Decimal(n / 10);
    }
  }
}

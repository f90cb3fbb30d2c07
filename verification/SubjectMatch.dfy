/** Subject patterns of the in-memory bus: `*` stands for one token, `>` for one or more. */
module SubjectMatch {
  import opened Text

  function Tokens(subject: string): (tokens: seq<string>)
    ensures |tokens| > 0
  {
    Split(subject, '.')
  }

  /** The recursive meaning of a token pattern. */
  predicate TokensMatch(pattern: seq<string>, subject: seq<string>)
    decreases |pattern|
  {
    if pattern == [] || subject == [] then pattern == [] && subject == []
    else if pattern[0] == ">" then true
    else (pattern[0] == "*" || pattern[0] == subject[0]) && TokensMatch(pattern[1..], subject[1..])
  }

  predicate Matches(pattern: string, subject: string) {
    TokensMatch(Tokens(pattern), Tokens(subject))
  }

  /** The matcher itself: two indices, one pass, and a string-equality shortcut. */
  method MatchSubject(pattern: string, subject: string) returns (matched: bool)
    ensures matched == Matches(pattern, subject)
  {
    if pattern == subject {
      MatchReflexive(Tokens(pattern));
      return true;
    }
    var patternParts, subjectParts := Tokens(pattern), Tokens(subject);
    var pi, si := 0, 0;
    while pi < |patternParts| && si < |subjectParts|
      invariant 0 <= pi <= |patternParts| && 0 <= si <= |subjectParts|
      invariant TokensMatch(patternParts, subjectParts)
             == TokensMatch(patternParts[pi..], subjectParts[si..])
    {
      if patternParts[pi] == "*" {
        pi, si := pi + 1, si + 1;
      } else if patternParts[pi] == ">" {
        return true;
      } else {
        if patternParts[pi] != subjectParts[si] {
          return false;
        }
        pi, si := pi + 1, si + 1;
      }
    }
    return pi == |patternParts| && si == |subjectParts|;
  }

  /** The equality shortcut changes nothing: every subject matches itself. */
  lemma {:induction false} MatchReflexive(tokens: seq<string>)
    ensures TokensMatch(tokens, tokens)
    decreases |tokens|
  {
    if tokens != [] {
      MatchReflexive(tokens[1..]);
    }
  }

  /** Length of the pattern up to its first `>`, or its whole length. */
  function FixedLength(pattern: seq<string>): (n: nat)
    ensures n <= |pattern|
    ensures n < |pattern| ==> pattern[n] == ">"
    ensures forall k :: 0 <= k < n ==> pattern[k] != ">"
    decreases |pattern|
  {
    if pattern == [] || pattern[0] == ">" then 0 else 1 + FixedLength(pattern[1..])
  }

  ghost predicate FixedPartMatches(pattern: seq<string>, subject: seq<string>, n: nat)
    requires n <= |pattern| && n <= |subject|
  {
    forall k :: 0 <= k < n ==> pattern[k] == "*" || pattern[k] == subject[k]
  }

  /** Position by position: a pattern without `>` fixes the token count; the first `>`
      demands at least one more token and makes everything after it irrelevant. */
  ghost predicate PositionalMatch(pattern: seq<string>, subject: seq<string>) {
    var n := FixedLength(pattern);
    && (if n == |pattern| then |subject| == n else |subject| > n)
    && FixedPartMatches(pattern, subject, n)
  }

  lemma {:induction false} MatchIsPositional(pattern: seq<string>, subject: seq<string>)
    ensures TokensMatch(pattern, subject) == PositionalMatch(pattern, subject)
    decreases |pattern|
  {
    if pattern != [] && subject != [] && pattern[0] != ">" {
      var p, t, n := pattern[1..], subject[1..], FixedLength(pattern);
      MatchIsPositional(p, t);
      if TokensMatch(pattern, subject) {
        forall k | 0 <= k < n ensures pattern[k] == "*" || pattern[k] == subject[k] {
          if k > 0 { assert p[k - 1] == pattern[k] && t[k - 1] == subject[k]; }
        }
      }
      if PositionalMatch(pattern, subject) {
        forall k | 0 <= k < n - 1 ensures p[k] == "*" || p[k] == t[k] {
          assert p[k] == pattern[k + 1] && t[k] == subject[k + 1];
        }
      }
    }
  }

  predicate WildcardFree(tokens: seq<string>) {
    "*" !in tokens && ">" !in tokens
  }

  /** A pattern without wildcards matches exactly the subject spelled the same way. */
  lemma WildcardFreeMatchesOnlyItself(pattern: string, subject: string)
    requires WildcardFree(Tokens(pattern))
    ensures Matches(pattern, subject) <==> pattern == subject
  {
    var p, t := Tokens(pattern), Tokens(subject);
    MatchIsPositional(p, t);
    if Matches(pattern, subject) {
      assert forall k :: 0 <= k < |p| ==> p[k] in p;
      assert p == t;
      JoinSplit(pattern, '.');
      JoinSplit(subject, '.');
    } else {
      MatchReflexive(p);
    }
  }

  /** Replacing one token by `*` never loses a match, unless the token is the first `>`
      and what follows it does not match the subject's remaining tokens. */
  lemma StarGeneralizes(pattern: seq<string>, subject: seq<string>, i: nat)
    requires i < |pattern|
    requires TokensMatch(pattern, subject)
    ensures TokensMatch(pattern[i := "*"], subject)
       <==> (i == FixedLength(pattern) ==>
               i < |subject| && TokensMatch(pattern[i + 1..], subject[i + 1..]))
  {
    var starred := pattern[i := "*"];
    MatchIsPositional(pattern, subject);
    if i == FixedLength(pattern) {
      MatchFrom(starred, subject, i);
      assert starred[i..][1..] == pattern[i + 1..];
      assert subject[i..][1..] == subject[i + 1..];
    } else {
      MatchIsPositional(starred, subject);
      SameFixedLength(pattern, starred);
    }
  }

  /** The exception is real: `a.>` matches `a.b.c`, `a.*` does not. */
  lemma StarCanLoseMatch()
    ensures TokensMatch(["a", ">"], ["a", "b", "c"])
    ensures !TokensMatch(["a", ">"][1 := "*"], ["a", "b", "c"])
  {
    var pattern, starred, subject := ["a", ">"], ["a", "*"], ["a", "b", "c"];
    assert ["a", ">"][1 := "*"] == starred;
    assert pattern[1..] == [">"] && starred[1..] == ["*"] && subject[1..] == ["b", "c"];
    assert ["*"][1..] == [] && ["b", "c"][1..] == ["c"];
  }

  /** A fixed part that matches can be dropped from both sides. */
  lemma {:induction false} MatchFrom(pattern: seq<string>, subject: seq<string>, i: nat)
    requires i <= |pattern| && i <= |subject|
    requires FixedPartMatches(pattern, subject, i)
    requires forall k :: 0 <= k < i ==> pattern[k] != ">"
    ensures TokensMatch(pattern, subject) == TokensMatch(pattern[i..], subject[i..])
    decreases i
  {
    if i > 0 {
      MatchFrom(pattern[1..], subject[1..], i - 1);
      assert pattern[1..][i - 1..] == pattern[i..] && subject[1..][i - 1..] == subject[i..];
    }
  }

  /** The fixed part is decided by the tokens up to the first `>` alone. */
  lemma SameFixedLength(p: seq<string>, q: seq<string>)
    requires |p| == |q|
    requires forall k :: 0 <= k < |p| && k <= FixedLength(p) ==> (p[k] == ">" <==> q[k] == ">")
    ensures FixedLength(p) == FixedLength(q)
  {
    var m, n := FixedLength(p), FixedLength(q);
    assert m < |p| ==> q[m] == ">";
  }

  /** Replacing a non-empty suffix by `>` never loses a match. */
  lemma TailGeneralizes(pattern: seq<string>, subject: seq<string>, i: nat)
    requires i < |pattern|
    requires TokensMatch(pattern, subject)
    ensures TokensMatch(pattern[..i] + [">"], subject)
  {
    var tail := pattern[..i] + [">"];
    MatchIsPositional(pattern, subject);
    MatchIsPositional(tail, subject);
    var m, n := FixedLength(pattern), FixedLength(tail);
    assert n <= i by { assert tail[i] == ">"; }
    assert m < i ==> tail[m] == ">";
    forall k | 0 <= k < n ensures tail[k] == pattern[k] { }
  }
}

/** File names for chat-check artifacts: cleaned segments, and no two artifacts in one file. */
module ArtifactPaths {
  import opened Text

  // ---- Segments ----

  predicate SafeChar(c: char) {
    'a' <= c <= 'z' || 'A' <= c <= 'Z' || '0' <= c <= '9' || c == '_' || c == '-' || c == '.'
  }

  /** The path elements `.` and `..`. */
  predicate IsDots(s: string) {
    1 <= |s| <= 2 && forall i | 0 <= i < |s| :: s[i] == '.'
  }

  predicate AllSafe(s: string) {
    forall i | 0 <= i < |s| :: SafeChar(s[i])
  }

  /** Safe characters are copied; each maximal run of others becomes one dash. */
  function Dashed(value: string, lastDash: bool): string
    decreases |value|
  {
    if value == "" then ""
    else if SafeChar(value[0]) then [value[0]] + Dashed(value[1..], false)
    else if lastDash then Dashed(value[1..], true)
    else "-" + Dashed(value[1..], true)
  }

  function Segment(value: string): string {
    var trimmed := TrimSpace(value);
    if trimmed == "" || IsDots(trimmed) then "" else Trim(Dashed(trimmed, false), DotsAndDashes)
  }

  method DashUnsafe(value: string) returns (built: string)
    ensures built == Dashed(value, false)
  {
    var lastDash := false;
    built := "";
    for i := 0 to |value|
      invariant Dashed(value, false) == built + Dashed(value[i..], lastDash)
    {
      assert value[i..][1..] == value[i + 1..];
      if SafeChar(value[i]) {
        built, lastDash := built + [value[i]], false;
      } else if !lastDash {
        built, lastDash := built + "-", true;
      }
    }
  }

  /** `safeArtifactPathSegment`; its closing test for `.` and `..` has nothing to catch. */
  method SafeSegment(value: string) returns (segment: string)
    ensures segment == Segment(value)
  {
    var trimmed := TrimSpace(value);
    if trimmed == "" || IsDots(trimmed) {
      return "";
    }
    var built := DashUnsafe(trimmed);
    segment := Trim(built, DotsAndDashes);
    TrimEnds(built, DotsAndDashes);
    if segment == "" || IsDots(segment) {
      return "";
    }
  }

  /** A name usable as one path element. */
  predicate SafeElement(s: string) {
    s != "" && !IsDots(s) && AllSafe(s)
  }

  lemma {:induction false} DashedIsSafe(value: string, lastDash: bool)
    ensures AllSafe(Dashed(value, lastDash))
    decreases |value|
  {
    if value != "" {
      DashedIsSafe(value[1..], false);
      DashedIsSafe(value[1..], true);
    }
  }

  lemma {:induction false} SafeIsKept(value: string, lastDash: bool)
    requires AllSafe(value)
    ensures Dashed(value, lastDash) == value
    decreases |value|
  {
    if value != "" {
      var tail := value[1..];
      assert forall i | 0 <= i < |tail| :: tail[i] == value[i + 1];
      SafeIsKept(tail, false);
    }
  }

  lemma SliceKeepsSafe(s: string, lo: nat, hi: nat)
    requires AllSafe(s) && lo <= hi <= |s|
    ensures AllSafe(s[lo..hi])
  {
  }

  lemma TrimKeepsSafe(s: string, cut: CutSet)
    requires AllSafe(s)
    ensures AllSafe(Trim(s, cut))
  {
    var lo := SkipForward(s, 0, cut);
    SliceKeepsSafe(s, lo, SkipBack(s, lo, |s|, cut));
  }

  /** Safe characters in front are copied. */
  lemma {:induction false} SafeIsCopied(safe: string, rest: string)
    requires AllSafe(safe)
    ensures Dashed(safe + rest, false) == safe + Dashed(rest, false)
    decreases |safe|
  {
    if safe == "" {
      assert safe + rest == rest && safe + Dashed(rest, false) == Dashed(rest, false);
    } else {
      assert AllSafe(safe[1..]);
      SafeIsCopied(safe[1..], rest);
      assert (safe + rest)[1..] == safe[1..] + rest;
      assert [safe[0]] + (safe[1..] + Dashed(rest, false)) == safe + Dashed(rest, false);
    }
  }

  predicate NoneSafe(s: string) { forall i | 0 <= i < |s| :: !SafeChar(s[i]) }

  lemma {:induction false} GapIsSkipped(gap: string, rest: string)
    requires NoneSafe(gap) && (rest == "" || SafeChar(rest[0]))
    ensures Dashed(gap + rest, true) == Dashed(rest, false)
    decreases |gap|
  {
    if gap == "" {
      assert gap + rest == rest;
    } else {
      assert (gap + rest)[1..] == gap[1..] + rest;
      GapIsSkipped(gap[1..], rest);
    }
  }

  /** A run of unsafe characters, however long, becomes one dash; what stands before and after it
      is treated as if it stood alone. */
  lemma GapBecomesOneDash(safe: string, gap: string, rest: string)
    requires AllSafe(safe) && gap != "" && NoneSafe(gap) && (rest == "" || SafeChar(rest[0]))
    ensures Dashed(safe + (gap + rest), false) == safe + ("-" + Dashed(rest, false))
  {
    SafeIsCopied(safe, gap + rest);
    assert (gap + rest)[1..] == gap[1..] + rest;
    GapIsSkipped(gap[1..], rest);
  }

  /** A cleaned segment is empty, or safe with neither end a dot or a dash. */
  lemma SegmentIsSafe(value: string)
    ensures var r := Segment(value);
            r != "" ==> SafeElement(r) && !DotsAndDashes.Has(r[0]) && !DotsAndDashes.Has(r[|r| - 1])
  {
    DashedIsSafe(TrimSpace(value), false);
    TrimKeepsSafe(Dashed(TrimSpace(value), false), DotsAndDashes);
    TrimEnds(Dashed(TrimSpace(value), false), DotsAndDashes);
  }

  /** Cleaning is idempotent: a safe name with proper ends is left alone. */
  lemma SegmentIdempotent(value: string)
    ensures Segment(Segment(value)) == Segment(value)
  {
    var r := Segment(value);
    SegmentIsSafe(value);
    if r != "" {
      TrimFixed(r, WhiteSpace);
      SafeIsKept(r, false);
      TrimFixed(r, DotsAndDashes);
    }
  }

  // ---- Paths from names ----

  function NonEmpty(segments: seq<string>): seq<string>
    decreases |segments|
  {
    if segments == [] then []
    else if segments[0] == "" then NonEmpty(segments[1..])
    else [segments[0]] + NonEmpty(segments[1..])
  }

  function Segments(parts: seq<string>): (segments: seq<string>)
    ensures |segments| == |parts|
  {
    seq(|parts|, i requires 0 <= i < |parts| => Segment(parts[i]))
  }

  function NameParts(name: string): seq<string> {
    var trimmed := TrimSpace(name);
    Split(if trimmed == "" then "chat-check" else trimmed, '/')
  }

  /** The cleaned elements of a name, never none. */
  function NameElements(name: string): (parts: seq<string>)
    ensures parts != []
  {
    var clean := NonEmpty(Segments(NameParts(name)));
    if clean == [] then ["chat-check"] else clean
  }

  function Extension(ext: string): string { if Blank(ext) then ".json" else ext }

  function Extended(parts: seq<string>, suffix: string): (elements: seq<string>)
    requires parts != []
    ensures |elements| == |parts|
  {
    parts[|parts| - 1 := parts[|parts| - 1] + suffix]
  }

  function Elements(name: string, ext: string): (elements: seq<string>)
    ensures elements != []
  {
    Extended(NameElements(name), Extension(ext))
  }

  function WithSegment(segments: seq<string>, segment: string): seq<string> {
    if segment == "" then segments else segments + [segment]
  }

  lemma {:induction false} NonEmptyAppend(segments: seq<string>, segment: string)
    ensures NonEmpty(segments + [segment]) == WithSegment(NonEmpty(segments), segment)
    decreases |segments|
  {
    if segments != [] {
      NonEmptyAppend(segments[1..], segment);
      assert (segments + [segment])[1..] == segments[1..] + [segment];
    }
  }

  lemma NonEmptyUpTo(segments: seq<string>, i: nat)
    requires i < |segments|
    ensures NonEmpty(segments[..i + 1]) == WithSegment(NonEmpty(segments[..i]), segments[i])
  {
    NonEmptyAppend(segments[..i], segments[i]);
    assert segments[..i + 1] == segments[..i] + [segments[i]];
  }

  method CleanAll(parts: seq<string>) returns (clean: seq<string>)
    ensures clean == NonEmpty(Segments(parts))
  {
    ghost var segments := Segments(parts);
    clean := [];
    for i := 0 to |parts|
      invariant clean == NonEmpty(segments[..i])
    {
      var segment := SafeSegment(parts[i]);
      NonEmptyUpTo(segments, i);
      if segment != "" {
        clean := clean + [segment];
      }
    }
    assert segments[..|parts|] == segments;
  }

  /** The lexical cleaning of `filepath.Clean` on the elements of a relative path: empty ones
      and `.` go, `..` takes back the element before it, if there is one to take back. */
  function CleanElements(parts: seq<string>, kept: seq<string>): seq<string>
    decreases |parts|
  {
    if parts == [] then kept
    else if parts[0] == "" || parts[0] == "." then CleanElements(parts[1..], kept)
    else if parts[0] == ".." && kept != [] && kept[|kept| - 1] != ".." then CleanElements(parts[1..], kept[..|kept| - 1])
    else CleanElements(parts[1..], kept + [parts[0]])
  }

  /** `filepath.Join` of elements of which none is empty and the first does not start with a
      separator. */
  function JoinClean(elements: seq<string>): string {
    var kept := CleanElements(Split(Join(elements, '/'), '/'), []);
    if kept == [] then "." else Join(kept, '/')
  }

  function NamedPath(name: string, ext: string): string { JoinClean(Elements(name, ext)) }

  /** `chatCheckNamedArtifactPath`. */
  method NamedArtifactPath(name: string, ext: string) returns (path: string)
    ensures path == NamedPath(name, ext)
  {
    var trimmed := TrimSpace(name);
    if trimmed == "" {
      trimmed := "chat-check";
    }
    assert Split(trimmed, '/') == NameParts(name);
    var clean := CleanAll(Split(trimmed, '/'));
    if |clean| == 0 {
      clean := ["chat-check"];
    }
    path := JoinClean(Extended(clean, Extension(ext)));
  }

  predicate ProperElement(s: string) { SafeElement(s) && !DotsAndDashes.Has(s[0]) }

  lemma {:induction false} NonEmptyProper(segments: seq<string>)
    requires forall i | 0 <= i < |segments| :: segments[i] == "" || ProperElement(segments[i])
    ensures forall i | 0 <= i < |NonEmpty(segments)| :: ProperElement(NonEmpty(segments)[i])
    decreases |segments|
  {
    if segments != [] {
      NonEmptyProper(segments[1..]);
    }
  }

  /** An extension decides whether its element is safe, but cannot make it empty or dots. */
  lemma ExtensionKeepsSafe(element: string, suffix: string)
    requires ProperElement(element)
    ensures element + suffix != "" && !IsDots(element + suffix)
    ensures SafeElement(element + suffix) <==> AllSafe(suffix)
  {
    var s := element + suffix;
    assert s[0] == element[0];
    assert forall i | 0 <= i < |element| :: s[i] == element[i];
    assert forall i | 0 <= i < |suffix| :: s[|element| + i] == suffix[i];
    if AllSafe(suffix) {
      forall i | 0 <= i < |s| ensures SafeChar(s[i]) {
        if i >= |element| { assert s[i] == suffix[i - |element|]; }
      }
    }
  }

  lemma NameElementsProper(name: string)
    ensures forall i | 0 <= i < |NameElements(name)| :: ProperElement(NameElements(name)[i])
  {
    var parts := NameParts(name);
    forall i | 0 <= i < |parts| ensures Segment(parts[i]) == "" || ProperElement(Segment(parts[i])) {
      SegmentIsSafe(parts[i]);
    }
    NonEmptyProper(Segments(parts));
  }

  /** Cleaning has nothing to do on elements that are neither empty nor dots. */
  lemma {:induction false} CleanIsIdle(parts: seq<string>, kept: seq<string>)
    requires forall i | 0 <= i < |parts| :: parts[i] != "" && !IsDots(parts[i])
    ensures CleanElements(parts, kept) == kept + parts
    decreases |parts|
  {
    if parts != [] {
      assert !IsDots(parts[0]);
      CleanIsIdle(parts[1..], kept + [parts[0]]);
      assert kept + [parts[0]] + parts[1..] == kept + parts;
    }
  }

  lemma JoinNeedsNoCleaning(elements: seq<string>)
    requires elements != []
    requires forall i | 0 <= i < |elements| :: elements[i] != "" && !IsDots(elements[i]) && '/' !in elements[i]
    ensures JoinClean(elements) == Join(elements, '/') && Split(JoinClean(elements), '/') == elements
  {
    SplitJoin(elements, '/');
    AllIsKept(elements);
  }

  lemma AllIsKept(elements: seq<string>)
    requires forall i | 0 <= i < |elements| :: elements[i] != "" && !IsDots(elements[i])
    ensures CleanElements(elements, []) == elements
  {
    CleanIsIdle(elements, []);
    assert [] + elements == elements;
  }

  /** For every name: with an extension without a separator the path splits into the elements
      of the name, the extension on the last, none empty, `.` or `..`; all of them are safe
      exactly when the extension is. */
  lemma NamedPathIsSafe(name: string, ext: string)
    ensures var elements := Split(NamedPath(name, ext), '/');
            '/' !in ext ==>
            && elements == Elements(name, ext)
            && (forall i | 0 <= i < |elements| :: elements[i] != "" && !IsDots(elements[i]))
            && ((forall i | 0 <= i < |elements| :: SafeElement(elements[i])) <==> Blank(ext) || AllSafe(ext))
  {
    if '/' !in ext {
      NameElementsProper(name);
      assert AllSafe(".json") && '/' !in ".json";
      ExtendedIsSafe(NameElements(name), Extension(ext));
      JoinNeedsNoCleaning(Elements(name, ext));
    }
  }

  lemma ExtendedIsSafe(parts: seq<string>, suffix: string)
    requires parts != [] && '/' !in suffix
    requires forall i | 0 <= i < |parts| :: ProperElement(parts[i])
    ensures var elements := Extended(parts, suffix);
            && (forall i | 0 <= i < |elements| :: elements[i] != "" && !IsDots(elements[i]) && '/' !in elements[i])
            && ((forall i | 0 <= i < |elements| :: SafeElement(elements[i])) <==> AllSafe(suffix))
  {
    var elements, n := Extended(parts, suffix), |parts| - 1;
    ExtensionKeepsSafe(parts[n], suffix);
    forall i | 0 <= i < |elements| ensures elements[i] != "" && !IsDots(elements[i]) && '/' !in elements[i] {
      assert '/' !in parts[i];
    }
    assert elements[n] == parts[n] + suffix;
    assert forall i | 0 <= i < n :: elements[i] == parts[i];
  }

  /** Without an extension the path ends in `.json`. */
  lemma BlankExtensionIsJson(name: string, ext: string)
    requires Blank(ext)
    ensures NamedPath(name, ext) == NamedPath(name, ".json")
  {
    TrimFixed(".json", WhiteSpace);
  }

  // ---- Extensions with separators ----

  /** Walking through the pieces from a directory `depth` levels down never leaves the top. */
  predicate StaysInside(pieces: seq<string>, depth: nat)
    decreases |pieces|
  {
    pieces == [] ||
    if pieces[0] == "" || pieces[0] == "." then StaysInside(pieces[1..], depth)
    else if pieces[0] == ".." then depth > 0 && StaysInside(pieces[1..], depth - 1)
    else StaysInside(pieces[1..], depth + 1)
  }

  /** A `..` at the bottom is never taken back. */
  lemma {:induction false} ClimbIsKept(parts: seq<string>, kept: seq<string>)
    requires kept != [] && kept[0] == ".."
    ensures var c := CleanElements(parts, kept); c != [] && c[0] == ".."
    decreases |parts|
  {
    if parts == [] || parts[0] == "" || parts[0] == "." {
      if parts != [] {
        ClimbIsKept(parts[1..], kept);
      }
    } else if parts[0] == ".." && kept[|kept| - 1] != ".." {
      ClimbIsKept(parts[1..], kept[..|kept| - 1]);
    } else {
      ClimbIsKept(parts[1..], kept + [parts[0]]);
    }
  }

  lemma {:induction false} CleanStaysIff(parts: seq<string>, kept: seq<string>)
    requires ".." !in kept
    ensures ".." !in CleanElements(parts, kept) <==> StaysInside(parts, |kept|)
    decreases |parts|
  {
    if parts == [] {
    } else if parts[0] == "" || parts[0] == "." {
      CleanStaysIff(parts[1..], kept);
    } else if parts[0] != ".." {
      CleanStaysIff(parts[1..], kept + [parts[0]]);
    } else if kept != [] {
      CleanStaysIff(parts[1..], kept[..|kept| - 1]);
    } else {
      ClimbIsKept(parts[1..], [".."]);
      assert kept + [parts[0]] == [".."];
    }
  }

  lemma {:induction false} CleanKeepsOnlyParts(parts: seq<string>, kept: seq<string>, x: string)
    requires x in CleanElements(parts, kept)
    ensures x in parts || x in kept
    decreases |parts|
  {
    if parts == [] {
    } else if parts[0] == "" || parts[0] == "." {
      CleanKeepsOnlyParts(parts[1..], kept, x);
    } else if parts[0] == ".." && kept != [] && kept[|kept| - 1] != ".." {
      CleanKeepsOnlyParts(parts[1..], kept[..|kept| - 1], x);
    } else {
      CleanKeepsOnlyParts(parts[1..], kept + [parts[0]], x);
    }
  }

  lemma {:induction false} CleanPastProper(parts: seq<string>, rest: seq<string>, kept: seq<string>)
    requires forall i | 0 <= i < |parts| :: parts[i] != "" && !IsDots(parts[i])
    ensures CleanElements(parts + rest, kept) == CleanElements(rest, kept + parts)
    decreases |parts|
  {
    if parts == [] {
      assert parts + rest == rest && kept + parts == kept;
    } else {
      assert !IsDots(parts[0]);
      assert (parts + rest)[1..] == parts[1..] + rest;
      CleanPastProper(parts[1..], rest, kept + [parts[0]]);
      assert kept + [parts[0]] + parts[1..] == kept + parts;
    }
  }

  /** The pieces of a path: those of the name, the last one with the extension's first piece,
      then the extension's others. */
  lemma {:induction false} SplitExtended(parts: seq<string>, suffix: string)
    requires parts != [] && forall i | 0 <= i < |parts| :: '/' !in parts[i]
    ensures Split(Join(Extended(parts, suffix), '/'), '/')
         == Extended(parts, Split(suffix, '/')[0]) + Split(suffix, '/')[1..]
    decreases |parts|
  {
    var p, e := parts[0], Split(suffix, '/');
    if |parts| == 1 {
      SplitTokenThen(p, suffix, '/');
      assert Extended(parts, suffix) == [p + suffix] && Extended(parts, e[0]) == [p + e[0]];
    } else {
      SplitExtended(parts[1..], suffix);
      ExtendedTail(parts, suffix);
      ExtendedTail(parts, e[0]);
      SplitAtSeparator(p, Join(Extended(parts[1..], suffix), '/'));
      Regroup(p, Extended(parts[1..], e[0]), e[1..]);
    }
  }

  lemma ExtendedTail(parts: seq<string>, suffix: string)
    requires |parts| > 1
    ensures Extended(parts, suffix) == [parts[0]] + Extended(parts[1..], suffix)
    ensures Join(Extended(parts, suffix), '/') == parts[0] + ("/" + Join(Extended(parts[1..], suffix), '/'))
  {
    var all, rest := Extended(parts, suffix), Extended(parts[1..], suffix);
    assert all == [parts[0]] + rest;
    assert all[1..] == rest;
  }

  lemma Regroup(p: string, a: seq<string>, b: seq<string>)
    ensures [p] + (a + b) == [p] + a + b
  {
  }

  lemma SplitAtSeparator(token: string, rest: string)
    requires '/' !in token
    ensures Split(token + ("/" + rest), '/') == [token] + Split(rest, '/')
  {
    var tail := "/" + rest;
    SplitTokenThen(token, tail, '/');
    assert tail[1..] == rest;
    assert Split(tail, '/') == [""] + Split(rest, '/');
    assert token + "" == token;
  }

  lemma ExtendedIsNoDots(parts: seq<string>, suffix: string)
    requires parts != [] && forall i | 0 <= i < |parts| :: ProperElement(parts[i])
    ensures forall i | 0 <= i < |parts| :: Extended(parts, suffix)[i] != "" && !IsDots(Extended(parts, suffix)[i])
  {
    ExtensionKeepsSafe(parts[|parts| - 1], suffix);
  }

  function KeptElements(name: string, ext: string): seq<string> {
    CleanElements(Split(Join(Elements(name, ext), '/'), '/'), [])
  }

  lemma KeptStaysIff(name: string, ext: string)
    ensures ".." !in KeptElements(name, ext)
       <==> StaysInside(Split(Extension(ext), '/')[1..], |NameElements(name)|)
  {
    var parts, e := NameElements(name), Split(Extension(ext), '/');
    NameElementsProper(name);
    SplitExtended(parts, Extension(ext));
    ExtendedIsNoDots(parts, e[0]);
    var first := Extended(parts, e[0]);
    CleanPastProper(first, e[1..], []);
    assert [] + first == first;
    NoDotsAmong(first);
    CleanStaysIff(e[1..], first);
  }

  lemma NoDotsAmong(parts: seq<string>)
    requires forall i | 0 <= i < |parts| :: !IsDots(parts[i])
    ensures ".." !in parts
  {
    assert IsDots("..");
  }

  lemma KeptHasNoSeparator(name: string, ext: string)
    ensures forall x | x in KeptElements(name, ext) :: '/' !in x
  {
    forall x | x in KeptElements(name, ext) ensures '/' !in x {
      CleanKeepsOnlyParts(Split(Join(Elements(name, ext), '/'), '/'), [], x);
    }
  }

  /** For every name and every extension: the path has a `..` element exactly when walking the
      extension's pieces, from as many levels down as the name has elements, leaves the top. */
  lemma NamedPathStaysInside(name: string, ext: string)
    ensures ".." !in Split(NamedPath(name, ext), '/')
       <==> StaysInside(Split(Extension(ext), '/')[1..], |NameElements(name)|)
  {
    KeptStaysIff(name, ext);
    var kept := KeptElements(name, ext);
    if kept == [] {
      SplitTokenThen(".", "", '/');
      assert "." + "" == ".";
    } else {
      KeptHasNoSeparator(name, ext);
      SplitJoin(kept, '/');
    }
  }

  /** The extension is appended uncleaned: one with separators can climb out. */
  lemma ExtensionCanClimb()
    ensures NamedPath("a", "/../..") == ".."
  {
    ClimbingElements();
    ClimbingSplit();
    ClimbingClean();
  }

  const CLIMB := ["a", "..", ".."]

  lemma ClimbingSplit()
    ensures Split("a/../..", '/') == CLIMB
  {
    assert CLIMB[1..] == ["..", ".."] && CLIMB[1..][1..] == [".."];
    assert Join(CLIMB[1..], '/') == "../..";
    assert Join(CLIMB, '/') == "a/../..";
    SplitJoin(CLIMB, '/');
  }

  lemma ClimbingClean()
    ensures CleanElements(CLIMB, []) == [".."]
  {
    var rest := CLIMB[1..];
    assert rest == ["..", ".."] && rest[1..] == [".."] && [".."][1..] == [];
    assert CleanElements(CLIMB, []) == CleanElements(rest, ["a"]);
    assert CleanElements(rest, ["a"]) == CleanElements([".."], []);
    assert CleanElements([".."], []) == CleanElements([], [".."]);
  }

  lemma ClimbingElements()
    ensures Elements("a", "/../..") == ["a/../.."]
  {
    TrimFixed("a", WhiteSpace);
    TrimFixed("/../..", WhiteSpace);
    TrimFixed("a", DotsAndDashes);
    SafeIsKept("a", false);
    SplitTokenThen("a", "", '/');
    assert "a" + "" == "a";
    assert NameParts("a") == ["a"];
    assert Segment("a") == "a";
    assert Segments(["a"]) == ["a"];
    assert NonEmpty(["a"]) == ["a"] + NonEmpty(["a"][1..]);
    assert "a" + "/../.." == "a/../..";
  }

  // ---- Unique paths ----

  /** Start of the extension: the last dot of the last path element, or the end. */
  function ExtStart(path: string, i: nat): (k: nat)
    requires i <= |path|
    ensures k <= |path|
    decreases i
  {
    if i == 0 || path[i - 1] == '/' then |path|
    else if path[i - 1] == '.' then i - 1
    else ExtStart(path, i - 1)
  }

  /** The `count`-th spelling of a path: the number goes before the extension. */
  function Candidate(path: string, count: nat): string {
    var k := ExtStart(path, |path|);
    path[..k] + "-" + Decimal(count) + path[k..]
  }

  /** The extension of a path starts at `k`: the last dot of its last element. */
  predicate ExtensionAt(path: string, k: nat) {
    k < |path| && path[k] == '.' && forall q | k < q < |path| :: path[q] != '.' && path[q] != '/'
  }

  lemma {:induction false} ExtStartFinds(path: string, i: nat)
    requires i <= |path| && forall q | i <= q < |path| :: path[q] != '.' && path[q] != '/'
    ensures var k := ExtStart(path, i);
            if k < |path| then ExtensionAt(path, k) else forall m: nat :: !ExtensionAt(path, m)
    decreases i
  {
    if i > 0 && path[i - 1] != '/' && path[i - 1] != '.' {
      ExtStartFinds(path, i - 1);
    }
  }

  lemma {:induction false} DecimalIsDigits(n: nat)
    ensures forall i | 0 <= i < |Decimal(n)| :: '0' <= Decimal(n)[i] <= '9'
  {
    if n >= 10 {
      DecimalIsDigits(n / 10);
    }
  }

  lemma ExtensionIsUnique(path: string, k: nat)
    requires ExtensionAt(path, k)
    ensures ExtStart(path, |path|) == k
  {
    ExtStartFinds(path, |path|);
    assert ExtensionAt(path, k);
  }

  /** A numbered spelling is the path with a dash and the number before its extension, which it
      keeps. */
  lemma CandidateKeepsExtension(path: string, n: nat)
    ensures var k, c := ExtStart(path, |path|), Candidate(path, n);
            && (k < |path| ==> ExtensionAt(path, k)) && (k == |path| ==> forall m: nat :: !ExtensionAt(path, m))
            && c == path[..k] + ("-" + Decimal(n)) + path[k..]
            && c[ExtStart(c, |c|)..] == path[k..]
  {
    ExtStartFinds(path, |path|);
    DecimalIsDigits(n);
    var k, number := ExtStart(path, |path|), "-" + Decimal(n);
    var c := Candidate(path, n);
    assert c == path[..k] + number + path[k..];
    if k < |path| {
      ExtensionMoves(path, k, number);
    } else {
      NoExtensionAppears(path, number);
    }
  }

  lemma ExtensionMoves(path: string, k: nat, number: string)
    requires ExtensionAt(path, k)
    ensures var c := path[..k] + number + path[k..]; c[ExtStart(c, |c|)..] == path[k..]
  {
    var c, j := path[..k] + number + path[k..], k + |number|;
    assert forall q | k <= q < |path| :: c[q + |number|] == path[q];
    assert c[j] == '.';
    forall q | j < q < |c| ensures c[q] != '.' && c[q] != '/' {
      assert c[q] == path[q - |number|];
    }
    ExtensionIsUnique(c, j);
    assert c[j..] == path[k..];
  }

  lemma NoExtensionAppears(path: string, number: string)
    requires (forall m: nat :: !ExtensionAt(path, m)) && forall i | 0 <= i < |number| :: number[i] != '.' && number[i] != '/'
    ensures var c := path[..|path|] + number + path[|path|..]; c[ExtStart(c, |c|)..] == path[|path|..]
  {
    var c := path[..|path|] + number + path[|path|..];
    assert c == path + number;
    ExtStartFinds(c, |c|);
    var m := ExtStart(c, |c|);
    assert forall i | 0 <= i < |number| :: c[|path| + i] == number[i];
    if m < |path| {
      assert c[m] == path[m] && forall q | m < q < |path| :: c[q] == path[q];
      assert ExtensionAt(path, m);
    }
  }

  lemma CandidatesDiffer(path: string, m: nat, n: nat)
    requires Candidate(path, m) == Candidate(path, n)
    ensures m == n
  {
    var k := ExtStart(path, |path|);
    var base, ext := path[..k] + "-", path[k..];
    MiddleIsUnique(base, Decimal(m), Decimal(n), ext);
    DecimalReadsBack(m);
    DecimalReadsBack(n);
  }

  lemma MiddleIsUnique(left: string, a: string, b: string, right: string)
    requires left + a + right == left + b + right
    ensures a == b
  {
    assert |a| == |b|;
    assert a == (left + a + right)[|left|..|left| + |a|];
    assert b == (left + b + right)[|left|..|left| + |b|];
  }

  /** Go reads an absent map key as zero. */
  function Count(seen: map<string, nat>, path: string): nat {
    if path in seen then seen[path] else 0
  }

  /** Spellings beyond `count` that are already in the map. */
  ghost function Taken(seen: map<string, nat>, path: string, count: nat): set<string> {
    set c | c in seen && exists k: nat :: k > count && c == Candidate(path, k)
  }

  /** The search cannot go on forever: each taken spelling is met once. */
  lemma TakenShrinks(seen: map<string, nat>, path: string, count: nat)
    requires Candidate(path, count + 1) in seen
    ensures Taken(seen, path, count + 1) < Taken(seen, path, count)
  {
    var c := Candidate(path, count + 1);
    assert c in Taken(seen, path, count);
    forall k: nat | k > count + 1 ensures Candidate(path, k) != c {
      if Candidate(path, k) == c {
        CandidatesDiffer(path, k, count + 1);
      }
    }
    assert Taken(seen, path, count + 1) <= Taken(seen, path, count);
  }

  class PathAllocator {
    var seen: map<string, nat>

    constructor ()
      ensures seen == map[]
    {
      seen := map[];
    }

    /** `uniqueChatCheckArtifactPath`: a path not handed out before, at the first free
        spelling after the last one tried for this path. */
    method Unique(path: string) returns (unique: string)
      modifies this
      ensures Count(old(seen), unique) == 0
      ensures if Count(old(seen), path) == 0 then unique == path && seen == old(seen)[path := 1]
              else exists k: nat ::
                && k > old(seen)[path] && unique == Candidate(path, k)
                && seen == old(seen)[path := k][unique := 1]
                && forall j | old(seen)[path] < j < k :: Count(old(seen), Candidate(path, j)) != 0
    {
      var count := Count(seen, path);
      if count == 0 {
        seen := seen[path := 1];
        return path;
      }
      while true
        invariant seen == old(seen) && path in seen && count >= seen[path]
        invariant forall j | seen[path] < j <= count :: Count(seen, Candidate(path, j)) != 0
        decreases Taken(seen, path, count)
      {
        var candidate := Candidate(path, count + 1);
        if Count(seen, candidate) == 0 {
          seen := seen[path := count + 1][candidate := 1];
          return candidate;
        }
        TakenShrinks(seen, path, count);
        count := count + 1;
      }
    }
  }

  /** With no map to consult the path is returned as it is. */
  method UniqueOrSame(path: string, allocator: PathAllocator?) returns (unique: string)
    modifies allocator
    ensures allocator == null ==> unique == path
    ensures allocator != null ==> Count(old(allocator.seen), unique) == 0 && Count(allocator.seen, unique) > 0
  {
    if allocator == null {
      return path;
    }
    unique := allocator.Unique(path);
  }

  predicate Distinct(paths: seq<string>) {
    forall i, j | 0 <= i < j < |paths| :: paths[i] != paths[j]
  }

  /** `unique` is the wanted path or one of its numbered spellings. */
  ghost predicate SpellingOf(wanted: string, unique: string) {
    unique == wanted || exists k: nat :: unique == Candidate(wanted, k)
  }

  /** Any sequence of calls sharing one map, as the report writer makes them: the paths
      handed out are pairwise distinct spellings of the paths asked for. */
  method UniqueAll(wanted: seq<string>) returns (paths: seq<string>)
    ensures |paths| == |wanted|
    ensures Distinct(paths)
    ensures forall i | 0 <= i < |wanted| :: SpellingOf(wanted[i], paths[i])
  {
    var allocator := new PathAllocator();
    paths := [];
    for i := 0 to |wanted|
      invariant |paths| == i && Distinct(paths)
      invariant forall j | 0 <= j < i :: Count(allocator.seen, paths[j]) > 0
      invariant forall j | 0 <= j < i :: SpellingOf(wanted[j], paths[j])
    {
      var path := allocator.Unique(wanted[i]);
      paths := paths + [path];
    }
  }
}

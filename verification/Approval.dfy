/** Approval decisions by mode, and the path test behind them. */
module Approval {
  import opened Text

  datatype Mode = Ask | Safe | Auto | Yolo | OtherMode

  datatype Operation =
    | Read | Write | Delete | ShellRead | ShellWrite | ShellNetwork | Network | GitRead | GitWrite
    | OtherOperation

  datatype Decision = Allow | Deny | Prompt

  datatype Request = Request(operation: Operation, path: string, command: string)

  datatype Context = Context(workspace: string, trusted: seq<string>, denied: seq<string>, allowNetwork: bool)

  /** What the decisions take from outside: `filepath.Abs`, as the elements of a cleaned
      absolute path or an error, and two guesses about shell commands. */
  datatype World = World(
    abs: string -> Option<seq<string>>,
    readOnly: string -> bool,
    targetsWorkspace: string -> bool)
  {
    ghost predicate Clean() {
      forall path :: abs(path).Some? ==> CleanPath(abs(path).value)
    }
  }

  // ---- Paths ----

  /** Elements of a cleaned path: none empty, none with a separator inside. */
  predicate CleanPath(elements: seq<string>) {
    forall i | 0 <= i < |elements| :: elements[i] != "" && '/' !in elements[i]
  }

  function Slashed(elements: seq<string>): (s: string)
    ensures s == "" || s[0] == '/'
    ensures s == "" <==> elements == []
    decreases |elements|
  {
    if elements == [] then "" else "/" + elements[0] + Slashed(elements[1..])
  }

  /** The absolute path as a string; the root is `/`. */
  function Render(elements: seq<string>): string {
    if elements == [] then "/" else Slashed(elements)
  }

  /** The test the code makes: equal, or the directory plus a separator is a prefix. */
  predicate StringWithin(path: string, dir: string) {
    path == dir || dir + "/" <= path
  }

  predicate Within(path: seq<string>, dir: seq<string>) {
    StringWithin(Render(path), Render(dir))
  }

  /** An element ends where the next separator stands. */
  lemma ElementsAgree(x: string, a: string, y: string, b: string)
    requires '/' !in x && '/' !in y
    requires (a == "" || a[0] == '/') && (b == "" || b[0] == '/')
    requires x + a <= y + b && (a == "" ==> x + a == y + b)
    ensures x == y && a <= b && (x + a == y + b ==> a == b)
  {
    SameLength(x, a, y, b);
    var s, t := x + a, y + b;
    assert x == s[..|x|] && y == t[..|y|];
    assert a == s[|x|..] && b == t[|y|..];
  }

  lemma SameLength(x: string, a: string, y: string, b: string)
    requires '/' !in x && '/' !in y
    requires (a == "" || a[0] == '/') && (b == "" || b[0] == '/')
    requires x + a <= y + b && (a == "" ==> x + a == y + b)
    ensures |x| == |y|
  {
    var s, t := x + a, y + b;
    assert a != "" ==> s[|x|] == '/';
    assert b != "" ==> t[|y|] == '/';
    assert forall k | 0 <= k < |x| :: s[k] == x[k] != '/';
    assert forall k | 0 <= k < |y| :: t[k] == y[k] != '/';
  }

  lemma {:induction false} SlashedWithin(path: seq<string>, dir: seq<string>)
    requires CleanPath(path) && CleanPath(dir)
    ensures StringWithin(Slashed(path), Slashed(dir)) <==> dir <= path
    decreases |path|
  {
    if dir == [] {
      assert "" + "/" == "/";
    } else if path != [] {
      var y, x, b, a := path[0], dir[0], Slashed(path[1..]), Slashed(dir[1..]);
      SlashedWithin(path[1..], dir[1..]);
      assert path == [y] + path[1..] && dir == [x] + dir[1..];
      if StringWithin(Slashed(path), Slashed(dir)) {
        StripFirst(x, a, y, b);
      } else if dir <= path {
        assert y == path[0] == dir[0] == x && dir[1..] <= path[1..];
        AddFirst(x, a, b);
      }
    }
  }

  lemma StripFirst(x: string, a: string, y: string, b: string)
    requires '/' !in x && '/' !in y && (a == "" || a[0] == '/') && (b == "" || b[0] == '/')
    requires StringWithin("/" + y + b, "/" + x + a)
    ensures x == y && StringWithin(b, a)
  {
    if "/" + y + b == "/" + x + a {
      assert ("/" + y + b)[1..] == y + b && ("/" + x + a)[1..] == x + a;
      ElementsAgree(x, a, y, b);
    } else {
      assert ("/" + x + a + "/")[1..] == x + (a + "/");
      assert ("/" + y + b)[1..] == y + b;
      ElementsAgree(x, a + "/", y, b);
    }
  }

  lemma AddFirst(x: string, a: string, b: string)
    requires StringWithin(b, a)
    ensures StringWithin("/" + x + b, "/" + x + a)
  {
    if b != a {
      assert ("/" + x + a) + "/" == ("/" + x) + (a + "/");
      assert ("/" + x) + b == ("/" + x) + (a + "/") + b[|a| + 1..];
    }
  }

  /** For every directory but the root the string test is containment by elements; under
      the root it finds only the root itself. */
  lemma WithinIsContainment(path: seq<string>, dir: seq<string>)
    requires CleanPath(path) && CleanPath(dir)
    ensures Within(path, dir) <==> if dir == [] then path == [] else dir <= path
  {
    if dir == [] {
      if path != [] {
        assert Slashed(path)[1] == path[0][0];
        assert path[0][0] in path[0];
      }
    } else if path == [] {
      assert |Slashed(dir)| >= 2;
    } else {
      SlashedWithin(path, dir);
    }
  }

  predicate AnyContains(w: World, dirs: seq<string>, path: seq<string>) {
    exists i | 0 <= i < |dirs| :: w.abs(dirs[i]).Some? && Within(path, w.abs(dirs[i]).value)
  }

  predicate IsPathInWorkspace(w: World, path: string, ctx: Context) {
    && path != "" && w.abs(path).Some?
    && var p := w.abs(path).value;
       || (ctx.workspace != "" && w.abs(ctx.workspace).Some? && Within(p, w.abs(ctx.workspace).value))
       || AnyContains(w, ctx.trusted, p)
  }

  predicate IsPathDenied(w: World, path: string, ctx: Context) {
    path != "" && ctx.denied != [] && w.abs(path).Some? && AnyContains(w, ctx.denied, w.abs(path).value)
  }

  // ---- Git commands ----

  const REMOTE_COMMANDS := ["git push", "git fetch", "git pull", "git clone", "git remote"]

  predicate IsLocalGitCommand(command: string) {
    forall i | 0 <= i < |REMOTE_COMMANDS| :: !Contains(ToLowerAscii(command), REMOTE_COMMANDS[i])
  }

  predicate IsForcePush(command: string) {
    var lower := ToLowerAscii(command);
    Contains(lower, "push") && (Contains(lower, "-f") || Contains(lower, "--force"))
  }

  // ---- Decisions ----

  function AllowIf(b: bool): Decision { if b then Allow else Prompt }

  function CheckFileWrite(w: World, mode: Mode, req: Request, ctx: Context): Decision {
    match mode
    case Ask => Prompt
    case Safe => AllowIf(IsPathInWorkspace(w, req.path, ctx))
    case Auto => AllowIf(IsPathInWorkspace(w, req.path, ctx))
    case _ => Prompt
  }

  function CheckShellRead(w: World, mode: Mode, req: Request): Decision {
    match mode
    case Ask => Prompt
    case Safe => AllowIf(w.readOnly(req.command))
    case Auto => Allow
    case _ => Prompt
  }

  function CheckShellWrite(w: World, mode: Mode, req: Request): Decision {
    match mode
    case Ask => Prompt
    case Safe => Prompt
    case Auto => AllowIf(w.targetsWorkspace(req.command))
    case _ => Prompt
  }

  /** Shell commands with network access and direct requests are judged alike. */
  function CheckNetwork(mode: Mode, ctx: Context): Decision {
    match mode
    case Ask => Prompt
    case Safe => Prompt
    case Auto => AllowIf(ctx.allowNetwork)
    case _ => Prompt
  }

  function CheckGitWrite(mode: Mode, req: Request): Decision {
    match mode
    case Ask => Prompt
    case Safe => AllowIf(IsLocalGitCommand(req.command))
    case Auto => AllowIf(!IsForcePush(req.command))
    case _ => Prompt
  }

  function Check(w: World, mode: Mode, req: Request, ctx: Context): Decision {
    if req.path != "" && IsPathDenied(w, req.path, ctx) then Deny
    else if mode == Yolo then Allow
    else
      match req.operation
      case Read => Allow
      case GitRead => Allow
      case Write => CheckFileWrite(w, mode, req, ctx)
      case Delete => CheckFileWrite(w, mode, req, ctx)
      case ShellRead => CheckShellRead(w, mode, req)
      case ShellWrite => CheckShellWrite(w, mode, req)
      case ShellNetwork => CheckNetwork(mode, ctx)
      case Network => CheckNetwork(mode, ctx)
      case GitWrite => CheckGitWrite(mode, req)
      case OtherOperation => Prompt
  }

  // ---- What holds of every decision ----

  /** A directory other than the root that holds the path, by elements; or both are the root. */
  ghost predicate LiesUnder(w: World, path: seq<string>, dir: string) {
    w.abs(dir).Some? && (if w.abs(dir).value == [] then path == [] else w.abs(dir).value <= path)
  }

  /** A request is denied, in any mode whatever, exactly when a denied directory holds its
      path. */
  lemma DeniedExactly(w: World, mode: Mode, req: Request, ctx: Context)
    requires w.Clean()
    ensures Check(w, mode, req, ctx) == Deny <==>
            req.path != "" && w.abs(req.path).Some?
            && exists i :: 0 <= i < |ctx.denied| && LiesUnder(w, w.abs(req.path).value, ctx.denied[i])
  {
    if w.abs(req.path).Some? {
      AnyContainsExactly(w, ctx.denied, w.abs(req.path).value);
    }
  }

  /** Denying the root directory denies nothing below it, in any mode. */
  lemma DeniedRootDeniesNothing(w: World, mode: Mode, req: Request, ctx: Context)
    requires w.Clean() && ctx.denied == ["/"] && w.abs("/") == Some([])
    requires w.abs(req.path).Some? && w.abs(req.path).value != []
    ensures Check(w, mode, req, ctx) != Deny
  {
    DeniedExactly(w, mode, req, ctx);
  }

  lemma AnyContainsExactly(w: World, dirs: seq<string>, path: seq<string>)
    requires w.Clean() && CleanPath(path)
    ensures AnyContains(w, dirs, path) <==> exists i :: 0 <= i < |dirs| && LiesUnder(w, path, dirs[i])
  {
    forall i | 0 <= i < |dirs| && w.abs(dirs[i]).Some?
      ensures Within(path, w.abs(dirs[i]).value) <==> LiesUnder(w, path, dirs[i])
    {
      WithinIsContainment(path, w.abs(dirs[i]).value);
    }
  }

  /** A denied directory holds the request's path, by elements. */
  ghost predicate Barred(w: World, req: Request, ctx: Context) {
    && req.path != "" && w.abs(req.path).Some?
    && exists i :: 0 <= i < |ctx.denied| && LiesUnder(w, w.abs(req.path).value, ctx.denied[i])
  }

  /** The request's path lies, by elements, in the workspace or a trusted directory. */
  ghost predicate Inside(w: World, req: Request, ctx: Context) {
    && req.path != "" && w.abs(req.path).Some?
    && var p := w.abs(req.path).value;
       || (ctx.workspace != "" && LiesUnder(w, p, ctx.workspace))
       || exists i :: 0 <= i < |ctx.trusted| && LiesUnder(w, p, ctx.trusted[i])
  }

  lemma InsideExactly(w: World, req: Request, ctx: Context)
    requires w.Clean()
    ensures IsPathInWorkspace(w, req.path, ctx) <==> Inside(w, req, ctx)
  {
    if w.abs(req.path).Some? {
      var p := w.abs(req.path).value;
      AnyContainsExactly(w, ctx.trusted, p);
      if w.abs(ctx.workspace).Some? {
        WithinIsContainment(p, w.abs(ctx.workspace).value);
      }
    }
  }

  /** Writing or deleting a file is allowed exactly outside the denied directories, and then in
      Yolo anywhere, in Safe and Auto inside the workspace or a trusted directory, and in no
      other mode. */
  lemma WriteAllowedExactly(w: World, mode: Mode, req: Request, ctx: Context)
    requires w.Clean() && (req.operation == Write || req.operation == Delete)
    ensures Check(w, mode, req, ctx) == Allow <==>
            !Barred(w, req, ctx) && (mode == Yolo || ((mode == Safe || mode == Auto) && Inside(w, req, ctx)))
  {
    DeniedExactly(w, mode, req, ctx);
    InsideExactly(w, req, ctx);
  }

  /** Reading, files or git, is allowed everywhere outside the denied directories. */
  lemma ReadAllowedExactly(w: World, mode: Mode, req: Request, ctx: Context)
    requires w.Clean() && (req.operation == Read || req.operation == GitRead)
    ensures Check(w, mode, req, ctx) == Allow <==> !Barred(w, req, ctx)
  {
    DeniedExactly(w, mode, req, ctx);
  }

  /** Shell commands that read: any in Yolo and Auto, those that look read-only in Safe. Those
      that write: any in Yolo, those that target the workspace in Auto. */
  lemma ShellAllowedExactly(w: World, mode: Mode, req: Request, ctx: Context)
    requires w.Clean()
    ensures req.operation == ShellRead ==>
              (Check(w, mode, req, ctx) == Allow <==>
               !Barred(w, req, ctx) && (mode == Yolo || mode == Auto || (mode == Safe && w.readOnly(req.command))))
    ensures req.operation == ShellWrite ==>
              (Check(w, mode, req, ctx) == Allow <==>
               !Barred(w, req, ctx) && (mode == Yolo || (mode == Auto && w.targetsWorkspace(req.command))))
  {
    DeniedExactly(w, mode, req, ctx);
  }

  /** Network access, from the shell or direct: in Yolo, and in Auto where the context allows it. */
  lemma NetworkAllowedExactly(w: World, mode: Mode, req: Request, ctx: Context)
    requires w.Clean() && (req.operation == Network || req.operation == ShellNetwork)
    ensures Check(w, mode, req, ctx) == Allow <==>
            !Barred(w, req, ctx) && (mode == Yolo || (mode == Auto && ctx.allowNetwork))
  {
    DeniedExactly(w, mode, req, ctx);
  }

  /** Git writes: in Yolo, in Safe those that name no remote command, in Auto those that are no
      forced push. */
  lemma GitWriteAllowedExactly(w: World, mode: Mode, req: Request, ctx: Context)
    requires w.Clean() && req.operation == GitWrite
    ensures var lower := ToLowerAscii(req.command);
            var remote := || Contains(lower, "git push") || Contains(lower, "git fetch") || Contains(lower, "git pull")
                          || Contains(lower, "git clone") || Contains(lower, "git remote");
            var forced := Contains(lower, "push") && (Contains(lower, "-f") || Contains(lower, "--force"));
            Check(w, mode, req, ctx) == Allow <==>
            !Barred(w, req, ctx) && (mode == Yolo || (mode == Safe && !remote) || (mode == Auto && !forced))
  {
    DeniedExactly(w, mode, req, ctx);
    LocalExactly(req.command);
  }

  lemma LocalExactly(command: string)
    ensures var lower := ToLowerAscii(command);
            IsLocalGitCommand(command) <==>
            && !Contains(lower, "git push") && !Contains(lower, "git fetch") && !Contains(lower, "git pull")
            && !Contains(lower, "git clone") && !Contains(lower, "git remote")
  {
    assert REMOTE_COMMANDS[0] == "git push" && REMOTE_COMMANDS[1] == "git fetch" && REMOTE_COMMANDS[2] == "git pull";
    assert REMOTE_COMMANDS[3] == "git clone" && REMOTE_COMMANDS[4] == "git remote";
  }

  /** An operation of no known kind is allowed in Yolo only; and whatever is neither allowed nor
      denied is asked about. */
  lemma OtherwiseAsked(w: World, mode: Mode, req: Request, ctx: Context)
    requires w.Clean()
    ensures req.operation == OtherOperation ==>
              (Check(w, mode, req, ctx) == Allow <==> !Barred(w, req, ctx) && mode == Yolo)
    ensures Check(w, mode, req, ctx) == Deny <==> Barred(w, req, ctx)
    ensures Check(w, mode, req, ctx) != Allow && !Barred(w, req, ctx) ==> Check(w, mode, req, ctx) == Prompt
  {
    DeniedExactly(w, mode, req, ctx);
  }

  function Rank(mode: Mode): nat {
    match mode
    case Ask => 0
    case Safe => 1
    case Auto => 2
    case Yolo => 3
    case OtherMode => 4
  }

  /** The git writes that Safe waves through as local and Auto stops as a force push. */
  predicate LooksBoth(w: World, req: Request, ctx: Context) {
    && req.operation == GitWrite
    && !(req.path != "" && IsPathDenied(w, req.path, ctx))
    && IsLocalGitCommand(req.command) && IsForcePush(req.command)
  }

  /** A freer mode allows whatever a stricter one does, except exactly for those git writes
      between Safe and Auto. */
  lemma ModesWiden(w: World, strict: Mode, free: Mode, req: Request, ctx: Context)
    requires Rank(strict) <= Rank(free) <= 3
    ensures (Check(w, strict, req, ctx) == Allow ==> Check(w, free, req, ctx) == Allow)
       <==> !(strict == Safe && free == Auto && LooksBoth(w, req, ctx))
  {
  }

  const STASH_PUSH := "git stash push -f"

  lemma StashPushIsLower()
    ensures ToLowerAscii(STASH_PUSH) == STASH_PUSH
  {
    forall i | 0 <= i < |STASH_PUSH| ensures LowerAscii(STASH_PUSH[i]) == STASH_PUSH[i] {
      assert STASH_PUSH[i] in STASH_PUSH[..9] + STASH_PUSH[9..];
    }
  }

  lemma StashPushIsLocal(remote: string)
    requires |remote| > 4 && remote[0] == 'g' && remote[4] != 's'
    ensures !Contains(STASH_PUSH, remote)
  {
    forall k | 0 <= k <= |STASH_PUSH| ensures !(remote <= STASH_PUSH[k..]) {
      StashPushHasOneG(k);
    }
  }

  /** What follows any position of the command but the first does not start with `g`, and the
      word after `git` starts with `s`. */
  lemma StashPushHasOneG(k: nat)
    requires k <= |STASH_PUSH|
    ensures var rest := STASH_PUSH[k..]; rest == "" || rest[0] != 'g' || (|rest| > 4 && rest[4] == 's')
  {
    assert k < |STASH_PUSH| ==> STASH_PUSH[k..][0] == STASH_PUSH[k];
    assert STASH_PUSH[0..][4] == 's';
  }

  /** The exception is real. */
  lemma StashPushLooksBoth(w: World, ctx: Context)
    ensures LooksBoth(w, Request(GitWrite, "", STASH_PUSH), ctx)
  {
    StashPushIsLower();
    assert "push" <= STASH_PUSH[10..];
    assert "-f" <= STASH_PUSH[15..];
    forall i | 0 <= i < |REMOTE_COMMANDS| ensures !Contains(STASH_PUSH, REMOTE_COMMANDS[i]) {
      StashPushIsLocal(REMOTE_COMMANDS[i]);
    }
  }
}

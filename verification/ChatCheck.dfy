/** The chat check runner: scripted turns against a model, judged by a chain of checks. */
module ChatCheck {
  import opened Text

  datatype Usage = Usage(prompt: int, completion: int, total: int) {
    function Plus(u: Usage): Usage {
      Usage(prompt + u.prompt, completion + u.completion, total + u.total)
    }
  }

  const NO_USAGE := Usage(0, 0, 0)

  datatype Turn = Turn(
    user: string, wantContains: seq<string>, wantNotContains: seq<string>, wantRegex: seq<string>,
    minChars: int, maxChars: int, maxToolCalls: Option<int>)

  /** First choice of a response; `text` is absent when it could not be extracted. */
  datatype Choice = Choice(text: Option<string>, reasoning: string, toolCalls: nat)

  /** What the client answers to one request. */
  datatype Reply = ClientError | NoResponse | Response(usage: Usage, choice: Option<Choice>)

  datatype Message = System(content: string) | User(content: string) | Assistant(content: string)

  datatype CheckName = NonEmptyText | MinChars | MaxChars | ContainsText | NotContainsText | MatchesRegex | MaxToolCalls

  datatype CheckResult = CheckResult(name: CheckName, passed: bool)

  datatype TurnResult = TurnResult(user: string, text: string, usage: Usage, failed: bool, passed: bool, checks: seq<CheckResult>)

  datatype Result = Result(passed: bool, failed: bool, usage: Usage, turns: seq<TurnResult>)

  /** Go's regular expressions: which patterns compile and which texts they match. */
  datatype Regex = Regex(compiles: iset<string>, matches: iset<(string, string)>)

  /** Length in bytes of the UTF-8 form, which is what the length limits count. */
  function ByteLength(s: string): nat
    decreases |s|
  {
    if s == "" then 0
    else
      var c := s[0] as int;
      (if c < 0x80 then 1 else if c < 0x800 then 2 else if c < 0x10000 then 3 else 4) + ByteLength(s[1..])
  }

  // ---- What a turn must satisfy ----

  /** The text judged: the content, or the reasoning when there is no content; trimmed. */
  function Answer(c: Choice): string {
    var text := if c.text.Some? then c.text.value else "";
    if Blank(text) && !Blank(c.reasoning) then TrimSpace(c.reasoning) else TrimSpace(text)
  }

  predicate Extractable(c: Choice) { c.text.Some? || !Blank(c.reasoning) }

  predicate LengthOk(turn: Turn, text: string) {
    && (turn.minChars > 0 ==> ByteLength(text) >= turn.minChars)
    && (turn.maxChars > 0 ==> ByteLength(text) <= turn.maxChars)
  }

  predicate HasAll(text: string, wants: seq<string>) {
    forall i | 0 <= i < |wants| :: Blank(wants[i]) || Contains(text, TrimSpace(wants[i]))
  }

  predicate HasNone(text: string, forbidden: seq<string>) {
    forall i | 0 <= i < |forbidden| :: Blank(forbidden[i]) || !Contains(text, TrimSpace(forbidden[i]))
  }

  predicate MatchesAll(re: Regex, text: string, patterns: seq<string>) {
    forall i | 0 <= i < |patterns| ::
      Blank(patterns[i]) || (TrimSpace(patterns[i]) in re.compiles && (TrimSpace(patterns[i]), text) in re.matches)
  }

  predicate ToolCallsOk(turn: Turn, calls: nat) {
    turn.maxToolCalls.Some? ==> calls <= turn.maxToolCalls.value
  }

  /** The checks of a turn, as one conjunction. */
  predicate ChoiceOk(re: Regex, turn: Turn, c: Choice) {
    var text := Answer(c);
    && Extractable(c) && text != "" && LengthOk(turn, text)
    && HasAll(text, turn.wantContains) && HasNone(text, turn.wantNotContains)
    && MatchesAll(re, text, turn.wantRegex) && ToolCallsOk(turn, c.toolCalls)
  }

  predicate TurnOk(re: Regex, turn: Turn, reply: Reply) {
    !Blank(turn.user) && reply.Response? && reply.choice.Some? && ChoiceOk(re, turn, reply.choice.value)
  }

  // ---- The chain of checks ----

  /** Checks recorded so far: all passed, or all but the last. */
  predicate Chain(checks: seq<CheckResult>, ok: bool) {
    && (forall i | 0 <= i < |checks| - 1 :: checks[i].passed)
    && (checks != [] ==> checks[|checks| - 1].passed == ok)
  }

  predicate AllPassed(checks: seq<CheckResult>) {
    forall i | 0 <= i < |checks| :: checks[i].passed
  }

  method CheckContains(text: string, wants: seq<string>, checks: seq<CheckResult>) returns (ok: bool, checks': seq<CheckResult>)
    requires AllPassed(checks)
    ensures ok == HasAll(text, wants)
    ensures if ok then AllPassed(checks') else Chain(checks', false) && checks' != []
  {
    checks' := checks;
    for i := 0 to |wants|
      invariant AllPassed(checks') && HasAll(text, wants[..i])
    {
      assert wants[..i + 1][i] == wants[i];
      assert forall k | 0 <= k < i :: wants[..i + 1][k] == wants[..i][k];
      if Blank(wants[i]) {
        continue;
      }
      if !Contains(text, TrimSpace(wants[i])) {
        return false, checks' + [CheckResult(ContainsText, false)];
      }
      checks' := checks' + [CheckResult(ContainsText, true)];
    }
    assert wants[..|wants|] == wants;
    return true, checks';
  }

  method CheckNotContains(text: string, forbidden: seq<string>, checks: seq<CheckResult>) returns (ok: bool, checks': seq<CheckResult>)
    requires AllPassed(checks)
    ensures ok == HasNone(text, forbidden)
    ensures if ok then AllPassed(checks') else Chain(checks', false) && checks' != []
  {
    checks' := checks;
    for i := 0 to |forbidden|
      invariant AllPassed(checks') && HasNone(text, forbidden[..i])
    {
      assert forbidden[..i + 1][i] == forbidden[i];
      assert forall k | 0 <= k < i :: forbidden[..i + 1][k] == forbidden[..i][k];
      if Blank(forbidden[i]) {
        continue;
      }
      if Contains(text, TrimSpace(forbidden[i])) {
        return false, checks' + [CheckResult(NotContainsText, false)];
      }
      checks' := checks' + [CheckResult(NotContainsText, true)];
    }
    assert forbidden[..|forbidden|] == forbidden;
    return true, checks';
  }

  method CheckRegex(re: Regex, text: string, patterns: seq<string>, checks: seq<CheckResult>) returns (ok: bool, checks': seq<CheckResult>)
    requires AllPassed(checks)
    ensures ok == MatchesAll(re, text, patterns)
    ensures if ok then AllPassed(checks') else Chain(checks', false) && checks' != []
  {
    checks' := checks;
    for i := 0 to |patterns|
      invariant AllPassed(checks') && MatchesAll(re, text, patterns[..i])
    {
      assert patterns[..i + 1][i] == patterns[i];
      assert forall k | 0 <= k < i :: patterns[..i + 1][k] == patterns[..i][k];
      if Blank(patterns[i]) {
        continue;
      }
      var pattern := TrimSpace(patterns[i]);
      if pattern !in re.compiles {
        return false, checks' + [CheckResult(MatchesRegex, false)];
      }
      if (pattern, text) !in re.matches {
        return false, checks' + [CheckResult(MatchesRegex, false)];
      }
      checks' := checks' + [CheckResult(MatchesRegex, true)];
    }
    assert patterns[..|patterns|] == patterns;
    return true, checks';
  }

  method CheckLength(turn: Turn, text: string, checks: seq<CheckResult>) returns (ok: bool, checks': seq<CheckResult>)
    requires AllPassed(checks)
    ensures ok == LengthOk(turn, text)
    ensures if ok then AllPassed(checks') else Chain(checks', false) && checks' != []
  {
    checks' := checks;
    if turn.minChars > 0 && ByteLength(text) < turn.minChars {
      return false, checks' + [CheckResult(MinChars, false)];
    }
    if turn.minChars > 0 {
      checks' := checks' + [CheckResult(MinChars, true)];
    }
    if turn.maxChars > 0 && ByteLength(text) > turn.maxChars {
      return false, checks' + [CheckResult(MaxChars, false)];
    }
    if turn.maxChars > 0 {
      checks' := checks' + [CheckResult(MaxChars, true)];
    }
    return true, checks';
  }

  /** The whole chain, stopping at the first failure: it passes iff the conjunction holds,
      and only the last check recorded can have failed. */
  method CheckChoice(re: Regex, turn: Turn, c: Choice) returns (ok: bool, checks: seq<CheckResult>)
    ensures ok == ChoiceOk(re, turn, c)
    ensures Chain(checks, ok)
  {
    checks := [];
    if c.text.None? && Blank(c.reasoning) {
      return false, [];
    }
    var text := Answer(c);
    if text == "" {
      return false, [CheckResult(NonEmptyText, false)];
    }
    checks := [CheckResult(NonEmptyText, true)];
    ok, checks := CheckLength(turn, text, checks);
    if !ok { return; }
    ok, checks := CheckContains(text, turn.wantContains, checks);
    if !ok { return; }
    ok, checks := CheckNotContains(text, turn.wantNotContains, checks);
    if !ok { return; }
    ok, checks := CheckRegex(re, text, turn.wantRegex, checks);
    if !ok { return; }
    if turn.maxToolCalls.Some? && c.toolCalls > turn.maxToolCalls.value {
      return false, checks + [CheckResult(MaxToolCalls, false)];
    }
    if turn.maxToolCalls.Some? {
      checks := checks + [CheckResult(MaxToolCalls, true)];
    }
    return true, checks;
  }

  function UsageOf(reply: Reply): Usage {
    if reply.Response? then reply.usage else NO_USAGE
  }

  function AnswerOf(reply: Reply): string {
    if reply.Response? && reply.choice.Some? then Answer(reply.choice.value) else ""
  }

  /** One turn after the client answered. */
  method JudgeReply(re: Regex, turn: Turn, reply: Reply) returns (result: TurnResult)
    requires !Blank(turn.user)
    ensures result.passed == !result.failed == TurnOk(re, turn, reply)
    ensures result.usage == UsageOf(reply)
    ensures result.passed ==> result.text == AnswerOf(reply)
    ensures Chain(result.checks, result.passed)
  {
    result := TurnResult(TrimSpace(turn.user), "", NO_USAGE, true, false, []);
    if reply.ClientError? || reply.NoResponse? {
      return;
    }
    result := result.(usage := reply.usage);
    if reply.choice.None? {
      return;
    }
    var ok, checks := CheckChoice(re, turn, reply.choice.value);
    result := result.(text := Answer(reply.choice.value), failed := !ok, passed := ok, checks := checks);
  }

  // ---- A scenario ----

  function TotalUsage(turns: seq<TurnResult>): Usage
    decreases |turns|
  {
    if turns == [] then NO_USAGE else TotalUsage(turns[..|turns| - 1]).Plus(turns[|turns| - 1].usage)
  }

  /** What the turns ask and what the replies answer, as the transcript shows them. */
  function Prompts(turns: seq<Turn>): (prompts: seq<string>)
    ensures |prompts| == |turns|
  {
    seq(|turns|, i requires 0 <= i < |turns| => TrimSpace(turns[i].user))
  }

  function Answers(replies: seq<Reply>): (answers: seq<string>)
    ensures |answers| == |replies|
  {
    seq(|replies|, i requires 0 <= i < |replies| => AnswerOf(replies[i]))
  }

  function Verdicts(re: Regex, turns: seq<Turn>, replies: seq<Reply>): (verdicts: seq<bool>)
    requires |turns| <= |replies|
    ensures |verdicts| == |turns|
  {
    seq(|turns|, i requires 0 <= i < |turns| => TurnOk(re, turns[i], replies[i]))
  }

  /** What the client charges for a turn; a blank prompt is never sent. */
  function TurnUsage(turn: Turn, reply: Reply): Usage {
    if Blank(turn.user) then NO_USAGE else UsageOf(reply)
  }

  function Usages(turns: seq<Turn>, replies: seq<Reply>): (usages: seq<Usage>)
    requires |turns| <= |replies|
    ensures |usages| == |turns|
  {
    seq(|turns|, i requires 0 <= i < |turns| => TurnUsage(turns[i], replies[i]))
  }

  function UsageUpTo(usages: seq<Usage>, n: nat): Usage
    requires n <= |usages|
    decreases n
  {
    if n == 0 then NO_USAGE else UsageUpTo(usages, n - 1).Plus(usages[n - 1])
  }

  /** How many turns are taken from turn `i` on: all of them, or up to the first that fails. */
  function TurnsTaken(verdicts: seq<bool>, i: nat): (n: nat)
    requires i <= |verdicts|
    ensures i <= n <= |verdicts|
    decreases |verdicts| - i
  {
    if i == |verdicts| then i else if !verdicts[i] then i + 1 else TurnsTaken(verdicts, i + 1)
  }

  predicate AllTrue(verdicts: seq<bool>) {
    forall i | 0 <= i < |verdicts| :: verdicts[i]
  }

  predicate AllTurnsOk(re: Regex, turns: seq<Turn>, replies: seq<Reply>)
    requires |turns| <= |replies|
  {
    AllTrue(Verdicts(re, turns, replies))
  }

  function Preamble(system: string): seq<Message> {
    if Blank(system) then [] else [System(TrimSpace(system))]
  }

  /** The conversation after `k` turns: every exchange so far, in order. */
  function Transcript(preamble: seq<Message>, prompts: seq<string>, answers: seq<string>, k: nat): seq<Message>
    requires k <= |prompts| && k <= |answers|
    decreases k
  {
    if k == 0 then preamble
    else Transcript(preamble, prompts, answers, k - 1) + [User(prompts[k - 1]), Assistant(answers[k - 1])]
  }

  /** The messages of request `k`: every earlier exchange in order and the turn's own prompt. */
  function RequestAt(preamble: seq<Message>, prompts: seq<string>, answers: seq<string>, k: nat): seq<Message>
    requires k < |prompts| && k <= |answers|
  {
    Transcript(preamble, prompts, answers, k) + [User(prompts[k])]
  }

  /** Nothing failed and something passed. */
  predicate Finished(result: Result) {
    && !result.failed && result.turns != []
    && forall i | 0 <= i < |result.turns| :: result.turns[i].passed && !result.turns[i].failed
  }

  /** `finalizeResult`. */
  method Finalize(result: Result) returns (final: Result)
    ensures final == result.(passed := Finished(result))
  {
    if result.failed || |result.turns| == 0 {
      return result.(passed := false);
    }
    for i := 0 to |result.turns|
      invariant forall j | 0 <= j < i :: result.turns[j].passed && !result.turns[j].failed
    {
      if !result.turns[i].passed || result.turns[i].failed {
        return result.(passed := false);
      }
    }
    return result.(passed := true);
  }

  /** Appending a turn to a result that has not failed. */
  function Record(result: Result, turn: TurnResult): Result {
    result.(usage := result.usage.Plus(turn.usage), turns := result.turns + [turn], failed := turn.failed)
  }

  predicate Consistent(result: Result) {
    && result.usage == TotalUsage(result.turns)
    && forall i | 0 <= i < |result.turns| ::
         result.turns[i].passed == !result.turns[i].failed && Chain(result.turns[i].checks, result.turns[i].passed)
  }

  /** Every turn so far passed. */
  predicate Clean(result: Result) {
    !result.failed && forall i | 0 <= i < |result.turns| :: result.turns[i].passed
  }

  lemma RecordKeeps(result: Result, turn: TurnResult)
    requires Consistent(result) && Clean(result)
    requires turn.passed == !turn.failed && Chain(turn.checks, turn.passed)
    ensures Consistent(Record(result, turn))
    ensures Clean(Record(result, turn)) == turn.passed
  {
    UsageAppend(result.turns, turn);
  }

  lemma UsageAppend(turns: seq<TurnResult>, turn: TurnResult)
    ensures TotalUsage(turns + [turn]) == TotalUsage(turns).Plus(turn.usage)
  {
    if turns != [] {
      assert (turns + [turn])[..|turns|] == turns;
    }
  }

  lemma CleanIsFinished(result: Result)
    requires Consistent(result) && Clean(result) == !result.failed && result.turns != []
    ensures Finished(result) == !result.failed
  {
  }

  /** One turn: the prompt, the request, the judgement. A blank prompt fails without one. */
  method TakeTurn(re: Regex, turn: Turn, reply: Reply, result: Result, messages: seq<Message>)
    returns (result': Result, messages': seq<Message>, request: Option<seq<Message>>, judged: TurnResult)
    requires Consistent(result) && Clean(result)
    ensures result' == Record(result, judged) && judged.usage == TurnUsage(turn, reply)
    ensures Consistent(result') && Clean(result') == TurnOk(re, turn, reply)
    ensures result'.failed == !TurnOk(re, turn, reply)
    ensures request == if Blank(turn.user) then None else Some(messages + [User(TrimSpace(turn.user))])
    ensures TurnOk(re, turn, reply) ==>
              messages' == messages + [User(TrimSpace(turn.user)), Assistant(AnswerOf(reply))]
  {
    var user := TrimSpace(turn.user);
    messages' := messages;
    if user == "" {
      judged := TurnResult("", "", NO_USAGE, true, false, []);
      request := None;
    } else {
      messages' := messages' + [User(user)];
      request := Some(messages');
      judged := JudgeReply(re, turn, reply);
    }
    RecordKeeps(result, judged);
    result' := Record(result, judged);
    if !judged.failed {
      messages' := messages' + [Assistant(judged.text)];
    }
  }

  /** The first `n` requests, in order. */
  function FirstRequests(preamble: seq<Message>, prompts: seq<string>, answers: seq<string>, n: nat): (requests: seq<seq<Message>>)
    requires n <= |prompts| <= |answers|
    ensures |requests| == n
    decreases n
  {
    if n == 0 then [] else FirstRequests(preamble, prompts, answers, n - 1) + [RequestAt(preamble, prompts, answers, n - 1)]
  }

  lemma {:induction false} FirstRequestsAt(preamble: seq<Message>, prompts: seq<string>, answers: seq<string>, n: nat, k: nat)
    requires k < n <= |prompts| <= |answers|
    ensures FirstRequests(preamble, prompts, answers, n)[k] == RequestAt(preamble, prompts, answers, k)
    decreases n
  {
    if k < n - 1 {
      FirstRequestsAt(preamble, prompts, answers, n - 1, k);
    }
  }

  /** What a run is judged against. */
  datatype Script = Script(preamble: seq<Message>, prompts: seq<string>, answers: seq<string>, verdicts: seq<bool>, usages: seq<Usage>) {
    predicate Has(re: Regex, turn: Turn, reply: Reply, i: nat) {
      && i < |prompts| <= |answers| && |verdicts| == |prompts| == |usages|
      && prompts[i] == TrimSpace(turn.user) && answers[i] == AnswerOf(reply)
      && verdicts[i] == TurnOk(re, turn, reply) && usages[i] == TurnUsage(turn, reply)
    }
  }

  function ScriptOf(re: Regex, system: string, turns: seq<Turn>, replies: seq<Reply>): Script
    requires |turns| <= |replies|
  {
    Script(Preamble(system), Prompts(turns), Answers(replies), Verdicts(re, turns, replies), Usages(turns, replies))
  }

  lemma ScriptHas(re: Regex, system: string, turns: seq<Turn>, replies: seq<Reply>, i: nat)
    requires i < |turns| <= |replies|
    ensures ScriptOf(re, system, turns, replies).Has(re, turns[i], replies[i], i)
  {
  }

  /** The runner's variables. */
  datatype Progress = Progress(result: Result, messages: seq<Message>, requests: seq<seq<Message>>)

  ghost predicate AskedInOrder(sc: Script, requests: seq<seq<Message>>) {
    && |requests| <= |sc.prompts| <= |sc.answers|
    && requests == FirstRequests(sc.preamble, sc.prompts, sc.answers, |requests|)
  }

  /** Every recorded turn carries what its own reply cost. */
  predicate Billed(turns: seq<TurnResult>, usages: seq<Usage>) {
    |turns| <= |usages| && forall k | 0 <= k < |turns| :: turns[k].usage == usages[k]
  }

  lemma {:induction false} BilledTotal(turns: seq<TurnResult>, usages: seq<Usage>)
    requires Billed(turns, usages)
    ensures TotalUsage(turns) == UsageUpTo(usages, |turns|)
    decreases |turns|
  {
    if turns != [] {
      BilledTotal(turns[..|turns| - 1], usages);
    }
  }

  lemma BilledOnceMore(turns: seq<TurnResult>, usages: seq<Usage>, turn: TurnResult)
    requires Billed(turns, usages) && |turns| < |usages| && turn.usage == usages[|turns|]
    ensures Billed(turns + [turn], usages)
  {
  }

  ghost predicate OnTrack(sc: Script, p: Progress, i: nat) {
    && i <= |sc.prompts| <= |sc.answers| && |sc.verdicts| == |sc.prompts| == |sc.usages|
    && Billed(p.result.turns, sc.usages)
    && Consistent(p.result) && Clean(p.result) && |p.result.turns| == i == |p.requests|
    && (forall k | 0 <= k < i :: sc.verdicts[k])
    && p.messages == Transcript(sc.preamble, sc.prompts, sc.answers, i)
    && AskedInOrder(sc, p.requests)
  }

  lemma AskedOnceMore(sc: Script, requests: seq<seq<Message>>)
    requires AskedInOrder(sc, requests) && |requests| < |sc.prompts|
    ensures AskedInOrder(sc, requests + [RequestAt(sc.preamble, sc.prompts, sc.answers, |requests|)])
  {
  }

  /** One pass of the loop in `Run`. */
  method Advance(re: Regex, turn: Turn, reply: Reply, p: Progress, ghost sc: Script, ghost i: nat) returns (p': Progress)
    requires OnTrack(sc, p, i) && sc.Has(re, turn, reply, i)
    ensures p'.result.failed == !sc.verdicts[i]
    ensures !p'.result.failed ==> OnTrack(sc, p', i + 1)
    ensures Consistent(p'.result) && Clean(p'.result) == !p'.result.failed && |p'.result.turns| == i + 1
    ensures AskedInOrder(sc, p'.requests) && |p'.requests| == i + if sc.prompts[i] == "" then 0 else 1
    ensures Billed(p'.result.turns, sc.usages)
  {
    var result, messages, request, judged := TakeTurn(re, turn, reply, p.result, p.messages);
    AskedOnceMore(sc, p.requests);
    BilledOnceMore(p.result.turns, sc.usages, judged);
    p' := Progress(result, messages, if request.Some? then p.requests + [request.value] else p.requests);
  }

  lemma StartsOnTrack(sc: Script)
    requires |sc.prompts| <= |sc.answers| && |sc.verdicts| == |sc.prompts| == |sc.usages|
    ensures OnTrack(sc, Progress(Result(false, false, NO_USAGE, []), sc.preamble, []), 0)
  {
  }

  /** What a run that has come to its end adds up to. */
  lemma EndsRight(sc: Script, result: Result, err: bool)
    requires Consistent(result) && Clean(result) == !result.failed && result.failed == err && result.turns != []
    requires Billed(result.turns, sc.usages) && StopsAtFirstFailure(sc.verdicts, |result.turns|, err)
    ensures Finished(result) == !err == AllTrue(sc.verdicts)
    ensures TurnsTaken(sc.verdicts, 0) == |result.turns| && result.usage == UsageUpTo(sc.usages, |result.turns|)
  {
    CleanIsFinished(result);
    TakenExactly(sc.verdicts, |result.turns|, err, 0);
    BilledTotal(result.turns, sc.usages);
  }

  /** The requests made in `n` turns: a blank prompt, which fails its turn, is not sent. */
  function RequestsMade(prompts: seq<string>, n: nat): int
    requires n <= |prompts|
  {
    if n > 0 && prompts[n - 1] == "" then n - 1 else n
  }

  /** What a whole scenario costs: the replies of the turns taken, and no others. */
  function ScenarioUsage(re: Regex, turns: seq<Turn>, replies: seq<Reply>): Usage
    requires |turns| <= |replies|
  {
    UsageUpTo(Usages(turns, replies), TurnsTaken(Verdicts(re, turns, replies), 0))
  }

  /** `Run` on a normalized scenario; `replies[i]` is the answer to the request of turn `i`.
      There is no error iff the scenario passed iff every turn meets all its checks; with an
      error the turns stop at the first that does not. Each turn is charged its own reply. */
  method Run(re: Regex, system: string, turns: seq<Turn>, replies: seq<Reply>)
    returns (result: Result, err: bool, requests: seq<seq<Message>>)
    requires 0 < |turns| <= |replies|
    ensures !err == result.passed == AllTurnsOk(re, turns, replies)
    ensures |result.turns| == TurnsTaken(Verdicts(re, turns, replies), 0)
    ensures StopsAtFirstFailure(Verdicts(re, turns, replies), |result.turns|, err)
    ensures Consistent(result)
    ensures Billed(result.turns, Usages(turns, replies)) && result.usage == ScenarioUsage(re, turns, replies)
    ensures AskedInOrder(ScriptOf(re, system, turns, replies), requests)
    ensures |requests| == RequestsMade(Prompts(turns), |result.turns|)
  {
    ghost var sc := ScriptOf(re, system, turns, replies);
    var p := Progress(Result(false, false, NO_USAGE, []), Preamble(system), []);
    StartsOnTrack(sc);
    for i := 0 to |turns|
      invariant OnTrack(sc, p, i)
      invariant |p.requests| == RequestsMade(sc.prompts, i)
    {
      ScriptHas(re, system, turns, replies, i);
      p := Advance(re, turns[i], replies[i], p, sc, i);
      if p.result.failed {
        EndsRight(sc, p.result, true);
        result := Finalize(p.result);
        return result, true, p.requests;
      }
    }
    EndsRight(sc, p.result, false);
    result := Finalize(p.result);
    return result, false, p.requests;
  }

  /** `n` turns were taken: all of them, or up to the first that fails. */
  predicate StopsAtFirstFailure(verdicts: seq<bool>, n: nat, err: bool) {
    && n <= |verdicts|
    && (forall k | 0 <= k < n - 1 :: verdicts[k])
    && (if err then n > 0 && !verdicts[n - 1] else n == |verdicts| && AllTrue(verdicts))
  }

  /** That number is fixed by the verdicts. */
  lemma {:induction false} TakenExactly(verdicts: seq<bool>, n: nat, err: bool, i: nat)
    requires StopsAtFirstFailure(verdicts, n, err) && i <= n && (i == n ==> i == |verdicts| && !err)
    ensures TurnsTaken(verdicts, i) == n
    decreases |verdicts| - i
  {
    if i < |verdicts| && verdicts[i] {
      TakenExactly(verdicts, n, err, i + 1);
    }
  }

  // ---- Suites ----

  datatype Scenario = Scenario(
    name: string, model: string, system: string, timeout: int, maxTokens: int, session: string, turns: seq<Turn>)

  const DEFAULT_MODEL := "xiaomi/mimo-v2.5-pro"
  const DEFAULT_TIMEOUT := 45
  const DEFAULT_MAX_TOKENS := 256
  const DEFAULT_NAME := "chat-check"
  const DEFAULT_SESSION := "buckley-chat-check"
  const FIRST_TOKEN := "BUCKLEY_CHAT_CHECK_ONE"
  const SECOND_TOKEN := "BUCKLEY_CHAT_CHECK_TWO"

  const DEFAULT_TURNS: seq<Turn> := [
    Turn("Reply with the exact token BUCKLEY_CHAT_CHECK_ONE and no markdown.", [FIRST_TOKEN], [], [], 8, 0, None),
    Turn("Name the exact token requested in the previous user message, then include BUCKLEY_CHAT_CHECK_TWO.",
         [FIRST_TOKEN, SECOND_TOKEN], [], [], 16, 0, None)]

  function OrDefault(s: string, default: string): string {
    if Blank(s) then default else TrimSpace(s)
  }

  /** `NormalizeScenario`; tags and description play no part in a run. */
  function Normalize(s: Scenario): (n: Scenario)
    ensures n.turns != [] && n.maxTokens > 0 && n.timeout > 0
  {
    Scenario(OrDefault(s.name, DEFAULT_NAME), OrDefault(s.model, DEFAULT_MODEL), TrimSpace(s.system),
             if s.timeout <= 0 then DEFAULT_TIMEOUT else s.timeout,
             if s.maxTokens <= 0 then DEFAULT_MAX_TOKENS else s.maxTokens,
             OrDefault(s.session, DEFAULT_SESSION),
             if s.turns == [] then DEFAULT_TURNS else s.turns)
  }

  lemma OrDefaultTwice(s: string, default: string)
    requires !Blank(default) && TrimSpace(default) == default
    ensures OrDefault(OrDefault(s, default), default) == OrDefault(s, default)
  {
    TrimSpaceIdempotent(s);
  }

  lemma DefaultIsTrimmed(s: string)
    requires s != "" && !IsSpace(s[0]) && !IsSpace(s[|s| - 1])
    ensures !Blank(s) && TrimSpace(s) == s
  {
    TrimFixed(s, WhiteSpace);
  }

  /** The suite normalizes before `Run` normalizes again; the second time changes nothing. */
  lemma NormalizeTwice(s: Scenario)
    ensures Normalize(Normalize(s)) == Normalize(s)
  {
    DefaultIsTrimmed(DEFAULT_NAME);
    DefaultIsTrimmed(DEFAULT_MODEL);
    DefaultIsTrimmed(DEFAULT_SESSION);
    OrDefaultTwice(s.name, DEFAULT_NAME);
    OrDefaultTwice(s.model, DEFAULT_MODEL);
    OrDefaultTwice(s.session, DEFAULT_SESSION);
    TrimSpaceIdempotent(s.system);
  }

  datatype SuiteResult = SuiteResult(
    passed: bool, usage: Usage, scenarioCount: nat, passedScenarios: nat, failedScenarios: nat, results: seq<Result>)

  function SuiteUsage(results: seq<Result>): Usage
    decreases |results|
  {
    if results == [] then NO_USAGE else SuiteUsage(results[..|results| - 1]).Plus(results[|results| - 1].usage)
  }

  function CountPassed(results: seq<Result>): nat
    decreases |results|
  {
    if results == [] then 0
    else CountPassed(results[..|results| - 1]) + (if results[|results| - 1].passed then 1 else 0)
  }

  lemma {:induction false} AllPassedCount(results: seq<Result>)
    ensures CountPassed(results) <= |results|
    ensures CountPassed(results) == |results| <==> forall i | 0 <= i < |results| :: results[i].passed
    decreases |results|
  {
    if results != [] {
      AllPassedCount(results[..|results| - 1]);
    }
  }

  lemma SuiteAppend(results: seq<Result>, result: Result)
    ensures SuiteUsage(results + [result]) == SuiteUsage(results).Plus(result.usage)
    ensures CountPassed(results + [result]) == CountPassed(results) + if result.passed then 1 else 0
  {
    if results != [] {
      assert (results + [result])[..|results|] == results;
    }
  }

  /** `finalizeSuiteResult`. */
  method FinalizeSuite(suite: SuiteResult) returns (final: SuiteResult)
    ensures final.results == suite.results && final.usage == suite.usage && final.scenarioCount == suite.scenarioCount
    ensures final.passedScenarios == CountPassed(suite.results)
    ensures final.passedScenarios + final.failedScenarios == |suite.results|
    ensures final.passed == (suite.scenarioCount > 0 && final.failedScenarios == 0 && |suite.results| == suite.scenarioCount)
  {
    var passed, failed := 0, 0;
    for i := 0 to |suite.results|
      invariant passed == CountPassed(suite.results[..i]) && passed + failed == i
    {
      assert suite.results[..i + 1] == suite.results[..i] + [suite.results[i]];
      SuiteAppend(suite.results[..i], suite.results[i]);
      if suite.results[i].passed {
        passed := passed + 1;
      } else {
        failed := failed + 1;
      }
    }
    assert suite.results[..|suite.results|] == suite.results;
    final := suite.(passedScenarios := passed, failedScenarios := failed,
                    passed := suite.scenarioCount > 0 && failed == 0 && |suite.results| == suite.scenarioCount);
  }

  /** Enough answers for every turn of every scenario. */
  predicate Answered(scenarios: seq<Scenario>, replies: seq<seq<Reply>>) {
    |scenarios| == |replies|
    && forall i | 0 <= i < |scenarios| :: |Normalize(scenarios[i]).turns| <= |replies[i]|
  }

  /** Which scenarios should pass. */
  ghost function Goals(re: Regex, scenarios: seq<Scenario>, replies: seq<seq<Reply>>): (goals: seq<bool>)
    requires Answered(scenarios, replies)
    ensures |goals| == |scenarios|
  {
    seq(|scenarios|, i requires 0 <= i < |scenarios| => AllTurnsOk(re, Normalize(scenarios[i]).turns, replies[i]))
  }

  lemma GoalsMet(re: Regex, scenarios: seq<Scenario>, replies: seq<seq<Reply>>, results: seq<Result>)
    requires Answered(scenarios, replies) && |results| == |scenarios|
    requires forall j | 0 <= j < |results| :: results[j].passed == Goals(re, scenarios, replies)[j]
    ensures (forall j | 0 <= j < |results| :: results[j].passed)
       <==> forall i | 0 <= i < |scenarios| :: AllTurnsOk(re, Normalize(scenarios[i]).turns, replies[i])
  {
    ghost var goals := Goals(re, scenarios, replies);
    assert forall i | 0 <= i < |scenarios| :: goals[i] == AllTurnsOk(re, Normalize(scenarios[i]).turns, replies[i]);
    assert forall j | 0 <= j < |results| :: results[j].passed == goals[j];
    if forall i | 0 <= i < |scenarios| :: AllTurnsOk(re, Normalize(scenarios[i]).turns, replies[i]) {
      assert forall j | 0 <= j < |results| :: goals[j];
    }
  }

  /** What each scenario should cost. */
  ghost function Charges(re: Regex, scenarios: seq<Scenario>, replies: seq<seq<Reply>>): (charges: seq<Usage>)
    requires Answered(scenarios, replies)
    ensures |charges| == |scenarios|
  {
    seq(|scenarios|, i requires 0 <= i < |scenarios| => ScenarioUsage(re, Normalize(scenarios[i]).turns, replies[i]))
  }

  /** The suite runner's variables. */
  datatype Tally = Tally(results: seq<Result>, usage: Usage, failures: nat) {
    ghost predicate Ok(goals: seq<bool>, charges: seq<Usage>) {
      && |results| <= |goals| == |charges| && usage == SuiteUsage(results)
      && failures + CountPassed(results) == |results|
      && forall j | 0 <= j < |results| :: results[j].passed == goals[j] && results[j].usage == charges[j]
    }
  }

  lemma TallyAppend(goals: seq<bool>, charges: seq<Usage>, t: Tally, result: Result)
    requires t.Ok(goals, charges) && |t.results| < |goals|
    requires result.passed == goals[|t.results|] && result.usage == charges[|t.results|]
    ensures Tally(t.results + [result], t.usage.Plus(result.usage), if result.passed then t.failures else t.failures + 1).Ok(goals, charges)
  {
    SuiteAppend(t.results, result);
  }

  /** `RunSuite`: every scenario is run, counted once and charged once; the suite has an
      error iff it did not pass iff some scenario did not. */
  method RunSuite(re: Regex, hasClient: bool, scenarios: seq<Scenario>, replies: seq<seq<Reply>>)
    returns (suite: Option<SuiteResult>, err: bool)
    requires Answered(scenarios, replies)
    ensures suite.None? <==> !hasClient || scenarios == []
    ensures suite.None? ==> err
    ensures suite.Some? ==>
              var r := suite.value;
              && r.scenarioCount == |scenarios| == |r.results|
              && r.passedScenarios + r.failedScenarios == |scenarios|
              && r.passedScenarios == CountPassed(r.results)
              && r.usage == SuiteUsage(r.results)
              && (!err == r.passed == (r.passedScenarios == |scenarios|))
              && (!err <==> forall i | 0 <= i < |scenarios| :: AllTurnsOk(re, Normalize(scenarios[i]).turns, replies[i]))
              && forall i | 0 <= i < |scenarios| ::
                   && r.results[i].passed == AllTurnsOk(re, Normalize(scenarios[i]).turns, replies[i])
                   && r.results[i].usage == ScenarioUsage(re, Normalize(scenarios[i]).turns, replies[i])
  {
    if !hasClient || |scenarios| == 0 {
      return None, true;
    }
    ghost var goals, charges := Goals(re, scenarios, replies), Charges(re, scenarios, replies);
    var t := Tally([], NO_USAGE, 0);
    for i := 0 to |scenarios|
      invariant |t.results| == i && t.Ok(goals, charges)
    {
      var normalized := Normalize(scenarios[i]);
      var result, failed, _ := Run(re, normalized.system, normalized.turns, replies[i]);
      assert goals[i] == result.passed && charges[i] == result.usage;
      TallyAppend(goals, charges, t, result);
      t := Tally(t.results + [result], t.usage.Plus(result.usage), if failed || !result.passed then t.failures + 1 else t.failures);
    }
    AllPassedCount(t.results);
    GoalsMet(re, scenarios, replies, t.results);
    var final := FinalizeSuite(SuiteResult(false, t.usage, |scenarios|, 0, 0, t.results));
    return Some(final), t.failures > 0;
  }

  // ---- What is judged and sent ----

  /** Content that is not blank is what is judged, trimmed; only otherwise the reasoning is, if
      that is not blank. */
  lemma ContentIsJudgedFirst(c: Choice)
    ensures c.text.Some? && TrimSpace(c.text.value) != "" ==> Answer(c) == TrimSpace(c.text.value)
    ensures (c.text.None? || TrimSpace(c.text.value) == "") ==> Answer(c) == TrimSpace(c.reasoning)
  {
    assert TrimSpace("") == "";
  }

  /** A reply costs what its response says, and nothing without a response. */
  lemma ChargesExactly(reply: Reply)
    ensures reply.Response? ==> UsageOf(reply) == reply.usage
    ensures !reply.Response? ==> UsageOf(reply) == Usage(0, 0, 0)
  {
  }

  /** The system prompt, trimmed, opens every request unless it is blank. */
  lemma PreambleExactly(system: string)
    ensures Preamble(system) == if TrimSpace(system) == "" then [] else [System(TrimSpace(system))]
  {
  }

  /** The length limits count bytes: as many as characters exactly for ASCII text. */
  lemma {:induction false} AsciiLength(s: string)
    ensures ByteLength(s) >= |s|
    ensures ByteLength(s) == |s| <==> forall i | 0 <= i < |s| :: s[i] as int < 0x80
    decreases |s|
  {
    if s != "" {
      AsciiLength(s[1..]);
      assert s == [s[0]] + s[1..];
    }
  }

  /** What a scenario says is kept, trimmed; only what it leaves out gets a default. */
  lemma NormalizeKeeps(s: Scenario)
    ensures var n := Normalize(s);
            && n.name == (if TrimSpace(s.name) != "" then TrimSpace(s.name) else "chat-check")
            && n.model == (if TrimSpace(s.model) != "" then TrimSpace(s.model) else "xiaomi/mimo-v2.5-pro")
            && n.session == (if TrimSpace(s.session) != "" then TrimSpace(s.session) else "buckley-chat-check")
            && n.system == TrimSpace(s.system)
            && n.timeout == (if s.timeout > 0 then s.timeout else 45) && n.maxTokens == (if s.maxTokens > 0 then s.maxTokens else 256)
            && (s.turns != [] ==> n.turns == s.turns) && (s.turns == [] ==> |n.turns| == 2)
  {
  }
}

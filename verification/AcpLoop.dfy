/** The agent loop: ask the model, run the tools it calls, until it answers in words. */
module AcpLoop {
  import opened Text

  datatype ToolCall = ToolCall(id: string, name: string, arguments: string)

  datatype Message =
    | SystemMessage(content: string)
    | UserMessage(content: string)
    | AssistantMessage(content: string)
    | ToolCallMessage(calls: seq<ToolCall>)
    | ToolResponse(id: string, name: string, content: string)

  datatype Status = Completed | Failed

  datatype Update = Thought(text: string) | CallStarted(id: string) | CallUpdated(id: string, status: Status)

  class Conversation {
    var messages: seq<Message>

    method Add(message: Message)
      modifies this
      ensures messages == old(messages) + [message]
    {
      messages := messages + [message];
    }
  }

  /** The client's update stream; a nil stream function is one that is not connected. */
  class Stream {
    const connected: bool
    var updates: seq<Update>

    method Send(update: Update)
      modifies this
      ensures updates == if connected then old(updates) + [update] else old(updates)
    {
      if connected {
        updates := updates + [update];
      }
    }
  }

  // ---- What the outside decides ----

  /** One tool call as it happens: was the context over before it, do the arguments parse as
      JSON, which system messages does the tool inject, what does it answer, did it succeed. */
  datatype Execution = Execution(
    cancelled: bool, json: bool, phase: string, injected: seq<string>, text: string, success: bool)

  datatype Reply =
    | ModelError(toolsUnsupported: bool)
    | NoChoices
    | Choice(content: Option<string>, calls: seq<ToolCall>)

  /** One round of the loop: cancelled before it, tools on offer, the active skills' filter,
      the model's reply, and how each call in it goes. */
  datatype Round = Round(
    cancelled: bool, toolsOffered: bool, allowed: Option<seq<string>>, phase: string,
    reply: Reply, executions: seq<Execution>)

  predicate Scripted(r: Round) {
    r.reply.Choice? ==> |r.executions| == |r.reply.calls|
  }

  // ---- Tool call identifiers ----

  function NormalizedCall(call: ToolCall, i: nat): ToolCall {
    if call.id == "" then call.(id := "tool-" + Decimal(i + 1)) else call
  }

  function Normalized(calls: seq<ToolCall>): (r: seq<ToolCall>)
    ensures |r| == |calls|
  {
    seq(|calls|, i requires 0 <= i < |calls| => NormalizedCall(calls[i], i))
  }

  /** `normalizeACPToolCallIDs`, in place. */
  method NormalizeIds(calls: array<ToolCall>)
    modifies calls
    ensures calls[..] == Normalized(old(calls[..]))
  {
    for i := 0 to calls.Length
      invariant forall j | 0 <= j < i :: calls[j] == NormalizedCall(old(calls[j]), j)
      invariant forall j | i <= j < calls.Length :: calls[j] == old(calls[j])
    {
      if calls[i].id == "" {
        calls[i] := calls[i].(id := "tool-" + Decimal(i + 1));
      }
    }
  }

  /** Afterwards no identifier is empty, given ones are kept with everything else of the call,
      and no two made-up ones agree. */
  lemma NormalizedIds(calls: seq<ToolCall>)
    ensures forall k | 0 <= k < |calls| ::
              && Normalized(calls)[k].id != ""
              && (calls[k].id != "" ==> Normalized(calls)[k] == calls[k])
              && Normalized(calls)[k].(id := "") == calls[k].(id := "")
    ensures forall i, j | 0 <= i < j < |calls| && calls[i].id == "" && calls[j].id == "" ::
              Normalized(calls)[i].id != Normalized(calls)[j].id
  {
    forall i, j | 0 <= i < j < |calls| && calls[i].id == "" && calls[j].id == ""
      ensures Normalized(calls)[i].id != Normalized(calls)[j].id
    {
      MadeUpIdsDiffer(i, j);
    }
  }

  lemma MadeUpIdsDiffer(i: nat, j: nat)
    requires i != j
    ensures "tool-" + Decimal(i + 1) != "tool-" + Decimal(j + 1)
  {
    var a, b := "tool-" + Decimal(i + 1), "tool-" + Decimal(j + 1);
    assert a[5..] == Decimal(i + 1) && b[5..] == Decimal(j + 1);
    DecimalReadsBack(i + 1);
    DecimalReadsBack(j + 1);
  }

  // ---- Well-formed transcripts ----

  predicate Responds(m: Message, call: ToolCall) {
    m.ToolResponse? && m.id == call.id && m.name == call.name
  }

  /** One response per call, in order, with the calls' identifiers. */
  predicate RespondsAll(responses: seq<Message>, calls: seq<ToolCall>) {
    |responses| == |calls| && forall i | 0 <= i < |calls| :: Responds(responses[i], calls[i])
  }

  /** The first `n` calls have their responses. */
  predicate RespondsUpTo(responses: seq<Message>, calls: seq<ToolCall>, n: nat) {
    |responses| == n <= |calls| && forall i | 0 <= i < n :: Responds(responses[i], calls[i])
  }

  lemma OneMoreAnswer(responses: seq<Message>, calls: seq<ToolCall>, n: nat, response: Message)
    requires RespondsUpTo(responses, calls, n) && n < |calls| && Responds(response, calls[n])
    ensures RespondsUpTo(responses + [response], calls, n + 1)
  {
  }

  /** Every tool-call message is followed at once by its responses, and no response stands
      anywhere else. */
  predicate Answered(ms: seq<Message>)
    decreases |ms|
  {
    ms == [] ||
    match ms[0]
    case ToolCallMessage(calls) =>
      |ms| > |calls| && RespondsAll(ms[1..1 + |calls|], calls) && Answered(ms[1 + |calls|..])
    case ToolResponse(_, _, _) => false
    case _ => Answered(ms[1..])
  }

  lemma {:induction false} AnsweredAppend(a: seq<Message>, b: seq<Message>)
    requires Answered(a) && Answered(b)
    ensures Answered(a + b)
    decreases |a|
  {
    if a == [] {
      assert a + b == b;
    } else {
      var n := if a[0].ToolCallMessage? then 1 + |a[0].calls| else 1;
      DropOfAppend(a, b, n);
      if n < |a| {
        AnsweredAppend(a[n..], b);
      }
    }
  }

  lemma DropOfAppend(a: seq<Message>, b: seq<Message>, n: nat)
    requires 1 <= n <= |a|
    ensures (a + b)[1..n] == a[1..n]
    ensures (a + b)[n..] == if n == |a| then b else a[n..] + b
  {
  }

  /** The transcript without the system messages tools inject. */
  function Visible(ms: seq<Message>): seq<Message>
    decreases |ms|
  {
    if ms == [] then []
    else if ms[|ms| - 1].SystemMessage? then Visible(ms[..|ms| - 1])
    else Visible(ms[..|ms| - 1]) + [ms[|ms| - 1]]
  }

  lemma VisibleAppend(ms: seq<Message>, m: Message)
    ensures Visible(ms + [m]) == if m.SystemMessage? then Visible(ms) else Visible(ms) + [m]
  {
    assert (ms + [m])[..|ms|] == ms;
  }

  /** Every start is followed at once by the one update that ends it. */
  predicate Paired(us: seq<Update>)
    decreases |us|
  {
    us == [] ||
    match us[0]
    case Thought(_) => Paired(us[1..])
    case CallStarted(id) => |us| > 1 && us[1].CallUpdated? && us[1].id == id && Paired(us[2..])
    case CallUpdated(_, _) => false
  }

  lemma {:induction false} PairedAppend(a: seq<Update>, b: seq<Update>)
    requires Paired(a) && Paired(b)
    ensures Paired(a + b)
    decreases |a|
  {
    if a == [] {
      assert a + b == b;
    } else {
      var n := if a[0].CallStarted? then 2 else 1;
      PairedAppend(a[n..], b);
      assert (a + b)[n..] == a[n..] + b;
      assert a[0].CallStarted? ==> (a + b)[1] == a[1];
    }
  }

  // ---- Running the calls ----

  /** `tool.IsToolAllowed`; no filter allows everything. */
  predicate IsToolAllowed(name: string, allowed: Option<seq<string>>) {
    allowed.None? || exists i | 0 <= i < |allowed.value| :: TrimSpace(name) == TrimSpace(allowed.value[i])
  }

  predicate Parses(call: ToolCall, e: Execution) { Blank(call.arguments) || e.json }

  predicate Runs(call: ToolCall, e: Execution, allowed: Option<seq<string>>) {
    Parses(call, e) && IsToolAllowed(call.name, allowed)
  }

  /** The calls reached before a cancellation. */
  function Reached(executions: seq<Execution>): (n: nat)
    ensures n <= |executions|
    decreases |executions|
  {
    if executions == [] || executions[0].cancelled then 0 else 1 + Reached(executions[1..])
  }

  lemma {:induction false} ReachedStops(executions: seq<Execution>, i: nat)
    requires i < |executions| && i <= Reached(executions)
    ensures executions[i].cancelled <==> i == Reached(executions)
    decreases i
  {
    if i > 0 {
      ReachedStops(executions[1..], i - 1);
    }
  }

  const BAD_ARGUMENTS := "Error: invalid tool arguments"
  const NOT_ALLOWED := "Error: tool not allowed by active skills"

  /** What the transcript gets for one call: an error text, or what the tool says. */
  function Response(call: ToolCall, e: Execution, allowed: Option<seq<string>>): Message {
    ToolResponse(call.id, call.name,
                 if !Parses(call, e) then BAD_ARGUMENTS else if !IsToolAllowed(call.name, allowed) then NOT_ALLOWED else e.text)
  }

  function StatusOf(call: ToolCall, e: Execution, allowed: Option<seq<string>>): Status {
    if Runs(call, e, allowed) && e.success then Completed else Failed
  }

  /** One tool run: the call, how it went, and the filter in force. */
  datatype Ran = Ran(call: ToolCall, how: Execution, allowed: Option<seq<string>>)

  /** The tools run so far, once a call has been dealt with. */
  function WithRun(ran: seq<Ran>, call: ToolCall, e: Execution, allowed: Option<seq<string>>): seq<Ran> {
    if Runs(call, e, allowed) then ran + [Ran(call, e, allowed)] else ran
  }

  predicate Rightful(ran: seq<Ran>) {
    forall i | 0 <= i < |ran| :: Runs(ran[i].call, ran[i].how, ran[i].allowed)
  }

  lemma RunIsRightful(ran: seq<Ran>, call: ToolCall, e: Execution, allowed: Option<seq<string>>)
    requires Rightful(ran)
    ensures Rightful(WithRun(ran, call, e, allowed))
  {
  }

  /** A stretch of calls, how each goes, and the filter in force. */
  datatype Batch = Batch(calls: seq<ToolCall>, executions: seq<Execution>, allowed: Option<seq<string>>) {
    predicate Scripted() { |calls| == |executions| }

    function Responses(n: nat): (r: seq<Message>)
      requires Scripted() && n <= |calls|
      ensures |r| == n
      decreases n
    {
      if n == 0 then [] else Responses(n - 1) + [Response(calls[n - 1], executions[n - 1], allowed)]
    }

    /** What the client is told about the first `n` calls. */
    function Reports(n: nat): seq<Update>
      requires Scripted() && n <= |calls|
      decreases n
    {
      if n == 0 then []
      else Reports(n - 1) + Report(calls[n - 1], StatusOf(calls[n - 1], executions[n - 1], allowed))
    }

    /** Of the first `n` calls, those that reach a tool. */
    function Executed(n: nat): seq<Ran>
      requires Scripted() && n <= |calls|
      decreases n
    {
      if n == 0 then [] else WithRun(Executed(n - 1), calls[n - 1], executions[n - 1], allowed)
    }

    lemma {:induction false} ResponsesAnswer(n: nat)
      requires Scripted() && n <= |calls|
      ensures RespondsUpTo(Responses(n), calls, n)
      decreases n
    {
      if n == 1 {
        assert Responses(1) == [Response(calls[0], executions[0], allowed)];
      } else if n > 1 {
        ResponsesAnswer(n - 1);
        OneMoreAnswer(Responses(n - 1), calls, n - 1, Response(calls[n - 1], executions[n - 1], allowed));
      }
    }

    lemma {:induction false} ExecutedIsRightful(n: nat)
      requires Scripted() && n <= |calls|
      ensures Rightful(Executed(n))
      decreases n
    {
      if n > 0 {
        ExecutedIsRightful(n - 1);
        RunIsRightful(Executed(n - 1), calls[n - 1], executions[n - 1], allowed);
      }
    }
  }

  function Report(call: ToolCall, status: Status): seq<Update> {
    [CallStarted(call.id), CallUpdated(call.id, status)]
  }

  /** The stream without its thoughts. */
  function WithoutThoughts(us: seq<Update>): seq<Update>
    decreases |us|
  {
    if us == [] then []
    else if us[|us| - 1].Thought? then WithoutThoughts(us[..|us| - 1])
    else WithoutThoughts(us[..|us| - 1]) + [us[|us| - 1]]
  }

  lemma WithoutThoughtsAppend(us: seq<Update>, u: Update)
    ensures WithoutThoughts(us + [u]) == if u.Thought? then WithoutThoughts(us) else WithoutThoughts(us) + [u]
  {
    assert (us + [u])[..|us|] == us;
  }

  // ---- What one call leaves behind ----

  /** The conversation, the stream and the phase last shown. */
  datatype World = World(messages: seq<Message>, updates: seq<Update>, connected: bool, phase: string)

  function Snapshot(conv: Conversation, stream: Stream, phase: string): World
    reads conv, stream
  {
    World(conv.messages, stream.updates, stream.connected, phase)
  }

  function Told(w: World, u: Update): World {
    if w.connected then w.(updates := w.updates + [u]) else w
  }

  function Spoken(w: World, m: Message): World {
    w.(messages := w.messages + [m])
  }

  /** A thought is sent only when it says something new. */
  function Phased(w: World, message: string): World {
    if !w.connected || Blank(message) || TrimSpace(message) == w.phase then w
    else Told(w, Thought(TrimSpace(message))).(phase := TrimSpace(message))
  }

  function Injected(w: World, injected: seq<string>, n: nat): World
    requires n <= |injected|
    decreases n
  {
    if n == 0 then w else Spoken(Injected(w, injected, n - 1), SystemMessage(injected[n - 1]))
  }

  /** The transcript's share of a call. */
  function Answering(w: World, call: ToolCall, e: Execution, allowed: Option<seq<string>>): World {
    var w1 := if Runs(call, e, allowed) then Injected(w, e.injected, |e.injected|) else w;
    Spoken(w1, Response(call, e, allowed))
  }

  function CallDone(w: World, call: ToolCall, e: Execution, allowed: Option<seq<string>>): World {
    var started := Told(Phased(w, e.phase), CallStarted(call.id));
    Told(Answering(started, call, e, allowed), CallUpdated(call.id, StatusOf(call, e, allowed)))
  }

  function CallsDone(w: World, b: Batch, n: nat): World
    requires b.Scripted() && n <= |b.calls|
    decreases n
  {
    if n == 0 then w else CallDone(CallsDone(w, b, n - 1), b.calls[n - 1], b.executions[n - 1], b.allowed)
  }

  /** `sendACPPhaseUpdate`. */
  method SendPhase(stream: Stream, last: string, message: string, ghost conv: Conversation) returns (phase: string)
    modifies stream
    ensures Snapshot(conv, stream, phase) == Phased(old(Snapshot(conv, stream, last)), message)
  {
    var text := TrimSpace(message);
    if !stream.connected || text == "" || text == last {
      return last;
    }
    stream.Send(Thought(text));
    return text;
  }

  /** Answers one call, running its tool only if the arguments parse and the filter allows it. */
  method Respond(conv: Conversation, call: ToolCall, e: Execution, allowed: Option<seq<string>>, ghost stream: Stream, ghost phase: string)
    returns (ran: bool, status: Status)
    modifies conv
    ensures ran == Runs(call, e, allowed) && status == StatusOf(call, e, allowed)
    ensures Snapshot(conv, stream, phase) == Answering(old(Snapshot(conv, stream, phase)), call, e, allowed)
  {
    var text;
    ran, status := false, Failed;
    if !Parses(call, e) {
      text := BAD_ARGUMENTS;
    } else if !IsToolAllowed(call.name, allowed) {
      text := NOT_ALLOWED;
    } else {
      ran, text := true, e.text;
      for i := 0 to |e.injected|
        invariant Snapshot(conv, stream, phase) == Injected(old(Snapshot(conv, stream, phase)), e.injected, i)
      {
        conv.Add(SystemMessage(e.injected[i]));
      }
      if e.success {
        status := Completed;
      }
    }
    conv.Add(ToolResponse(call.id, call.name, text));
  }

  /** One call of the loop in `executeACPToolCalls`. */
  method ExecuteOne(conv: Conversation, stream: Stream, call: ToolCall, e: Execution, allowed: Option<seq<string>>, last: string, before: seq<Ran>)
    returns (phase: string, ran: seq<Ran>)
    modifies conv, stream
    ensures ran == WithRun(before, call, e, allowed)
    ensures Snapshot(conv, stream, phase) == CallDone(old(Snapshot(conv, stream, last)), call, e, allowed)
  {
    phase := SendPhase(stream, last, e.phase, conv);
    stream.Send(CallStarted(call.id));
    var runs, status := Respond(conv, call, e, allowed, stream, phase);
    stream.Send(CallUpdated(call.id, status));
    ran := if runs then before + [Ran(call, e, allowed)] else before;
  }

  /** `executeACPToolCalls`: stops at the first call that finds the context over. */
  method ExecuteToolCalls(conv: Conversation, stream: Stream, b: Batch, last: string)
    returns (phase: string, ran: seq<Ran>)
    requires b.Scripted()
    modifies conv, stream
    ensures ran == b.Executed(Reached(b.executions))
    ensures Snapshot(conv, stream, phase) == CallsDone(old(Snapshot(conv, stream, last)), b, Reached(b.executions))
  {
    phase, ran := last, [];
    for i := 0 to |b.calls|
      invariant i <= Reached(b.executions)
      invariant ran == b.Executed(i)
      invariant Snapshot(conv, stream, phase) == CallsDone(old(Snapshot(conv, stream, last)), b, i)
    {
      ReachedStops(b.executions, i);
      if b.executions[i].cancelled {
        return;
      }
      phase, ran := ExecuteOne(conv, stream, b.calls[i], b.executions[i], b.allowed, phase, ran);
    }
  }

  // ---- What calls add to the transcript and the stream ----

  /** From `before` to `now` the stream gained whole reports: nothing stands between a start
      and its end. */
  ghost predicate Streams(before: seq<Update>, now: seq<Update>) {
    before <= now && Paired(now[|before|..])
  }

  lemma StreamsTwice(a: seq<Update>, b: seq<Update>, c: seq<Update>)
    requires Streams(a, b) && Streams(b, c)
    ensures Streams(a, c)
  {
    PairedAppend(b[|a|..], c[|b|..]);
    assert c[|a|..] == b[|a|..] + c[|b|..];
  }

  lemma StreamsNothing(us: seq<Update>)
    ensures Streams(us, us)
  {
    assert us[|us|..] == [];
  }

  lemma Associative<T>(a: seq<T>, b: seq<T>, c: seq<T>)
    ensures (a + b) + c == a + (b + c)
  {
  }

  /** From `w` to `w'` the transcript gained `said`, injected messages aside, and the stream,
      if there is one, gained `reports`, thoughts aside. */
  ghost predicate Grows(w: World, w': World, said: seq<Message>, reports: seq<Update>) {
    && w'.connected == w.connected
    && Visible(w'.messages) == Visible(w.messages) + said
    && Streams(w.updates, w'.updates)
    && (if w.connected then WithoutThoughts(w'.updates) == WithoutThoughts(w.updates) + reports else w'.updates == w.updates)
  }

  lemma GrowsTwice(w: World, w1: World, w2: World, said: seq<Message>, more: seq<Message>, reports: seq<Update>, others: seq<Update>)
    requires Grows(w, w1, said, reports) && Grows(w1, w2, more, others)
    ensures Grows(w, w2, said + more, reports + others)
  {
    StreamsTwice(w.updates, w1.updates, w2.updates);
    Associative(Visible(w.messages), said, more);
    Associative(WithoutThoughts(w.updates), reports, others);
  }

  /** Nothing but thoughts separates `w` from `w'`. */
  ghost predicate OnlyThinks(w: World, w': World) {
    && w'.connected == w.connected && w'.messages == w.messages
    && Streams(w.updates, w'.updates) && WithoutThoughts(w'.updates) == WithoutThoughts(w.updates)
    && (!w.connected ==> w'.updates == w.updates)
  }

  lemma PhaseThinks(w: World, message: string)
    ensures OnlyThinks(w, Phased(w, message))
  {
    var thought := Thought(TrimSpace(message));
    StreamsNothing(w.updates);
    WithoutThoughtsAppend(w.updates, thought);
    assert (w.updates + [thought])[|w.updates|..] == [thought];
    assert [thought][1..] == [];
  }

  lemma {:induction false} InjectingGrows(w: World, injected: seq<string>, n: nat)
    requires n <= |injected|
    ensures Injected(w, injected, n).(messages := w.messages) == w
    ensures Visible(Injected(w, injected, n).messages) == Visible(w.messages)
    decreases n
  {
    if n > 0 {
      InjectingGrows(w, injected, n - 1);
      VisibleAppend(Injected(w, injected, n - 1).messages, SystemMessage(injected[n - 1]));
    }
  }

  lemma AnsweringGrows(w: World, call: ToolCall, e: Execution, allowed: Option<seq<string>>)
    ensures Answering(w, call, e, allowed).(messages := w.messages) == w
    ensures Visible(Answering(w, call, e, allowed).messages) == Visible(w.messages) + [Response(call, e, allowed)]
  {
    InjectingGrows(w, e.injected, |e.injected|);
    var w1 := if Runs(call, e, allowed) then Injected(w, e.injected, |e.injected|) else w;
    VisibleAppend(w1.messages, Response(call, e, allowed));
  }

  lemma ReportIsPaired(call: ToolCall, status: Status)
    ensures Paired(Report(call, status))
  {
    assert Report(call, status)[2..] == [];
  }

  lemma ReportIsHeard(us: seq<Update>, start: Update, end: Update)
    requires !start.Thought? && !end.Thought?
    ensures WithoutThoughts(us + [start, end]) == WithoutThoughts(us) + [start, end]
  {
    WithoutThoughtsAppend(us, start);
    WithoutThoughtsAppend(us + [start], end);
    assert us + [start, end] == us + [start] + [end];
  }

  lemma GrowsAfterThought(w: World, w1: World, w2: World, said: seq<Message>, reports: seq<Update>)
    requires OnlyThinks(w, w1) && Grows(w1, w2, said, reports)
    ensures Grows(w, w2, said, reports)
  {
    StreamsTwice(w.updates, w1.updates, w2.updates);
  }

  /** From the start report to the end report. */
  lemma CallBodyGrows(w: World, call: ToolCall, e: Execution, allowed: Option<seq<string>>)
    ensures var w' := Told(Answering(Told(w, CallStarted(call.id)), call, e, allowed), CallUpdated(call.id, StatusOf(call, e, allowed)));
            Grows(w, w', [Response(call, e, allowed)], Report(call, StatusOf(call, e, allowed)))
  {
    var status := StatusOf(call, e, allowed);
    AnsweringGrows(Told(w, CallStarted(call.id)), call, e, allowed);
    if w.connected {
      ReportIsHeard(w.updates, CallStarted(call.id), CallUpdated(call.id, status));
      ReportIsPaired(call, status);
      assert w.updates + [CallStarted(call.id)] + [CallUpdated(call.id, status)] == w.updates + Report(call, status);
      assert (w.updates + Report(call, status))[|w.updates|..] == Report(call, status);
    } else {
      StreamsNothing(w.updates);
    }
  }

  lemma CallGrows(w: World, call: ToolCall, e: Execution, allowed: Option<seq<string>>)
    ensures Grows(w, CallDone(w, call, e, allowed), [Response(call, e, allowed)], Report(call, StatusOf(call, e, allowed)))
  {
    PhaseThinks(w, e.phase);
    CallBodyGrows(Phased(w, e.phase), call, e, allowed);
    GrowsAfterThought(w, Phased(w, e.phase), CallDone(w, call, e, allowed), [Response(call, e, allowed)],
                      Report(call, StatusOf(call, e, allowed)));
  }

  /** One response and one finished report per call reached, in the calls' order. */
  lemma {:induction false} CallsGrow(w: World, b: Batch, n: nat)
    requires b.Scripted() && n <= |b.calls|
    ensures Grows(w, CallsDone(w, b, n), b.Responses(n), b.Reports(n))
    decreases n
  {
    if n == 0 {
      StreamsNothing(w.updates);
    } else {
      var w1 := CallsDone(w, b, n - 1);
      CallsGrow(w, b, n - 1);
      var call, e := b.calls[n - 1], b.executions[n - 1];
      CallGrows(w1, call, e, b.allowed);
      GrowsTwice(w, w1, CallsDone(w, b, n), b.Responses(n - 1), [Response(call, e, b.allowed)],
                 b.Reports(n - 1), Report(call, StatusOf(call, e, b.allowed)));
    }
  }

  // ---- The loop ----

  const MAX_TOOL_NUDGES := 2
  const FINALIZE_NUDGE := "Return the final answer now using the completed tool results. Do not leave the response empty."
  const TOOL_NUDGE := "Use tools to take action now. Pick a tool and call it; do not answer with prose alone."

  datatype Outcome = Running | Cancelled | Error | Returned(text: string)

  /** `shouldNudgeACPToolUse`; `announces` judges whether a text only promises an action. */
  predicate ShouldNudge(useTools: bool, nudges: nat, text: string, announces: string -> bool) {
    useTools && nudges < MAX_TOOL_NUDGES && (Blank(text) || announces(text))
  }

  const THINKING := "Thinking…"
  const FINALIZING := "Finalizing response…"

  /** How often the model was asked, and why it was asked again. */
  datatype Ledger = Ledger(calls: nat, toolTurns: nat, toolNudges: nat, finalNudges: nat, downgrades: nat, offered: seq<bool>) {
    /** Every call but a last one leads to exactly one reason to ask again. */
    predicate Accounts(last: nat) {
      && calls == toolTurns + toolNudges + finalNudges + downgrades + last
      && |offered| == calls
    }

    predicate Bounded() { toolNudges <= MAX_TOOL_NUDGES && finalNudges <= 1 && downgrades <= 1 }

    /** Tools once withdrawn are not offered again. */
    predicate Withdrawn() {
      forall i, j | 0 <= i < j < |offered| :: offered[j] ==> offered[i]
    }
  }

  /** Responses still owed to calls that were not reached. */
  function Owed(calls: seq<ToolCall>, n: nat): seq<Message>
    requires n <= |calls|
    decreases |calls| - n
  {
    if n == |calls| then [] else [ToolResponse(calls[n].id, calls[n].name, "")] + Owed(calls, n + 1)
  }

  lemma {:induction false} OwedResponds(calls: seq<ToolCall>, n: nat)
    requires n <= |calls|
    ensures RespondsAll(Owed(calls, n), calls[n..])
    decreases |calls| - n
  {
    if n < |calls| {
      OwedResponds(calls, n + 1);
    }
  }

  lemma CallsAreAnswered(calls: seq<ToolCall>, responses: seq<Message>, n: nat)
    requires RespondsUpTo(responses, calls, n)
    ensures Answered([ToolCallMessage(calls)] + responses + Owed(calls, n))
  {
    OwedResponds(calls, n);
    var ms := [ToolCallMessage(calls)] + responses + Owed(calls, n);
    var answers := ms[1..1 + |calls|];
    assert answers == responses + Owed(calls, n);
    forall i | 0 <= i < |calls| ensures Responds(answers[i], calls[i]) {
      if i < n {
        assert answers[i] == responses[i];
      } else {
        assert answers[i] == Owed(calls, n)[i - n] && calls[n..][i - n] == calls[i];
      }
    }
    assert ms[1 + |calls|..] == [];
  }

  /** What follows a reply in words. */
  datatype Verdict = Reject | AskToFinish | AskForTools | Accept(text: string)

  function JudgeText(content: Option<string>, toolsExecuted: bool, useTools: bool, ledger: Ledger, announces: string -> bool): Verdict {
    if content.None? then Reject
    else if Blank(content.value) && toolsExecuted then
      if ledger.finalNudges == 0 then AskToFinish else Reject
    else if ShouldNudge(useTools, ledger.toolNudges, content.value, announces) then AskForTools
    else if Blank(content.value) then Reject
    else Accept(content.value)
  }

  /** The calls of a reply with their identifiers filled in. */
  method TakeCalls(replied: seq<ToolCall>) returns (calls: seq<ToolCall>)
    ensures calls == Normalized(replied)
  {
    var buffer := new ToolCall[|replied|](i requires 0 <= i < |replied| => replied[i]);
    assert buffer[..] == replied;
    NormalizeIds(buffer);
    calls := buffer[..];
  }

  ghost predicate LedgerOk(l: Ledger, useTools: bool, last: nat) {
    && l.Accounts(last) && l.Bounded() && l.Withdrawn()
    && (useTools ==> l.downgrades == 0 && forall i | 0 <= i < |l.offered| :: l.offered[i])
  }

  function Asked(l: Ledger, useTools: bool): Ledger {
    l.(calls := l.calls + 1, offered := l.offered + [useTools])
  }

  lemma AskingKeepsLedger(l: Ledger, could: bool, useTools: bool)
    requires LedgerOk(l, could, 0) && (useTools ==> could)
    ensures LedgerOk(Asked(l, useTools), useTools, 1)
  {
  }

  /** The loop's other variables. `ran` lists the tools run, `owed` the responses a
      cancellation left out: it is empty unless the context ended among the calls. */
  datatype Vars = Vars(useTools: bool, toolsExecuted: bool, ledger: Ledger, ran: seq<Ran>, owed: seq<Message>)

  datatype Loop = Loop(world: World, vars: Vars, outcome: Outcome)

  /** The calls of a round as the loop runs them. */
  function BatchOf(round: Round): (b: Batch)
    requires round.reply.Choice? && Scripted(round)
    ensures b.Scripted()
  {
    Batch(Normalized(round.reply.calls), round.executions, round.allowed)
  }

  /** A reply with tool calls: record the calls, then run them. */
  function ToolTurnDone(w: World, v: Vars, round: Round): Loop
    requires round.reply.Choice? && Scripted(round)
  {
    var b, n := BatchOf(round), Reached(round.executions);
    Loop(CallsDone(Spoken(Phased(w, round.phase), ToolCallMessage(b.calls)), b, n),
         v.(toolsExecuted := true, ledger := v.ledger.(toolTurns := v.ledger.toolTurns + 1),
            ran := v.ran + b.Executed(n), owed := Owed(b.calls, n)),
         Running)
  }

  /** A reply in words: reject it, nudge the model, or accept it. */
  function TextTurnDone(w: World, v: Vars, verdict: Verdict): Loop {
    var l := v.ledger;
    match verdict
    case Reject => Loop(w, v, Error)
    case AskToFinish =>
      Loop(Spoken(w, UserMessage(FINALIZE_NUDGE)), v.(ledger := l.(finalNudges := l.finalNudges + 1)), Running)
    case AskForTools =>
      Loop(Spoken(w, UserMessage(TOOL_NUDGE)), v.(ledger := l.(toolNudges := l.toolNudges + 1)), Running)
    case Accept(text) =>
      Loop(Spoken(Phased(w, FINALIZING), AssistantMessage(text)), v, Returned(text))
  }

  function Asking(v: Vars, round: Round): Vars {
    var useTools := v.useTools && round.toolsOffered;
    v.(useTools := useTools, ledger := Asked(v.ledger, useTools))
  }

  /** One pass, past the cancellation check. */
  function RoundDone(w0: World, v0: Vars, round: Round, announces: string -> bool): Loop
    requires Scripted(round)
  {
    var w, v := Phased(w0, THINKING), Asking(v0, round);
    match round.reply
    case ModelError(unsupported) =>
      if v.useTools && unsupported
      then Loop(w, v.(useTools := false, ledger := v.ledger.(downgrades := v.ledger.downgrades + 1)), Running)
      else Loop(w, v, Error)
    case NoChoices => Loop(w, v, Error)
    case Choice(content, calls) =>
      if calls == [] then TextTurnDone(w, v, JudgeText(content, v.toolsExecuted, v.useTools, v.ledger, announces))
      else ToolTurnDone(w, v, round)
  }

  function Pass(l: Loop, round: Round, announces: string -> bool): Loop
    requires Scripted(round)
  {
    if !l.outcome.Running? then l
    else if l.vars.owed != [] || round.cancelled then l.(outcome := Cancelled)
    else RoundDone(l.world, l.vars, round, announces)
  }

  predicate AllScripted(rounds: seq<Round>) {
    forall i | 0 <= i < |rounds| :: Scripted(rounds[i])
  }

  function RunDone(l: Loop, rounds: seq<Round>, announces: string -> bool, n: nat): Loop
    requires AllScripted(rounds) && n <= |rounds|
    decreases n
  {
    if n == 0 then l else Pass(RunDone(l, rounds, announces, n - 1), rounds[n - 1], announces)
  }

  function Start(w: World, canUseTools: bool): Loop {
    Loop(w.(phase := ""), Vars(canUseTools, false, Ledger(0, 0, 0, 0, 0, []), [], []), Running)
  }

  method RecordCalls(conv: Conversation, stream: Stream, round: Round, last: string)
    returns (phase: string, calls: seq<ToolCall>)
    requires round.reply.Choice?
    modifies conv, stream
    ensures calls == Normalized(round.reply.calls)
    ensures Snapshot(conv, stream, phase) == Spoken(Phased(old(Snapshot(conv, stream, last)), round.phase), ToolCallMessage(calls))
  {
    phase := SendPhase(stream, last, round.phase, conv);
    calls := TakeCalls(round.reply.calls);
    conv.Add(ToolCallMessage(calls));
  }

  method ToolTurn(conv: Conversation, stream: Stream, v: Vars, round: Round, last: string)
    returns (phase: string, v': Vars)
    requires round.reply.Choice? && Scripted(round)
    modifies conv, stream
    ensures Loop(Snapshot(conv, stream, phase), v', Running) == ToolTurnDone(old(Snapshot(conv, stream, last)), v, round)
  {
    var calls, ran;
    phase, calls := RecordCalls(conv, stream, round, last);
    phase, ran := ExecuteToolCalls(conv, stream, Batch(calls, round.executions, round.allowed), phase);
    v' := v.(toolsExecuted := true, ledger := v.ledger.(toolTurns := v.ledger.toolTurns + 1),
             ran := v.ran + ran, owed := Owed(calls, Reached(round.executions)));
  }

  method TextTurn(conv: Conversation, stream: Stream, v: Vars, verdict: Verdict, last: string)
    returns (phase: string, v': Vars, outcome: Outcome)
    modifies conv, stream
    ensures Loop(Snapshot(conv, stream, phase), v', outcome) == TextTurnDone(old(Snapshot(conv, stream, last)), v, verdict)
  {
    phase, v', outcome := last, v, Running;
    match verdict {
      case Reject =>
        outcome := Error;
      case AskToFinish =>
        v' := v.(ledger := v.ledger.(finalNudges := v.ledger.finalNudges + 1));
        conv.Add(UserMessage(FINALIZE_NUDGE));
      case AskForTools =>
        v' := v.(ledger := v.ledger.(toolNudges := v.ledger.toolNudges + 1));
        conv.Add(UserMessage(TOOL_NUDGE));
      case Accept(text) =>
        phase := SendPhase(stream, last, FINALIZING, conv);
        conv.Add(AssistantMessage(text));
        outcome := Returned(text);
    }
  }

  method OneRound(conv: Conversation, stream: Stream, v: Vars, round: Round, last: string, announces: string -> bool)
    returns (phase: string, v': Vars, outcome: Outcome)
    requires Scripted(round)
    modifies conv, stream
    ensures Loop(Snapshot(conv, stream, phase), v', outcome) == RoundDone(old(Snapshot(conv, stream, last)), v, round, announces)
  {
    phase := SendPhase(stream, last, THINKING, conv);
    v' := Asking(v, round);
    outcome := Error;
    match round.reply {
      case ModelError(unsupported) =>
        if v'.useTools && unsupported {
          v' := v'.(useTools := false, ledger := v'.ledger.(downgrades := v'.ledger.downgrades + 1));
          outcome := Running;
        }
      case NoChoices =>
      case Choice(content, calls) =>
        if |calls| == 0 {
          var verdict := JudgeText(content, v'.toolsExecuted, v'.useTools, v'.ledger, announces);
          phase, v', outcome := TextTurn(conv, stream, v', verdict, phase);
        } else {
          phase, v' := ToolTurn(conv, stream, v', round, phase);
          outcome := Running;
        }
    }
  }

  /** `runACPLoop` over any finite stretch of rounds; `n` are the rounds begun. */
  method RunLoop(conv: Conversation, stream: Stream, canUseTools: bool, rounds: seq<Round>, announces: string -> bool)
    returns (phase: string, v: Vars, outcome: Outcome, n: nat)
    requires AllScripted(rounds)
    modifies conv, stream
    ensures n <= |rounds| && (outcome.Running? ==> n == |rounds|)
    ensures Loop(Snapshot(conv, stream, phase), v, outcome)
         == RunDone(Start(old(Snapshot(conv, stream, "")), canUseTools), rounds, announces, n)
  {
    phase, v, outcome, n := "", Vars(canUseTools, false, Ledger(0, 0, 0, 0, 0, []), [], []), Running, 0;
    while n < |rounds| && outcome.Running?
      invariant n <= |rounds|
      invariant Loop(Snapshot(conv, stream, phase), v, outcome)
             == RunDone(Start(old(Snapshot(conv, stream, "")), canUseTools), rounds, announces, n)
    {
      if v.owed != [] || rounds[n].cancelled {
        outcome := Cancelled;
      } else {
        phase, v, outcome := OneRound(conv, stream, v, rounds[n], phase, announces);
      }
      n := n + 1;
    }
  }

  // ---- What every run keeps ----

  /** Calls to the model that lead to no further one. */
  function Last(outcome: Outcome): nat { if outcome.Error? || outcome.Returned? then 1 else 0 }

  ghost predicate Counted(l: Loop) {
    LedgerOk(l.vars.ledger, l.vars.useTools, Last(l.outcome)) && Rightful(l.vars.ran)
  }

  lemma ToolTurnCounts(w: World, v: Vars, round: Round)
    requires round.reply.Choice? && Scripted(round) && LedgerOk(v.ledger, v.useTools, 1) && Rightful(v.ran)
    ensures Counted(ToolTurnDone(w, v, round))
  {
    BatchOf(round).ExecutedIsRightful(Reached(round.executions));
  }

  lemma TextTurnCounts(w: World, v: Vars, content: Option<string>, announces: string -> bool)
    requires LedgerOk(v.ledger, v.useTools, 1) && Rightful(v.ran)
    ensures Counted(TextTurnDone(w, v, JudgeText(content, v.toolsExecuted, v.useTools, v.ledger, announces)))
  {
  }

  lemma RoundCounts(w: World, v: Vars, round: Round, announces: string -> bool)
    requires Scripted(round) && LedgerOk(v.ledger, v.useTools, 0) && Rightful(v.ran)
    ensures Counted(RoundDone(w, v, round, announces))
  {
    AskingKeepsLedger(v.ledger, v.useTools, v.useTools && round.toolsOffered);
    if round.reply.Choice? && round.reply.calls != [] {
      ToolTurnCounts(Phased(w, THINKING), Asking(v, round), round);
    } else if round.reply.Choice? {
      TextTurnCounts(Phased(w, THINKING), Asking(v, round), round.reply.content, announces);
    }
  }

  lemma PassCounts(l: Loop, round: Round, announces: string -> bool)
    requires Scripted(round) && Counted(l)
    ensures Counted(Pass(l, round, announces))
  {
    if l.outcome.Running? && l.vars.owed == [] && !round.cancelled {
      RoundCounts(l.world, l.vars, round, announces);
    }
  }

  lemma {:induction false} RunCounts(w: World, canUseTools: bool, rounds: seq<Round>, announces: string -> bool, n: nat)
    requires AllScripted(rounds) && n <= |rounds|
    ensures Counted(RunDone(Start(w, canUseTools), rounds, announces, n))
    decreases n
  {
    if n > 0 {
      RunCounts(w, canUseTools, rounds, announces, n - 1);
      PassCounts(RunDone(Start(w, canUseTools), rounds, announces, n - 1), rounds[n - 1], announces);
    }
  }

  lemma PassAsks(l: Loop, round: Round, announces: string -> bool)
    requires Scripted(round)
    ensures Pass(l, round, announces).outcome.Running? ==>
              l.outcome.Running? && Pass(l, round, announces).vars.ledger.calls == l.vars.ledger.calls + 1
  {
  }

  lemma {:induction false} EveryPassAsks(l: Loop, rounds: seq<Round>, announces: string -> bool, n: nat)
    requires AllScripted(rounds) && n <= |rounds| && l.vars.ledger.calls == 0
    ensures RunDone(l, rounds, announces, n).outcome.Running? ==> RunDone(l, rounds, announces, n).vars.ledger.calls == n
    decreases n
  {
    if n > 0 {
      EveryPassAsks(l, rounds, announces, n - 1);
      PassAsks(RunDone(l, rounds, announces, n - 1), rounds[n - 1], announces);
    }
  }

  /** However the model replies, it is asked at most five times more than it calls tools, tools
      once withdrawn stay withdrawn, and only parsed, allowed calls run. A run that is still
      going has asked once per round, so it outlasts its tool turns by four rounds at most. */
  lemma AskedBoundedly(w: World, canUseTools: bool, rounds: seq<Round>, announces: string -> bool, n: nat)
    requires AllScripted(rounds) && n <= |rounds|
    ensures var l := RunDone(Start(w, canUseTools), rounds, announces, n);
            && l.vars.ledger.calls <= l.vars.ledger.toolTurns + 5
            && l.vars.ledger.Bounded() && l.vars.ledger.Withdrawn() && Rightful(l.vars.ran)
            && (l.outcome.Running? ==> n <= l.vars.ledger.toolTurns + 4)
  {
    RunCounts(w, canUseTools, rounds, announces, n);
    EveryPassAsks(Start(w, canUseTools), rounds, announces, n);
  }

  /** What a run has said, completed by what it owes, answers every call; its updates pair. */
  ghost predicate Proper(w: World, l: Loop, said: seq<Message>) {
    && Visible(l.world.messages) == Visible(w.messages) + said
    && Answered(said + l.vars.owed)
    && Streams(w.updates, l.world.updates)
    && (l.outcome.Returned? ==> !Blank(l.outcome.text) && said != [] && said[|said| - 1] == AssistantMessage(l.outcome.text))
  }

  lemma PlainIsAnswered(m: Message)
    requires m.UserMessage? || m.AssistantMessage?
    ensures Answered([m])
  {
    assert [m][1..] == [];
  }

  lemma TextIsProper(w: World, v: Vars, verdict: Verdict) returns (said: seq<Message>)
    requires v.owed == [] && (verdict.Accept? ==> !Blank(verdict.text))
    ensures Proper(w, TextTurnDone(w, v, verdict), said)
  {
    PhaseThinks(w, FINALIZING);
    StreamsNothing(w.updates);
    said := match verdict
      case Reject => []
      case AskToFinish => [UserMessage(FINALIZE_NUDGE)]
      case AskForTools => [UserMessage(TOOL_NUDGE)]
      case Accept(text) => [AssistantMessage(text)];
    if said != [] {
      PlainIsAnswered(said[0]);
      VisibleAppend(w.messages, said[0]);
    }
    assert said + [] == said;
  }

  lemma ToolTurnIsProper(w: World, v: Vars, round: Round) returns (said: seq<Message>)
    requires round.reply.Choice? && Scripted(round)
    ensures Proper(w, ToolTurnDone(w, v, round), said)
  {
    var b, n := BatchOf(round), Reached(round.executions);
    var w1 := Phased(w, round.phase);
    PhaseThinks(w, round.phase);
    var w2 := Spoken(w1, ToolCallMessage(b.calls));
    VisibleAppend(w1.messages, ToolCallMessage(b.calls));
    CallsGrow(w2, b, n);
    StreamsTwice(w.updates, w2.updates, CallsDone(w2, b, n).updates);
    Associative(Visible(w.messages), [ToolCallMessage(b.calls)], b.Responses(n));
    b.ResponsesAnswer(n);
    CallsAreAnswered(b.calls, b.Responses(n), n);
    said := [ToolCallMessage(b.calls)] + b.Responses(n);
  }

  lemma ProperAfterThought(w: World, message: string, l: Loop, said: seq<Message>)
    requires Proper(Phased(w, message), l, said)
    ensures Proper(w, l, said)
  {
    PhaseThinks(w, message);
    StreamsTwice(w.updates, Phased(w, message).updates, l.world.updates);
  }

  lemma RoundIsProper(w0: World, v0: Vars, round: Round, announces: string -> bool) returns (said: seq<Message>)
    requires Scripted(round) && v0.owed == []
    ensures Proper(w0, RoundDone(w0, v0, round, announces), said)
  {
    var w, v := Phased(w0, THINKING), Asking(v0, round);
    said := [];
    StreamsNothing(w.updates);
    if round.reply.Choice? && round.reply.calls == [] {
      said := TextIsProper(w, v, JudgeText(round.reply.content, v.toolsExecuted, v.useTools, v.ledger, announces));
    } else if round.reply.Choice? {
      said := ToolTurnIsProper(w, v, round);
    }
    ProperAfterThought(w0, THINKING, RoundDone(w0, v0, round, announces), said);
  }

  lemma AnsweredGoesOn(said: seq<Message>, more: seq<Message>, owed: seq<Message>)
    requires Answered(said) && Answered(more + owed)
    ensures Answered((said + more) + owed)
  {
    AnsweredAppend(said, more + owed);
    Associative(said, more, owed);
  }

  lemma ProperGoesOn(w: World, l: Loop, l': Loop, said: seq<Message>, more: seq<Message>)
    requires Proper(w, l, said) && l.vars.owed == [] && Proper(l.world, l', more)
    ensures Proper(w, l', said + more)
  {
    assert said + [] == said;
    AnsweredGoesOn(said, more, l'.vars.owed);
    Associative(Visible(w.messages), said, more);
    StreamsTwice(w.updates, l.world.updates, l'.world.updates);
  }

  lemma {:induction false} RunIsProper(w: World, canUseTools: bool, rounds: seq<Round>, announces: string -> bool, n: nat)
    returns (said: seq<Message>)
    requires AllScripted(rounds) && n <= |rounds|
    ensures Proper(w, RunDone(Start(w, canUseTools), rounds, announces, n), said)
    decreases n
  {
    if n == 0 {
      StreamsNothing(w.updates);
      return [];
    }
    said := RunIsProper(w, canUseTools, rounds, announces, n - 1);
    var l, round := RunDone(Start(w, canUseTools), rounds, announces, n - 1), rounds[n - 1];
    if l.outcome.Running? && l.vars.owed == [] && !round.cancelled {
      var more := RoundIsProper(l.world, l.vars, round, announces);
      ProperGoesOn(w, l, Pass(l, round, announces), said, more);
      said := said + more;
    }
  }

  // ---- When the transcript stays well formed ----

  /** No tool call of the round was cut off by a cancellation. */
  predicate Uncut(round: Round) { round.reply.Choice? ==> Reached(round.executions) == |round.executions| }

  /** The loop, still running, gets tool calls in this round and is cancelled among them. */
  predicate Cuts(l: Loop, round: Round) {
    l.outcome.Running? && l.vars.owed == [] && !round.cancelled && !Uncut(round)
  }

  predicate CutAt(l: Loop, rounds: seq<Round>, announces: string -> bool, i: nat)
    requires AllScripted(rounds) && i < |rounds|
  {
    Cuts(RunDone(l, rounds, announces, i), rounds[i])
  }

  lemma OwedExactly(calls: seq<ToolCall>, n: nat)
    requires n <= |calls|
    ensures Owed(calls, n) == [] <==> n == |calls|
    ensures n < |calls| ==> Owed(calls, n)[0].ToolResponse?
  {
  }

  lemma RoundOwesExactly(w: World, v: Vars, round: Round, announces: string -> bool)
    requires Scripted(round) && v.owed == []
    ensures var owed := RoundDone(w, v, round, announces).vars.owed;
            (owed == [] <==> Uncut(round)) && (owed != [] ==> owed[0].ToolResponse?)
  {
    if round.reply.Choice? && round.reply.calls != [] {
      OwedExactly(Normalized(round.reply.calls), Reached(round.executions));
    }
  }

  lemma PassOwesExactly(l: Loop, round: Round, announces: string -> bool)
    requires Scripted(round) && (l.vars.owed != [] ==> l.vars.owed[0].ToolResponse?)
    ensures var owed := Pass(l, round, announces).vars.owed;
            (owed != [] <==> l.vars.owed != [] || Cuts(l, round)) && (owed != [] ==> owed[0].ToolResponse?)
  {
    if l.outcome.Running? && l.vars.owed == [] && !round.cancelled {
      RoundOwesExactly(l.world, l.vars, round, announces);
    }
  }

  /** Responses are missing at the end exactly when some round was cut. */
  lemma {:induction false} OwesIffCut(l: Loop, rounds: seq<Round>, announces: string -> bool, n: nat)
    requires AllScripted(rounds) && n <= |rounds| && l.vars.owed == []
    ensures var owed := RunDone(l, rounds, announces, n).vars.owed;
            && (owed != [] <==> exists i :: 0 <= i < n && CutAt(l, rounds, announces, i))
            && (owed != [] ==> owed[0].ToolResponse?)
    decreases n
  {
    if n > 0 {
      OwesIffCut(l, rounds, announces, n - 1);
      PassOwesExactly(RunDone(l, rounds, announces, n - 1), rounds[n - 1], announces);
      assert CutAt(l, rounds, announces, n - 1) == Cuts(RunDone(l, rounds, announces, n - 1), rounds[n - 1]);
    }
  }

  /** A dialogue that still lacks a response is not well formed as it stands. */
  lemma {:induction false} IncompleteIsNotAnswered(ms: seq<Message>, owed: seq<Message>)
    requires owed != [] && owed[0].ToolResponse? && Answered(ms + owed)
    ensures !Answered(ms)
    decreases |ms|
  {
    assert ms == [] ==> ms + owed == owed;
    if ms != [] && Answered(ms) {
      var n := if ms[0].ToolCallMessage? then 1 + |ms[0].calls| else 1;
      assert (ms + owed)[n..] == ms[n..] + owed;
      IncompleteIsNotAnswered(ms[n..], owed);
    }
  }

  lemma WellFormedIffNothingOwed(w: World, l: Loop, said: seq<Message>)
    requires Answered(Visible(w.messages)) && Proper(w, l, said)
    requires l.vars.owed != [] ==> l.vars.owed[0].ToolResponse?
    ensures Answered(Visible(l.world.messages)) <==> l.vars.owed == []
  {
    AnsweredGoesOn(Visible(w.messages), said, l.vars.owed);
    var ms := Visible(l.world.messages);
    if l.vars.owed == [] {
      assert ms + l.vars.owed == ms;
    } else {
      IncompleteIsNotAnswered(ms, l.vars.owed);
    }
  }

  /** From a well-formed transcript a run ends in one exactly when no round reached while the
      loop was running was cancelled among its tool calls. */
  lemma WellFormedIffUncut(w: World, canUseTools: bool, rounds: seq<Round>, announces: string -> bool, n: nat)
    requires AllScripted(rounds) && n <= |rounds| && Answered(Visible(w.messages))
    ensures Answered(Visible(RunDone(Start(w, canUseTools), rounds, announces, n).world.messages))
       <==> forall i | 0 <= i < n :: !CutAt(Start(w, canUseTools), rounds, announces, i)
  {
    var said := RunIsProper(w, canUseTools, rounds, announces, n);
    OwesIffCut(Start(w, canUseTools), rounds, announces, n);
    WellFormedIffNothingOwed(w, RunDone(Start(w, canUseTools), rounds, announces, n), said);
  }

  /** However it ends, a run leaves every start of the stream followed by the update that ends
      it; and where no round was cut, the transcript is well formed too. */
  lemma TranscriptStaysWellFormed(w: World, canUseTools: bool, rounds: seq<Round>, announces: string -> bool, n: nat)
    requires AllScripted(rounds) && n <= |rounds|
    requires Answered(Visible(w.messages)) && Paired(w.updates)
    ensures var l := RunDone(Start(w, canUseTools), rounds, announces, n);
            && Paired(l.world.updates)
            && ((forall i | 0 <= i < n :: Uncut(rounds[i])) ==> Answered(Visible(l.world.messages)))
  {
    var said := RunIsProper(w, canUseTools, rounds, announces, n);
    WellFormedIffUncut(w, canUseTools, rounds, announces, n);
    StreamStaysPaired(w.updates, RunDone(Start(w, canUseTools), rounds, announces, n).world.updates);
  }

  lemma StreamStaysPaired(before: seq<Update>, now: seq<Update>)
    requires Paired(before) && Streams(before, now)
    ensures Paired(now)
  {
    PairedAppend(before, now[|before|..]);
    assert now == before + now[|before|..];
  }

  // ---- A run that is cut ----

  const FRESH := World([], [], false, "")
  const READ_A := ToolCall("a", "read", "")
  const READ_B := ToolCall("b", "read", "")
  const GOES_WELL := Execution(false, true, "", [], "done", true)
  const TOO_LATE := Execution(true, true, "", [], "", true)

  /** Two calls; the context ends after the first. */
  const CUT_SHORT: seq<Round> := [Round(false, true, None, "", Choice(None, [READ_A, READ_B]), [GOES_WELL, TOO_LATE])]

  /** One response is missing when the loop returns. */
  lemma CancellationLeavesCallUnanswered(announces: string -> bool)
    ensures AllScripted(CUT_SHORT)
    ensures !Answered(Visible(RunDone(Start(FRESH, true), CUT_SHORT, announces, 1).world.messages))
  {
    ReachedStops(CUT_SHORT[0].executions, 0);
    assert Reached(CUT_SHORT[0].executions[1..]) == 0;
    assert CutAt(Start(FRESH, true), CUT_SHORT, announces, 0);
    WellFormedIffUncut(FRESH, true, CUT_SHORT, announces, 1);
  }
}

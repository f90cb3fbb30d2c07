/** What each kind of reply makes the agent loop do, told from the reply and the counters alone. */
module AcpRules {
  import opened Text
  import opened AcpLoop

  /** The loop is running and begins the round. */
  predicate Begins(l: Loop, round: Round) { l.outcome.Running? && l.vars.owed == [] && !round.cancelled }

  /** Tools are on offer in this round. */
  predicate Offers(l: Loop, round: Round) { l.vars.useTools && round.toolsOffered }

  /** The loop may still remind the model of its tools. */
  predicate MayNudge(l: Loop, round: Round) { Offers(l, round) && l.vars.ledger.toolNudges < 2 }

  predicate Texts(round: Round, text: string) { round.reply == Choice(Some(text), []) }

  /** Nothing was added to the transcript. */
  predicate Silent(l: Loop, l': Loop) { l'.world.messages == l.world.messages }

  predicate Says(l: Loop, l': Loop, m: Message) { l'.world.messages == l.world.messages + [m] }

  // ---- Replies in words ----

  /** A text is recorded and returned as it is, unless it only announces an action while the
      loop may still remind the model of its tools. */
  lemma TextIsReturned(l: Loop, round: Round, announces: string -> bool, text: string)
    requires Scripted(round) && Begins(l, round) && Texts(round, text) && !Blank(text)
    ensures var l' := Pass(l, round, announces);
            if MayNudge(l, round) && announces(text)
            then l'.outcome == Running && Says(l, l', UserMessage(TOOL_NUDGE))
                 && l'.vars.ledger.toolNudges == l.vars.ledger.toolNudges + 1
            else l'.outcome == Returned(text) && Says(l, l', AssistantMessage(text))
                 && l'.vars.ledger.toolNudges == l.vars.ledger.toolNudges
  {
  }

  /** A blank text after tools have run is answered once with the demand for a final answer, and
      is an error after that; before any tool has run it earns a reminder, or is an error. */
  lemma BlankTextIsAnswered(l: Loop, round: Round, announces: string -> bool, text: string)
    requires Scripted(round) && Begins(l, round) && Texts(round, text) && Blank(text)
    ensures var l' := Pass(l, round, announces);
            if l.vars.toolsExecuted && l.vars.ledger.finalNudges == 0
            then l'.outcome == Running && Says(l, l', UserMessage(FINALIZE_NUDGE))
                 && l'.vars.ledger.finalNudges == 1 && l'.vars.ledger.toolNudges == l.vars.ledger.toolNudges
            else if !l.vars.toolsExecuted && MayNudge(l, round)
            then l'.outcome == Running && Says(l, l', UserMessage(TOOL_NUDGE))
                 && l'.vars.ledger.toolNudges == l.vars.ledger.toolNudges + 1
            else l'.outcome == Error && Silent(l, l')
  {
  }

  /** The two reminders, word for word. */
  lemma NudgesAreSpelled()
    ensures TOOL_NUDGE == "Use tools to take action now. Pick a tool and call it; do not answer with prose alone."
    ensures FINALIZE_NUDGE == "Return the final answer now using the completed tool results. Do not leave the response empty."
    ensures THINKING == "Thinking…" && FINALIZING == "Finalizing response…"
  {
  }

  // ---- Other replies ----

  /** A model error ends the loop, unless it says that tools on offer are not supported; then the
      loop goes on without tools. A reply without a choice or without readable text ends it. */
  lemma UselessReplyEnds(l: Loop, round: Round, announces: string -> bool)
    requires Scripted(round) && Begins(l, round)
    requires !round.reply.Choice? || (round.reply.calls == [] && round.reply.content.None?)
    ensures var l' := Pass(l, round, announces);
            && Silent(l, l')
            && if round.reply.ModelError? && round.reply.toolsUnsupported && Offers(l, round)
               then l'.outcome == Running && !l'.vars.useTools else l'.outcome == Error
  {
  }

  /** A reply with calls is recorded, its calls are dealt with up to the first cancellation, and
      the loop goes on. */
  lemma CallsAreTaken(l: Loop, round: Round, announces: string -> bool)
    requires Scripted(round) && Begins(l, round) && round.reply.Choice? && round.reply.calls != []
    ensures var l' := Pass(l, round, announces);
            var b, n := Batch(Normalized(round.reply.calls), round.executions, round.allowed), Reached(round.executions);
            && l'.outcome == Running && l'.vars.toolsExecuted
            && Visible(l'.world.messages) == Visible(l.world.messages) + ([ToolCallMessage(b.calls)] + b.Responses(n))
            && l'.vars.ran == l.vars.ran + b.Executed(n)
  {
    var b, n := BatchOf(round), Reached(round.executions);
    var w1 := Phased(Phased(l.world, THINKING), round.phase);
    PhaseThinks(l.world, THINKING);
    PhaseThinks(Phased(l.world, THINKING), round.phase);
    var w2 := Spoken(w1, ToolCallMessage(b.calls));
    VisibleAppend(w1.messages, ToolCallMessage(b.calls));
    CallsGrow(w2, b, n);
    Associative(Visible(l.world.messages), [ToolCallMessage(b.calls)], b.Responses(n));
  }

  /** Each round begun asks the model once, offering tools exactly when the last round left them
      in use and there are any. */
  lemma EachRoundAsksOnce(l: Loop, round: Round, announces: string -> bool)
    requires Scripted(round) && Begins(l, round)
    ensures var ledger := Pass(l, round, announces).vars.ledger;
            ledger.calls == l.vars.ledger.calls + 1 && ledger.offered == l.vars.ledger.offered + [Offers(l, round)]
  {
  }

  /** A round that is not begun changes nothing but the outcome, which is Cancelled where the
      loop was running. */
  lemma RoundNotBegun(l: Loop, round: Round, announces: string -> bool)
    requires Scripted(round) && !Begins(l, round)
    ensures Pass(l, round, announces) == if l.outcome.Running? then l.(outcome := Cancelled) else l
  {
  }

  // ---- Over whole runs ----

  lemma PassReturnsTheReply(l: Loop, round: Round, announces: string -> bool)
    requires Scripted(round) && l.outcome.Running?
    ensures Pass(l, round, announces).outcome.Returned? ==>
              Begins(l, round) && Texts(round, Pass(l, round, announces).outcome.text)
  {
  }

  /** What a run returns is the text of the last round it began, whole and unchanged: a reply of
      the model without tool calls. */
  lemma {:induction false} ReturnedIsTheReply(l: Loop, rounds: seq<Round>, announces: string -> bool, n: nat) returns (i: nat)
    requires AllScripted(rounds) && n <= |rounds| && l.outcome.Running?
    requires RunDone(l, rounds, announces, n).outcome.Returned?
    ensures i < n && Begins(RunDone(l, rounds, announces, i), rounds[i])
    ensures Texts(rounds[i], RunDone(l, rounds, announces, n).outcome.text)
    ensures RunDone(l, rounds, announces, i + 1) == RunDone(l, rounds, announces, n)
    decreases n
  {
    var before := RunDone(l, rounds, announces, n - 1);
    if before.outcome.Running? {
      PassReturnsTheReply(before, rounds[n - 1], announces);
      i := n - 1;
    } else {
      i := ReturnedIsTheReply(l, rounds, announces, n - 1);
    }
  }

  lemma PassKeepsExecuted(l: Loop, round: Round, announces: string -> bool)
    requires Scripted(round) && (l.vars.toolsExecuted <==> l.vars.ledger.toolTurns > 0)
    ensures var v := Pass(l, round, announces).vars; v.toolsExecuted <==> v.ledger.toolTurns > 0
  {
  }

  /** Tools count as executed exactly once there was a turn with calls. */
  lemma {:induction false} ExecutedIffToolTurn(w: World, canUseTools: bool, rounds: seq<Round>, announces: string -> bool, n: nat)
    requires AllScripted(rounds) && n <= |rounds|
    ensures var v := RunDone(Start(w, canUseTools), rounds, announces, n).vars; v.toolsExecuted <==> v.ledger.toolTurns > 0
    decreases n
  {
    if n > 0 {
      ExecutedIffToolTurn(w, canUseTools, rounds, announces, n - 1);
      PassKeepsExecuted(RunDone(Start(w, canUseTools), rounds, announces, n - 1), rounds[n - 1], announces);
    }
  }

  // ---- Calls ----

  /** The arguments are blank or JSON, and the name is on the filter, white space aside, if there
      is a filter. */
  predicate MayRun(call: ToolCall, e: Execution, allowed: Option<seq<string>>) {
    && (TrimSpace(call.arguments) == "" || e.json)
    && (allowed.None? || exists i :: 0 <= i < |allowed.value| && TrimSpace(allowed.value[i]) == TrimSpace(call.name))
  }

  lemma RunsExactly(call: ToolCall, e: Execution, allowed: Option<seq<string>>)
    ensures Runs(call, e, allowed) <==> MayRun(call, e, allowed)
  {
    if Runs(call, e, allowed) && allowed.Some? {
      var i :| 0 <= i < |allowed.value| && TrimSpace(call.name) == TrimSpace(allowed.value[i]);
      assert TrimSpace(allowed.value[i]) == TrimSpace(call.name);
    }
  }

  /** One response with the call's identifier and name: what the tool said if the call may run,
      else the error that explains why not; and a status that is completed exactly for a run
      that succeeded. */
  lemma ResponseExactly(call: ToolCall, e: Execution, allowed: Option<seq<string>>)
    ensures var r := Response(call, e, allowed);
            && r.ToolResponse? && r.id == call.id && r.name == call.name
            && r.content == if MayRun(call, e, allowed) then e.text
                            else if TrimSpace(call.arguments) == "" || e.json then NOT_ALLOWED else BAD_ARGUMENTS
    ensures StatusOf(call, e, allowed) == if MayRun(call, e, allowed) && e.success then Completed else Failed
  {
    RunsExactly(call, e, allowed);
  }

  /** The first `n` calls that may run are run. */
  lemma {:induction false} CallIsRun(b: Batch, n: nat, i: nat)
    requires b.Scripted() && i < n <= |b.calls| && MayRun(b.calls[i], b.executions[i], b.allowed)
    ensures Ran(b.calls[i], b.executions[i], b.allowed) in b.Executed(n)
    decreases n
  {
    RunsExactly(b.calls[i], b.executions[i], b.allowed);
    var before := b.Executed(n - 1);
    assert b.Executed(n) == WithRun(before, b.calls[n - 1], b.executions[n - 1], b.allowed);
    if i < n - 1 {
      CallIsRun(b, n - 1, i);
      InWithRun(before, b.calls[n - 1], b.executions[n - 1], b.allowed, Ran(b.calls[i], b.executions[i], b.allowed));
    }
  }

  lemma InWithRun(ran: seq<Ran>, call: ToolCall, e: Execution, allowed: Option<seq<string>>, r: Ran)
    ensures r in ran ==> r in WithRun(ran, call, e, allowed)
    ensures r in WithRun(ran, call, e, allowed) && r !in ran ==> r == Ran(call, e, allowed) && Runs(call, e, allowed)
  {
  }

  /** And nothing else is. */
  lemma {:induction false} OnlyCallsAreRun(b: Batch, n: nat, r: Ran) returns (i: nat)
    requires b.Scripted() && n <= |b.calls| && r in b.Executed(n)
    ensures i < n && r == Ran(b.calls[i], b.executions[i], b.allowed) && MayRun(r.call, r.how, r.allowed)
    decreases n
  {
    var before := b.Executed(n - 1);
    assert b.Executed(n) == WithRun(before, b.calls[n - 1], b.executions[n - 1], b.allowed);
    InWithRun(before, b.calls[n - 1], b.executions[n - 1], b.allowed, r);
    if r in before {
      i := OnlyCallsAreRun(b, n - 1, r);
    } else {
      i := n - 1;
      RunsExactly(r.call, r.how, r.allowed);
    }
  }

  /** A thought is streamed exactly when there is a stream and it says something that is not
      blank and not what was shown last; saying it twice shows it once. */
  lemma ThoughtIffNew(w: World, message: string)
    ensures var text, w' := TrimSpace(message), Phased(w, message);
            && (if w.connected && text != "" && text != w.phase
                then w'.updates == w.updates + [Thought(text)] && w'.phase == text else w' == w)
            && w'.messages == w.messages && Phased(w', message) == w'
  {
  }
}

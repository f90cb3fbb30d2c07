/** The order of a handler's calls: which call may follow which, and what each one tells. */
module BuckbotFlow {
  import opened Text
  import opened Buckbot
  import opened BuckbotRuns

  predicate Last(h: History, call: Call) { h.After? && h.call == call }

  /** The handler slept undisturbed. */
  predicate Rested(h: History) { h.After? && h.call.Slept? && h.call.ok }

  /** A failure that cost nothing and may be tried again. */
  predicate WorthRetrying(r: Review) { r.failure == Some(true) && r.cost == 0.0 }

  /** Why a handler gives up or is done: no budget, no sleep, superseded, marked, the last post
      failed, or the last review settled was useless: a failure not worth retrying or the last
      attempt, a blank text, or too dear. */
  predicate MayEnd(cfg: Config, h: History) {
    && h.After?
    && match h.call
       case Reservation(granted) => !granted
       case Slept(_, ok) => !ok
       case CurrencyCheck(current) => !current
       case Marked(_) => true
       case Posted(_, ok) => !ok && Count(h, Posts) == MAX_POST_ATTEMPTS
       case Settlement(_) =>
         && LastReview(h).Some?
         && var r := LastReview(h).value;
            if r.failure.Some? then !WorthRetrying(r) || Count(h, Reviews) == MAX_REVIEW_ATTEMPTS
            else Blank(r.text) || r.cost > cfg.perReview
       case _ => false
  }

  /** A settled review that is good enough to be posted. */
  predicate Settled(cfg: Config, h: History) {
    h.After? && h.call.Settlement? && LastReview(h).Some? && Publishable(cfg, LastReview(h).value)
  }

  /** The call may come directly after `before`. */
  predicate Follows(cfg: Config, before: History, call: Call) {
    var first := Count(before, Reviews) == 0;
    match call
    case Admission(_) => before.Begin?
    case Reservation(_) => Count(before, Posts) == 0 && (Last(before, Admission(true)) || Rested(before))
    case Announcement => cfg.announces && first && Last(before, Reservation(true))
    case Reviewed(_) => if cfg.announces && first then Last(before, Announcement) else Last(before, Reservation(true))
    case Settlement(cost) => before.After? && before.call.Reviewed? && before.call.review.cost == cost
    case CurrencyCheck(_) =>
      if Count(before, Posts) > 0 then Rested(before)
      else Settled(cfg, before) || (Last(before, CurrencyCheck(true)) && Settled(cfg, before.before))
    case Posted(_, _) =>
      && Last(before, CurrencyCheck(true))
      && if Count(before, Posts) > 0 then Rested(before.before) else Last(before.before, CurrencyCheck(true))
    case Slept(retry, _) =>
      && before.After?
      && if before.call.Posted? then !before.call.ok && retry + 1 == Count(before, Posts) < MAX_POST_ATTEMPTS
         else && before.call.Settlement? && LastReview(before).Some? && WorthRetrying(LastReview(before).value)
              && retry + 1 == Count(before, Reviews) < MAX_REVIEW_ATTEMPTS
    case Marked(_) => before.After? && before.call.Posted? && before.call.ok
    case Cancelled => MayEnd(cfg, before)
    case Released => Last(before, Cancelled)
  }

  predicate Flows(cfg: Config, h: History) {
    h.Begin? || (Flows(cfg, h.before) && Follows(cfg, h.before, h.call))
  }

  /** How the history of a handler ends, told from where it stands. */
  predicate PcFollows(cfg: Config, pc: Pc, h: History) {
    match pc
    case Reserving(a) => if a == 0 then Last(h, Admission(true)) else Rested(h)
    case Announcing(a) => a == 0 && cfg.announces && Last(h, Reservation(true))
    case Reviewing(a) => Last(h, if cfg.announces && a == 0 then Announcement else Reservation(true))
    case Settling(_, r) => Last(h, Reviewed(r))
    case BackingOff(_) =>
      && h.After? && h.call.Settlement? && LastReview(h).Some? && WorthRetrying(LastReview(h).value)
      && Count(h, Reviews) < MAX_REVIEW_ATTEMPTS
    case StaleCheck(_) => Settled(cfg, h)
    case PostCheck(_, n) => if n > 0 then Rested(h) else Last(h, CurrencyCheck(true)) && Settled(cfg, h.before)
    case Posting(_, n) =>
      Last(h, CurrencyCheck(true)) && if n > 0 then Rested(h.before) else Last(h.before, CurrencyCheck(true))
    case PostBackingOff(_, _) => h.After? && h.call.Posted? && !h.call.ok && Count(h, Posts) < MAX_POST_ATTEMPTS
    case Marking => h.After? && h.call.Posted? && h.call.ok
    case Cancelling => MayEnd(cfg, h)
    case Releasing => Last(h, Cancelled)
    case Done => Last(h, Released) || h == After(Begin, Admission(false))
  }

  predicate FlowOk(cfg: Config, hd: Handler) { Flows(cfg, hd.history) && PcFollows(cfg, hd.pc, hd.history) }

  // ---- Every step ----

  predicate ReviewStep(step: Step) { step.Reserve? || step.Announce? || step.DoReview? || step.Wake? }

  lemma ReviewStepFlows(cfg: Config, s: State, step: Step)
    requires Enabled(s, step) && ReviewStep(step)
    requires HandlerOk(cfg, s.handlers[step.h]) && FlowOk(cfg, s.handlers[step.h])
    ensures FlowOk(cfg, Apply(cfg, s, step).handlers[step.h])
  {
  }

  lemma SettleStepFlows(cfg: Config, s: State, step: Step)
    requires Enabled(s, step) && step.Settle?
    requires HandlerOk(cfg, s.handlers[step.h]) && FlowOk(cfg, s.handlers[step.h])
    ensures FlowOk(cfg, Apply(cfg, s, step).handlers[step.h])
  {
  }

  lemma PostStepFlows(cfg: Config, s: State, step: Step)
    requires Enabled(s, step) && (step.CheckStale? || step.CheckPost? || step.Post? || step.WakePost?)
    requires HandlerOk(cfg, s.handlers[step.h]) && FlowOk(cfg, s.handlers[step.h])
    ensures FlowOk(cfg, Apply(cfg, s, step).handlers[step.h])
  {
  }

  lemma EndStepFlows(cfg: Config, s: State, step: Step)
    requires Enabled(s, step) && (step.Mark? || step.Cancel? || step.Release?)
    requires HandlerOk(cfg, s.handlers[step.h]) && FlowOk(cfg, s.handlers[step.h])
    ensures FlowOk(cfg, Apply(cfg, s, step).handlers[step.h])
  {
  }

  lemma ActorFlows(cfg: Config, s: State, step: Step)
    requires Enabled(s, step)
    requires !step.Arrive? ==> HandlerOk(cfg, s.handlers[step.h]) && FlowOk(cfg, s.handlers[step.h])
    ensures FlowOk(cfg, Apply(cfg, s, step).handlers[step.h])
  {
    if step.Arrive? {
      assert Flows(cfg, Begin);
    } else if ReviewStep(step) {
      ReviewStepFlows(cfg, s, step);
    } else if step.Settle? {
      SettleStepFlows(cfg, s, step);
    } else if step.Mark? || step.Cancel? || step.Release? {
      EndStepFlows(cfg, s, step);
    } else {
      PostStepFlows(cfg, s, step);
    }
  }

  ghost predicate AllFlow(cfg: Config, s: State) {
    forall h | h in s.handlers :: FlowOk(cfg, s.handlers[h])
  }

  lemma StepKeepsFlow(cfg: Config, s: State, step: Step)
    requires Orderly(cfg, s) && AllFlow(cfg, s) && Enabled(s, step)
    ensures AllFlow(cfg, Apply(cfg, s, step))
  {
    var s' := Apply(cfg, s, step);
    ActorFlows(cfg, s, step);
    forall h | h in s'.handlers ensures FlowOk(cfg, s'.handlers[h]) {
      if h != step.h {
        assert s'.handlers[h].pc == s.handlers[h].pc && s'.handlers[h].history == s.handlers[h].history;
      }
    }
  }

  lemma {:induction false} RunKeepsFlow(cfg: Config, s: State, steps: seq<Step>)
    requires Orderly(cfg, s) && AllFlow(cfg, s) && IsRun(cfg, s, steps)
    ensures AllFlow(cfg, Final(cfg, s, steps))
    decreases |steps|
  {
    if steps != [] {
      StepKeepsOrder(cfg, s, steps[0]);
      StepKeepsFlow(cfg, s, steps[0]);
      RunKeepsFlow(cfg, Apply(cfg, s, steps[0]), steps[1..]);
    }
  }

  lemma ReachableFlows(cfg: Config, spent0: real, s: State)
    requires Reachable(cfg, spent0, s)
    ensures AllFlow(cfg, s)
  {
    var steps :| IsRun(cfg, Initial(spent0), steps) && Final(cfg, Initial(spent0), steps) == s;
    FreshIsOrderly(cfg, spent0);
    RunKeepsFlow(cfg, Initial(spent0), steps);
  }

  lemma FreshIsOrderly(cfg: Config, spent0: real)
    ensures Orderly(cfg, Initial(spent0)) && AllFlow(cfg, Initial(spent0))
  {
  }

  /** In every reachable state every call of every handler directly follows one that calls for
      it. So a failed review is tried again exactly when that costs nothing, may help and is not
      the sixth, a failed post exactly when it is not the eighth, and a handler ends only for one
      of the reasons listed; one that is done was refused or has released. */
  lemma EveryCallFollows(cfg: Config, spent0: real, s: State, h: HandlerId)
    requires Reachable(cfg, spent0, s) && h in s.handlers
    ensures Flows(cfg, s.handlers[h].history)
    ensures s.handlers[h].pc.Done? ==>
              Last(s.handlers[h].history, Released) || s.handlers[h].history == After(Begin, Admission(false))
  {
    ReachableFlows(cfg, spent0, s);
    assert FlowOk(cfg, s.handlers[h]);
  }

  /** Any call ever made, not only the latest. */
  lemma {:induction false} EarlierCallFollows(cfg: Config, later: History, past: History)
    requires Flows(cfg, later) && Extends(later, past) && past.After?
    ensures Follows(cfg, past.before, past.call)
  {
    if later != past {
      EarlierCallFollows(cfg, later.before, past);
    }
  }

  /** The handler cancels only for cause: no budget, no sleep, superseded, marked, the eighth post
      failed, or the settled review was blank, too dear, or a failure that cost money, was not
      retryable or was the sixth. */
  lemma EndsOnlyForCause(cfg: Config, spent0: real, s: State, h: HandlerId, past: History)
    requires Reachable(cfg, spent0, s) && h in s.handlers && Extends(s.handlers[h].history, past)
    requires Last(past, Cancelled)
    ensures var b := past.before;
            || Last(b, Reservation(false)) || (b.After? && b.call.Slept? && !b.call.ok) || Last(b, CurrencyCheck(false))
            || Last(b, Marked(true)) || Last(b, Marked(false))
            || (b.After? && b.call.Posted? && !b.call.ok && Count(b, Posts) == 8)
            || (&& b.After? && b.call.Settlement? && LastReview(b).Some?
                && var r := LastReview(b).value;
                   || (r.failure.None? && (Blank(r.text) || r.cost > cfg.perReview))
                   || (r.failure.Some? && (r.cost != 0.0 || !r.failure.value || Count(b, Reviews) == 6)))
  {
    EveryCallFollows(cfg, spent0, s, h);
    EarlierCallFollows(cfg, s.handlers[h].history, past);
  }

  /** The k-th retry of a review or of a post waits as `RetryDelay` says for k - 1: 15 seconds
      doubled k - 1 times, at most 300. */
  lemma SleepsByTheRetry(cfg: Config, spent0: real, s: State, h: HandlerId, past: History)
    requires Reachable(cfg, spent0, s) && h in s.handlers && Extends(s.handlers[h].history, past)
    requires past.After? && past.call.Slept?
    ensures past.call.retry + 1 == Count(past, if past.before.After? && past.before.call.Posted? then Posts else Reviews)
  {
    EveryCallFollows(cfg, spent0, s, h);
    EarlierCallFollows(cfg, s.handlers[h].history, past);
  }

  // ---- No handler is stuck, and calls tell the truth ----

  /** A handler that runs can always take a step. */
  lemma RunningCanStep(s: State, h: HandlerId) returns (step: Step)
    requires h in s.handlers && s.handlers[h].Running()
    ensures step.h == h && !step.Arrive? && Enabled(s, step)
  {
    step := match s.handlers[h].pc
      case Reserving(_) => Reserve(h)
      case Announcing(_) => Announce(h)
      case Reviewing(_) => DoReview(h, Review("", 0.0, None))
      case Settling(_, _) => Settle(h)
      case BackingOff(_) => Wake(h, true)
      case StaleCheck(_) => CheckStale(h)
      case PostCheck(_, _) => CheckPost(h)
      case Posting(_, _) => Post(h, true)
      case PostBackingOff(_, _) => WakePost(h, true)
      case Marking => Mark(h)
      case Cancelling => Cancel(h)
      case _ => Release(h);
  }

  /** The entry of a pull request is for this revision. */
  predicate Entered(s: State, rev: Revision) {
    rev.pr in s.shared.active && s.shared.active[rev.pr].revision == rev
  }

  /** A grant is made exactly when it still fits the month; a currency check and a mark are
      positive exactly when the entry is for the handler's revision, and then, and only then, a
      mark makes the revision seen. */
  lemma CallsTellTheTruth(cfg: Config, s: State, step: Step)
    requires Enabled(s, step) && (step.Reserve? || step.CheckStale? || step.CheckPost? || step.Mark?)
    ensures var s', rev := Apply(cfg, s, step), s.handlers[step.h].rev;
            var past := s'.handlers[step.h].history;
            && past.After?
            && (step.Reserve? ==> past.call == Reservation(s.shared.spent + s.shared.reserved + cfg.perReview <= cfg.monthly))
            && (step.CheckStale? || step.CheckPost? ==> past.call == CurrencyCheck(Entered(s, rev)))
            && (step.Mark? ==> && past.call == Marked(Entered(s, rev))
                               && s'.shared.seen == if Entered(s, rev) then s.shared.seen + {rev} else s.shared.seen)
  {
  }

  /** A delivery is admitted exactly when its revision is neither seen nor being handled; then the
      entry is its handler's, and the former owner's context is cancelled; else nothing changes. */
  lemma ArrivalExactly(cfg: Config, s: State, h: HandlerId, rev: Revision)
    requires h !in s.handlers
    ensures var s' := Apply(cfg, s, Arrive(h, rev));
            var admitted := rev !in s.shared.seen && !Entered(s, rev);
            && s'.handlers.Keys == s.handlers.Keys + {h}
            && s'.handlers[h].history == After(Begin, Admission(admitted)) && s'.handlers[h].rev == rev
            && s'.handlers[h].Running() == admitted
            && s'.shared == (if admitted then s.shared.(active := s.shared.active[rev.pr := Entry(rev, h)]) else s.shared)
            && forall g | g in s.handlers ::
                 s'.handlers[g] == if admitted && rev.pr in s.shared.active && s.shared.active[rev.pr].owner == g
                                   then s.handlers[g].(cancelled := true) else s.handlers[g]
  {
  }
}

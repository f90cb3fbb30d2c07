/** Supersession: when does a pull request have at most one handler still at work? */
module BuckbotExclusivity {
  import opened Text
  import opened Buckbot
  import opened BuckbotRuns

  ghost predicate Owns(s: State, h: HandlerId)
    requires h in s.handlers
  {
    var pr := s.handlers[h].rev.pr;
    pr in s.shared.active && s.shared.active[pr].owner == h
  }

  /** Every handler whose context is not cancelled owns its pull request's entry. */
  ghost predicate Exclusive(s: State) {
    forall h | h in s.handlers && s.handlers[h].Live() :: Owns(s, h)
  }

  lemma ExclusiveMeansAtMostOne(s: State, g: HandlerId, h: HandlerId)
    requires Exclusive(s) && g in s.handlers && h in s.handlers
    requires s.handlers[g].Live() && s.handlers[h].Live()
    requires s.handlers[g].rev.pr == s.handlers[h].rev.pr
    ensures g == h
  {
    assert Owns(s, g) && Owns(s, h);
  }

  /** The one bad move: the deferred section finds its own revision in the entry although
      another handler, still at work on that revision, wrote it. */
  predicate EvictsLiveOwner(s: State, step: Step)
    requires Enabled(s, step)
  {
    && step.Release?
    && var rev := s.handlers[step.h].rev;
       && s.shared.IsCurrent(rev)
       && var owner := s.shared.active[rev.pr].owner;
          owner != step.h && owner in s.handlers && s.handlers[owner].Live()
  }

  lemma ArriveKeepsExclusive(cfg: Config, s: State, step: Step)
    requires Orderly(cfg, s) && Exclusive(s) && Enabled(s, step) && step.Arrive?
    ensures Exclusive(Apply(cfg, s, step))
  {
    var s' := Apply(cfg, s, step);
    forall h | h in s'.handlers && s'.handlers[h].Live() ensures Owns(s', h) {
      if h != step.h {
        assert Owns(s, h);
      }
    }
  }

  /** A step keeps exclusivity exactly when it is not the bad move. */
  lemma ExclusiveUnlessEvicted(cfg: Config, s: State, step: Step)
    requires Orderly(cfg, s) && Exclusive(s) && Enabled(s, step)
    ensures Exclusive(Apply(cfg, s, step)) <==> !EvictsLiveOwner(s, step)
  {
    var s' := Apply(cfg, s, step);
    if step.Arrive? {
      ArriveKeepsExclusive(cfg, s, step);
    } else if EvictsLiveOwner(s, step) {
      var owner := s.shared.active[s.handlers[step.h].rev.pr].owner;
      assert s'.handlers[owner].Live() && !Owns(s', owner);
    } else {
      forall h | h in s'.handlers && s'.handlers[h].Live() ensures Owns(s', h) {
        assert Owns(s, h);
      }
    }
  }

  ghost predicate AlwaysExclusive(cfg: Config, s: State, steps: seq<Step>)
    requires IsRun(cfg, s, steps)
    decreases |steps|
  {
    Exclusive(s) && (steps != [] ==> AlwaysExclusive(cfg, Apply(cfg, s, steps[0]), steps[1..]))
  }

  predicate NeverEvicts(cfg: Config, s: State, steps: seq<Step>)
    requires IsRun(cfg, s, steps)
    decreases |steps|
  {
    steps != [] ==>
      !EvictsLiveOwner(s, steps[0]) && NeverEvicts(cfg, Apply(cfg, s, steps[0]), steps[1..])
  }

  lemma {:induction false} RunExclusiveUnlessEvicted(cfg: Config, s: State, steps: seq<Step>)
    requires Orderly(cfg, s) && Exclusive(s) && IsRun(cfg, s, steps)
    ensures AlwaysExclusive(cfg, s, steps) <==> NeverEvicts(cfg, s, steps)
    decreases |steps|
  {
    if steps != [] {
      var s' := Apply(cfg, s, steps[0]);
      ExclusiveUnlessEvicted(cfg, s, steps[0]);
      StepKeepsOrder(cfg, s, steps[0]);
      if Exclusive(s') {
        RunExclusiveUnlessEvicted(cfg, s', steps[1..]);
      }
    }
  }

  /** All states of a run from a fresh service are exclusive iff no step of it evicts. */
  lemma ExclusiveIffNeverEvicts(cfg: Config, spent0: real, steps: seq<Step>)
    requires IsRun(cfg, Initial(spent0), steps)
    ensures AlwaysExclusive(cfg, Initial(spent0), steps) <==> NeverEvicts(cfg, Initial(spent0), steps)
  {
    RunExclusiveUnlessEvicted(cfg, Initial(spent0), steps);
  }

  // ---- A condition on deliveries alone ----

  /** A revision is admitted only when no handler of that revision is still running. */
  ghost predicate FreshDelivery(s: State, step: Step) {
    step.Arrive? && s.shared.Admits(step.rev) ==>
      forall h | h in s.handlers && s.handlers[h].Running() :: s.handlers[h].rev != step.rev
  }

  ghost predicate FreshDeliveries(cfg: Config, s: State, steps: seq<Step>)
    requires IsRun(cfg, s, steps)
    decreases |steps|
  {
    steps != [] ==>
      FreshDelivery(s, steps[0]) && FreshDeliveries(cfg, Apply(cfg, s, steps[0]), steps[1..])
  }

  ghost predicate OneHandlerPerRevision(s: State) {
    forall g, h | g in s.handlers && h in s.handlers && s.handlers[g].Running() && s.handlers[h].Running() ::
      s.handlers[g].rev == s.handlers[h].rev ==> g == h
  }

  lemma StepKeepsOneHandler(cfg: Config, s: State, step: Step)
    requires OneHandlerPerRevision(s) && Enabled(s, step) && FreshDelivery(s, step)
    ensures OneHandlerPerRevision(Apply(cfg, s, step))
  {
    var s' := Apply(cfg, s, step);
    forall h | h in s'.handlers && h != step.h
      ensures h in s.handlers && s'.handlers[h].rev == s.handlers[h].rev && s'.handlers[h].pc == s.handlers[h].pc
    {
    }
  }

  lemma OneHandlerNeverEvicts(cfg: Config, s: State, step: Step)
    requires Orderly(cfg, s) && OneHandlerPerRevision(s) && Enabled(s, step)
    ensures !EvictsLiveOwner(s, step)
  {
  }

  lemma {:induction false} FreshRunsStayExclusive(cfg: Config, s: State, steps: seq<Step>)
    requires Orderly(cfg, s) && Exclusive(s) && OneHandlerPerRevision(s)
    requires IsRun(cfg, s, steps) && FreshDeliveries(cfg, s, steps)
    ensures AlwaysExclusive(cfg, s, steps)
    decreases |steps|
  {
    if steps != [] {
      OneHandlerNeverEvicts(cfg, s, steps[0]);
      ExclusiveUnlessEvicted(cfg, s, steps[0]);
      StepKeepsOrder(cfg, s, steps[0]);
      StepKeepsOneHandler(cfg, s, steps[0]);
      FreshRunsStayExclusive(cfg, Apply(cfg, s, steps[0]), steps[1..]);
    }
  }

  /** If no revision is redelivered while an old handler of it still runs, every pull
      request has at most one live handler at every moment, and it owns the entry. */
  lemma FreshDeliveriesExclude(cfg: Config, spent0: real, steps: seq<Step>)
    requires IsRun(cfg, Initial(spent0), steps) && FreshDeliveries(cfg, Initial(spent0), steps)
    ensures AlwaysExclusive(cfg, Initial(spent0), steps)
  {
    FreshRunsStayExclusive(cfg, Initial(spent0), steps);
  }

  // ---- Without it: two live handlers for one pull request ----

  const PR := PullRequest("owner/repo", 1)
  const OLD := Revision(PR, "old")
  const NEW := Revision(PR, "new")
  const NEWEST := Revision(PR, "newest")
  const CONFIG := Config(1.0, 100.0, false)

  /** The reviewer gives up because its context was cancelled. */
  const INTERRUPTED := Review("", 0.0, Some(false))

  /** Old head, new head, old head again; the first handler, cancelled by the new head, unwinds
      after its review fails and removes the third handler's entry; a further head then finds
      nobody to cancel. */
  const REDELIVERY: seq<Step> :=
    [Arrive(0, OLD), Reserve(0), Arrive(1, NEW), Arrive(2, OLD), DoReview(0, INTERRUPTED), Settle(0), Cancel(0), Release(0),
     Arrive(3, NEWEST)]

  lemma RedeliveryBreaksExclusivity()
    ensures IsRun(CONFIG, Initial(0.0), REDELIVERY)
    ensures var last := Final(CONFIG, Initial(0.0), REDELIVERY).handlers;
            && 2 in last && 3 in last && last[2].rev.pr == last[3].rev.pr
            && last[2].Live() && last[3].Live()
  {
    var s4 := Redelivered();
    var s8 := Evicted(s4);
    LastArrives(s8);
    assert REDELIVERY[0..] == REDELIVERY;
    BackFour(s4, 4, s8);
    BackFour(Initial(0.0), 0, s4);
  }

  /** Four steps of the run, from its `i`-th on, lead from `s` to `t`. */
  ghost predicate LeadsTo(s: State, i: nat, t: State)
    requires i + 4 <= |REDELIVERY|
  {
    && Enabled(s, REDELIVERY[i])
    && var s1 := Apply(CONFIG, s, REDELIVERY[i]);
       && Enabled(s1, REDELIVERY[i + 1])
       && var s2 := Apply(CONFIG, s1, REDELIVERY[i + 1]);
          && Enabled(s2, REDELIVERY[i + 2])
          && var s3 := Apply(CONFIG, s2, REDELIVERY[i + 2]);
             Enabled(s3, REDELIVERY[i + 3]) && t == Apply(CONFIG, s3, REDELIVERY[i + 3])
  }

  /** The deliveries: handler 2 holds the entry for the old head, handler 0 is at its review. */
  lemma Redelivered() returns (s4: State)
    ensures LeadsTo(Initial(0.0), 0, s4)
    ensures s4.shared == Shared({}, map[PR := Entry(OLD, 2)], 0.0, 1.0)
    ensures 0 in s4.handlers && s4.handlers[0].pc == Reviewing(0) && s4.handlers[0].rev == OLD && s4.handlers[0].cancelled
    ensures 2 in s4.handlers && s4.handlers[2].Live() && s4.handlers[2].rev == OLD && 3 !in s4.handlers
  {
    var s1 := Apply(CONFIG, Initial(0.0), REDELIVERY[0]);
    assert s1.shared.active == map[PR := Entry(OLD, 0)];
    var s2 := Apply(CONFIG, s1, REDELIVERY[1]);
    var s3 := Apply(CONFIG, s2, REDELIVERY[2]);
    assert s3.shared.active == map[PR := Entry(NEW, 1)];
    s4 := Apply(CONFIG, s3, REDELIVERY[3]);
  }

  /** Handler 0's review fails; it unwinds and deletes handler 2's entry. */
  lemma Evicted(s4: State) returns (s8: State)
    requires s4.shared == Shared({}, map[PR := Entry(OLD, 2)], 0.0, 1.0)
    requires 0 in s4.handlers && s4.handlers[0].pc == Reviewing(0) && s4.handlers[0].rev == OLD
    requires 2 in s4.handlers && s4.handlers[2].Live() && s4.handlers[2].rev == OLD && 3 !in s4.handlers
    ensures LeadsTo(s4, 4, s8)
    ensures s8.shared.active == map[] && s8.shared.seen == {}
    ensures 2 in s8.handlers && s8.handlers[2] == s4.handlers[2] && 3 !in s8.handlers
  {
    var s5 := Apply(CONFIG, s4, REDELIVERY[4]);
    var s6 := Apply(CONFIG, s5, REDELIVERY[5]);
    var s7 := Apply(CONFIG, s6, REDELIVERY[6]);
    s8 := Apply(CONFIG, s7, REDELIVERY[7]);
  }

  /** The last head finds nobody to cancel. */
  lemma LastArrives(s8: State)
    requires s8.shared.active == map[] && s8.shared.seen == {}
    requires 2 in s8.handlers && s8.handlers[2].Live() && s8.handlers[2].rev == OLD && 3 !in s8.handlers
    ensures IsRun(CONFIG, s8, REDELIVERY[8..])
    ensures var last := Final(CONFIG, s8, REDELIVERY[8..]).handlers;
            2 in last && 3 in last && last[2].rev.pr == last[3].rev.pr && last[2].Live() && last[3].Live()
  {
    RunFrom(REDELIVERY, 9, Apply(CONFIG, s8, REDELIVERY[8]));
    RunFrom(REDELIVERY, 8, s8);
  }

  /** Back to the start of four steps. */
  lemma BackFour(s: State, i: nat, t: State)
    requires i + 4 <= |REDELIVERY| && LeadsTo(s, i, t) && IsRun(CONFIG, t, REDELIVERY[i + 4..])
    ensures IsRun(CONFIG, s, REDELIVERY[i..]) && Final(CONFIG, s, REDELIVERY[i..]) == Final(CONFIG, t, REDELIVERY[i + 4..])
  {
    var s1 := Apply(CONFIG, s, REDELIVERY[i]);
    var s2 := Apply(CONFIG, s1, REDELIVERY[i + 1]);
    var s3 := Apply(CONFIG, s2, REDELIVERY[i + 2]);
    RunFrom(REDELIVERY, i + 3, s3);
    RunFrom(REDELIVERY, i + 2, s2);
    RunFrom(REDELIVERY, i + 1, s1);
    RunFrom(REDELIVERY, i, s);
  }

  /** Unfolds a run by its first step. */
  lemma RunFrom(steps: seq<Step>, i: nat, s: State)
    requires i <= |steps|
    requires i < |steps| ==> Enabled(s, steps[i]) && IsRun(CONFIG, Apply(CONFIG, s, steps[i]), steps[i + 1..])
    ensures IsRun(CONFIG, s, steps[i..])
    ensures Final(CONFIG, s, steps[i..])
         == if i == |steps| then s else Final(CONFIG, Apply(CONFIG, s, steps[i]), steps[i + 1..])
  {
    if i < |steps| {
      assert steps[i..][1..] == steps[i + 1..];
    }
  }
}

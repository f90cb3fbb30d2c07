/** How often is one revision posted successfully? Once, unless its mark was missed or it was
    delivered again while an older handler of it was still running. */
module BuckbotPosts {
  import opened Text
  import opened Buckbot
  import opened BuckbotRuns
  import opened BuckbotExclusivity

  /** One of the handler's posts succeeded. */
  predicate Delivered(hd: Handler) { Count(hd.history, GoodPosts) > 0 }

  /** The handler found its revision superseded when it came to mark it. */
  predicate Missed(h: History) {
    h.After? && (h.call == Marked(false) || Missed(h.before))
  }

  predicate Unposted(pc: Pc) {
    !pc.Marking? && !pc.Cancelling? && !pc.Releasing? && !pc.Done?
  }

  /** A handler posts successfully once at most, and then goes on to mark. */
  predicate PostsOk(hd: Handler) {
    Count(hd.history, GoodPosts) <= 1 && (Unposted(hd.pc) ==> !Delivered(hd))
  }

  /** What became of a successful post. */
  predicate Accounted(s: State, hd: Handler) {
    Delivered(hd) ==> hd.pc.Marking? || hd.rev in s.shared.seen || Missed(hd.history)
  }

  ghost predicate HandlersOk(s: State) {
    forall h | h in s.handlers :: PostsOk(s.handlers[h]) && Accounted(s, s.handlers[h])
  }

  /** A handler of a seen revision that still runs is on its way out. */
  ghost predicate SeenIsOver(s: State) {
    forall h | h in s.handlers && s.handlers[h].Running() && s.handlers[h].rev in s.shared.seen ::
      s.handlers[h].pc.Cancelling? || s.handlers[h].pc.Releasing?
  }

  ghost predicate SomeoneMissed(s: State, rev: Revision) {
    exists h :: h in s.handlers && s.handlers[h].rev == rev && Missed(s.handlers[h].history)
  }

  ghost predicate AtMostOnePost(s: State) {
    forall g, h | g in s.handlers && h in s.handlers && Delivered(s.handlers[g]) && Delivered(s.handlers[h]) ::
      s.handlers[g].rev == s.handlers[h].rev && g != h ==> SomeoneMissed(s, s.handlers[g].rev)
  }

  ghost predicate PostInv(s: State) {
    OneHandlerPerRevision(s) && HandlersOk(s) && SeenIsOver(s) && AtMostOnePost(s)
  }

  // ---- Every step ----

  /** Handlers other than the one that steps keep everything but perhaps their context. */
  lemma OthersStay(cfg: Config, s: State, step: Step, h: HandlerId)
    requires Enabled(s, step) && h in Apply(cfg, s, step).handlers && h != step.h
    ensures h in s.handlers
    ensures var a, b := s.handlers[h], Apply(cfg, s, step).handlers[h];
            a.rev == b.rev && a.pc == b.pc && a.history == b.history
  {
  }

  lemma SeenOnlyGrows(cfg: Config, s: State, step: Step)
    requires Enabled(s, step)
    ensures s.shared.seen <= Apply(cfg, s, step).shared.seen
    ensures !step.Mark? ==> Apply(cfg, s, step).shared.seen == s.shared.seen
    ensures step.Mark? ==> Apply(cfg, s, step).shared.seen <= s.shared.seen + {s.handlers[step.h].rev}
  {
  }

  lemma ActorKeepsPosts(cfg: Config, s: State, step: Step)
    requires Enabled(s, step) && (step.h in s.handlers ==> PostsOk(s.handlers[step.h]) && Accounted(s, s.handlers[step.h]))
    ensures var hd := Apply(cfg, s, step).handlers[step.h];
            PostsOk(hd) && Accounted(Apply(cfg, s, step), hd)
  {
  }

  lemma StepKeepsHandlers(cfg: Config, s: State, step: Step)
    requires HandlersOk(s) && Enabled(s, step)
    ensures HandlersOk(Apply(cfg, s, step))
  {
    var s' := Apply(cfg, s, step);
    ActorKeepsPosts(cfg, s, step);
    SeenOnlyGrows(cfg, s, step);
    forall h | h in s'.handlers ensures PostsOk(s'.handlers[h]) && Accounted(s', s'.handlers[h]) {
      if h != step.h {
        OthersStay(cfg, s, step, h);
      }
    }
  }

  lemma ActorIsOver(cfg: Config, s: State, step: Step)
    requires SeenIsOver(s) && Enabled(s, step)
    ensures var hd := Apply(cfg, s, step).handlers[step.h];
            hd.Running() && hd.rev in Apply(cfg, s, step).shared.seen ==> hd.pc.Cancelling? || hd.pc.Releasing?
  {
    SeenOnlyGrows(cfg, s, step);
  }

  lemma StepKeepsSeenOver(cfg: Config, s: State, step: Step)
    requires SeenIsOver(s) && OneHandlerPerRevision(s) && Enabled(s, step)
    ensures SeenIsOver(Apply(cfg, s, step))
  {
    var s' := Apply(cfg, s, step);
    ActorIsOver(cfg, s, step);
    SeenOnlyGrows(cfg, s, step);
    forall h | h in s'.handlers && s'.handlers[h].Running() && s'.handlers[h].rev in s'.shared.seen
      ensures s'.handlers[h].pc.Cancelling? || s'.handlers[h].pc.Releasing?
    {
      if h != step.h {
        OthersStay(cfg, s, step, h);
        if step.Mark? {
          assert s.handlers[step.h].Running();
        }
      }
    }
  }

  lemma MissesStay(cfg: Config, s: State, step: Step, rev: Revision)
    requires Enabled(s, step) && SomeoneMissed(s, rev)
    ensures SomeoneMissed(Apply(cfg, s, step), rev)
  {
    var h :| h in s.handlers && s.handlers[h].rev == rev && Missed(s.handlers[h].history);
    var s' := Apply(cfg, s, step);
    assert h in s'.handlers && s'.handlers[h].rev == rev && Missed(s'.handlers[h].history);
  }

  /** The only step that makes a handler one that delivered is its successful post. */
  lemma NewlyDelivered(cfg: Config, s: State, step: Step, h: HandlerId)
    requires Enabled(s, step) && h in Apply(cfg, s, step).handlers && Delivered(Apply(cfg, s, step).handlers[h])
    ensures h in s.handlers && s.handlers[h].rev == Apply(cfg, s, step).handlers[h].rev
    ensures Delivered(s.handlers[h]) || (h == step.h && s.handlers[h].pc.Posting?)
  {
    if h != step.h {
      OthersStay(cfg, s, step, h);
    }
  }

  /** While one handler is at its post, another that delivered the same revision has missed. */
  lemma OtherHasMissed(s: State, g: HandlerId, h: HandlerId)
    requires PostInv(s) && g in s.handlers && h in s.handlers && g != h && s.handlers[g].rev == s.handlers[h].rev
    requires s.handlers[g].pc.Posting? && Delivered(s.handlers[h])
    ensures SomeoneMissed(s, s.handlers[g].rev)
  {
    assert s.handlers[g].Running();
    assert !s.handlers[h].Running();
    assert s.handlers[g].rev !in s.shared.seen;
    assert Accounted(s, s.handlers[h]);
  }

  lemma StepKeepsOnePost(cfg: Config, s: State, step: Step)
    requires PostInv(s) && Enabled(s, step)
    ensures AtMostOnePost(Apply(cfg, s, step))
  {
    var s' := Apply(cfg, s, step);
    forall g, h | && g in s'.handlers && h in s'.handlers && Delivered(s'.handlers[g]) && Delivered(s'.handlers[h])
                  && s'.handlers[g].rev == s'.handlers[h].rev && g != h
      ensures SomeoneMissed(s', s'.handlers[g].rev)
    {
      NewlyDelivered(cfg, s, step, g);
      NewlyDelivered(cfg, s, step, h);
      if !Delivered(s.handlers[g]) {
        OtherHasMissed(s, g, h);
      } else if !Delivered(s.handlers[h]) {
        OtherHasMissed(s, h, g);
      }
      MissesStay(cfg, s, step, s.handlers[g].rev);
    }
  }

  lemma {:induction false} RunKeepsPosts(cfg: Config, s: State, steps: seq<Step>)
    requires PostInv(s) && IsRun(cfg, s, steps) && FreshDeliveries(cfg, s, steps)
    ensures PostInv(Final(cfg, s, steps))
    decreases |steps|
  {
    if steps != [] {
      StepKeepsOneHandler(cfg, s, steps[0]);
      StepKeepsHandlers(cfg, s, steps[0]);
      StepKeepsSeenOver(cfg, s, steps[0]);
      StepKeepsOnePost(cfg, s, steps[0]);
      RunKeepsPosts(cfg, Apply(cfg, s, steps[0]), steps[1..]);
    }
  }

  /** If no revision is delivered while an older handler of it runs, two handlers post it
      successfully only if one of its handlers found it superseded on coming to mark it; and
      no handler posts it successfully twice. */
  lemma PostedAtMostOnce(cfg: Config, spent0: real, steps: seq<Step>, g: HandlerId, h: HandlerId)
    requires IsRun(cfg, Initial(spent0), steps) && FreshDeliveries(cfg, Initial(spent0), steps)
    requires var last := Final(cfg, Initial(spent0), steps);
             && g in last.handlers && h in last.handlers && last.handlers[g].rev == last.handlers[h].rev
             && Delivered(last.handlers[g]) && Delivered(last.handlers[h])
             && !SomeoneMissed(last, last.handlers[g].rev)
    ensures g == h && Count(Final(cfg, Initial(spent0), steps).handlers[g].history, GoodPosts) == 1
  {
    RunKeepsPosts(cfg, Initial(spent0), steps);
  }

  // ---- Without either hypothesis a revision is posted twice ----

  /** Reachable; with `freshly`, by fresh deliveries only. */
  ghost predicate Via(freshly: bool, s: State) {
    exists steps :: IsRun(CONFIG, Initial(0.0), steps) && (freshly ==> FreshDeliveries(CONFIG, Initial(0.0), steps))
                 && Final(CONFIG, Initial(0.0), steps) == s
  }

  lemma {:induction false} FreshExtends(s: State, steps: seq<Step>, step: Step)
    requires IsRun(CONFIG, s, steps) && Enabled(Final(CONFIG, s, steps), step)
    requires FreshDeliveries(CONFIG, s, steps) && FreshDelivery(Final(CONFIG, s, steps), step)
    requires IsRun(CONFIG, s, steps + [step])
    ensures FreshDeliveries(CONFIG, s, steps + [step])
    decreases |steps|
  {
    if steps == [] {
      assert [step][1..] == [] && steps + [step] == [step];
    } else {
      assert (steps + [step])[1..] == steps[1..] + [step];
      FreshExtends(Apply(CONFIG, s, steps[0]), steps[1..], step);
    }
  }

  lemma ViaStep(freshly: bool, s: State, step: Step) returns (s': State)
    requires Via(freshly, s) && Enabled(s, step) && (freshly ==> FreshDelivery(s, step))
    ensures s' == Apply(CONFIG, s, step) && Via(freshly, s')
  {
    s' := Apply(CONFIG, s, step);
    var steps :| IsRun(CONFIG, Initial(0.0), steps) && (freshly ==> FreshDeliveries(CONFIG, Initial(0.0), steps))
                 && Final(CONFIG, Initial(0.0), steps) == s;
    RunExtends(CONFIG, Initial(0.0), steps, step);
    if freshly {
      FreshExtends(Initial(0.0), steps, step);
    }
  }

  const FINE := Review("fine", 0.0, None)

  /** All of `s` but handler `h` is as it was. */
  ghost predicate OnlyMoved(s: State, s': State, h: HandlerId) {
    && s'.shared == s.shared && s'.handlers.Keys == s.handlers.Keys && h in s.handlers
    && s'.handlers[h].rev == s.handlers[h].rev && s'.handlers[h].cancelled == s.handlers[h].cancelled
    && (Missed(s'.handlers[h].history) ==> Missed(s.handlers[h].history))
    && forall k | k in s.handlers && k != h :: s'.handlers[k] == s.handlers[k]
  }

  /** Three steps of a handler lead from `s` to `t`. */
  ghost predicate Three(s: State, a: Step, b: Step, c: Step, t: State) {
    && !a.Arrive? && !b.Arrive? && !c.Arrive?
    && Enabled(s, a)
    && var s1 := Apply(CONFIG, s, a);
       && Enabled(s1, b)
       && var s2 := Apply(CONFIG, s1, b);
          Enabled(s2, c) && t == Apply(CONFIG, s2, c)
  }

  lemma ViaThree(freshly: bool, s: State, a: Step, b: Step, c: Step, t: State)
    requires Via(freshly, s) && Three(s, a, b, c, t)
    ensures Via(freshly, t)
  {
    var s1 := ViaStep(freshly, s, a);
    var s2 := ViaStep(freshly, s1, b);
    var s3 := ViaStep(freshly, s2, c);
  }

  lemma Reviews(s: State, h: HandlerId) returns (t: State)
    requires h in s.handlers && s.handlers[h].pc == Reserving(0)
    requires s.shared.spent == 0.0 && s.shared.reserved == 0.0
    ensures Three(s, Reserve(h), DoReview(h, FINE), Settle(h), t)
    ensures OnlyMoved(s, t, h) && t.handlers[h].pc == StaleCheck(FINE)
  {
    FineIsPublishable();
    var s1 := Apply(CONFIG, s, Reserve(h));
    assert s1.handlers == s.handlers[h := s1.handlers[h]] && s1.handlers[h].pc == Reviewing(0);
    assert Missed(s1.handlers[h].history) == Missed(s.handlers[h].history);
    var s2 := Apply(CONFIG, s1, DoReview(h, FINE));
    assert s2.handlers == s.handlers[h := s2.handlers[h]] && s2.handlers[h].pc == Settling(0, FINE);
    assert Missed(s2.handlers[h].history) == Missed(s1.handlers[h].history);
    t := Apply(CONFIG, s2, Settle(h));
    assert t.handlers == s.handlers[h := t.handlers[h]];
  }

  lemma FineIsPublishable()
    ensures Judge(CONFIG, 0, FINE) == StaleCheck(FINE)
  {
    TrimFixed(FINE.text, WhiteSpace);
  }

  lemma PostsIt(s: State, h: HandlerId) returns (t: State)
    requires h in s.handlers && s.handlers[h].pc == StaleCheck(FINE) && s.shared.IsCurrent(s.handlers[h].rev)
    ensures Three(s, CheckStale(h), CheckPost(h), Post(h, true), t)
    ensures OnlyMoved(s, t, h) && t.handlers[h].pc == Marking && Delivered(t.handlers[h])
  {
    var s1 := Apply(CONFIG, s, CheckStale(h));
    assert s1.handlers == s.handlers[h := s1.handlers[h]] && s1.handlers[h].pc == PostCheck(FINE, 0);
    assert Missed(s1.handlers[h].history) == Missed(s.handlers[h].history);
    var s2 := Apply(CONFIG, s1, CheckPost(h));
    assert s2.handlers == s.handlers[h := s2.handlers[h]] && s2.handlers[h].pc == Posting(FINE, 0);
    assert Missed(s2.handlers[h].history) == Missed(s1.handlers[h].history);
    t := Apply(CONFIG, s2, Post(h, true));
    assert t.handlers == s.handlers[h := t.handlers[h]];
  }

  /** From arrival to a successful post, undisturbed. */
  lemma Delivers(freshly: bool, s: State, h: HandlerId) returns (s': State)
    requires Via(freshly, s) && h in s.handlers && s.handlers[h].pc == Reserving(0)
    requires s.shared.spent == 0.0 && s.shared.reserved == 0.0 && s.shared.IsCurrent(s.handlers[h].rev)
    ensures Via(freshly, s') && OnlyMoved(s, s', h) && s'.handlers[h].pc == Marking && Delivered(s'.handlers[h])
  {
    var t := Reviews(s, h);
    ViaThree(freshly, s, Reserve(h), DoReview(h, FINE), Settle(h), t);
    s' := PostsIt(t, h);
    ViaThree(freshly, t, CheckStale(h), CheckPost(h), Post(h, true), s');
  }

  lemma FirstArrives(freshly: bool) returns (s: State)
    ensures Via(freshly, s) && s.shared == Shared({}, map[PR := Entry(OLD, 0)], 0.0, 0.0)
    ensures s.handlers == map[0 := Handler(OLD, false, Reserving(0), After(Begin, Admission(true)))]
  {
    s := Initial(0.0);
    assert IsRun(CONFIG, s, []) && FreshDeliveries(CONFIG, s, []) && Final(CONFIG, s, []) == s;
    s := ViaStep(freshly, s, Arrive(0, OLD));
  }

  ghost predicate Superseded(s: State) {
    && s.shared == Shared({}, map[PR := Entry(NEW, 1)], 0.0, 0.0)
    && s.handlers.Keys == {0, 1} && s.handlers[0].rev == OLD && s.handlers[1].rev == NEW
    && s.handlers[0].pc == Marking && Delivered(s.handlers[0])
    && !Missed(s.handlers[0].history) && !Missed(s.handlers[1].history)
  }

  lemma SecondArrives(s: State)
    requires s.shared == Shared({}, map[PR := Entry(OLD, 0)], 0.0, 0.0) && s.handlers.Keys == {0}
    requires s.handlers[0].rev == OLD && s.handlers[0].pc == Marking && Delivered(s.handlers[0]) && !Missed(s.handlers[0].history)
    ensures Enabled(s, Arrive(1, NEW)) && FreshDelivery(s, Arrive(1, NEW)) && Superseded(Apply(CONFIG, s, Arrive(1, NEW)))
  {
  }

  /** Handler 0 posted the old head; before it could mark it, the new head arrived. */
  lemma PostedThenSuperseded(freshly: bool) returns (s: State)
    ensures Via(freshly, s) && Superseded(s)
  {
    s := FirstArrives(freshly);
    assert !Missed(s.handlers[0].history);
    s := Delivers(freshly, s, 0);
    SecondArrives(s);
    s := ViaStep(freshly, s, Arrive(1, NEW));
  }

  ghost predicate PostedTwice(s: State, rev: Revision) {
    exists g, h :: g in s.handlers && h in s.handlers && g != h && s.handlers[g].rev == s.handlers[h].rev == rev
                && Delivered(s.handlers[g]) && Delivered(s.handlers[h])
  }

  /** Handler 0 misses its mark and ends. */
  lemma MissesAndEnds(s: State) returns (t: State)
    requires Superseded(s)
    ensures Three(s, Mark(0), Cancel(0), Release(0), t)
    ensures t.shared == s.shared && t.handlers.Keys == {0, 1} && t.handlers[1] == s.handlers[1]
    ensures t.handlers[0].rev == OLD && t.handlers[0].pc == Done && Delivered(t.handlers[0])
  {
    var s1 := Apply(CONFIG, s, Mark(0));
    assert s1.shared == s.shared && s1.handlers[0].pc == Cancelling && Delivered(s1.handlers[0]);
    var s2 := Apply(CONFIG, s1, Cancel(0));
    assert Delivered(s2.handlers[0]);
    t := Apply(CONFIG, s2, Release(0));
  }

  /** The old head is announced once more. */
  lemma ThirdArrives(s: State)
    requires s.shared == Shared({}, map[PR := Entry(NEW, 1)], 0.0, 0.0) && s.handlers.Keys == {0, 1}
    requires s.handlers[0].rev == OLD && s.handlers[1].rev == NEW && Delivered(s.handlers[0])
    ensures Enabled(s, Arrive(2, OLD)) && (s.handlers[0].pc.Done? ==> FreshDelivery(s, Arrive(2, OLD)))
    ensures var t := Apply(CONFIG, s, Arrive(2, OLD));
            && t.shared == Shared({}, map[PR := Entry(OLD, 2)], 0.0, 0.0)
            && t.handlers.Keys == {0, 1, 2} && t.handlers[2].rev == OLD && t.handlers[2].pc == Reserving(0)
            && t.handlers[0] == s.handlers[0] && t.handlers[1].history == s.handlers[1].history
            && t.handlers[1].rev == NEW && !Missed(t.handlers[2].history)
  {
  }

  /** Once the third handler has delivered, two have. */
  lemma ThirdDelivered(s: State, t: State)
    requires s.handlers.Keys == {0, 1, 2} && s.handlers[0].rev == OLD && s.handlers[1].rev == NEW && s.handlers[2].rev == OLD
    requires Delivered(s.handlers[0]) && !Missed(s.handlers[2].history)
    requires OnlyMoved(s, t, 2) && Delivered(t.handlers[2])
    ensures PostedTwice(t, OLD) && (!Missed(s.handlers[0].history) ==> !SomeoneMissed(t, OLD))
  {
    assert Delivered(t.handlers[0]) && t.handlers[0].rev == t.handlers[2].rev;
  }

  lemma PostedAgain(freshly: bool, s: State) returns (t: State)
    requires Via(freshly, s) && s.shared == Shared({}, map[PR := Entry(NEW, 1)], 0.0, 0.0) && s.handlers.Keys == {0, 1}
    requires s.handlers[0].rev == OLD && s.handlers[1].rev == NEW && Delivered(s.handlers[0])
    requires freshly ==> s.handlers[0].pc.Done?
    ensures Via(freshly, t) && PostedTwice(t, OLD) && (!Missed(s.handlers[0].history) ==> !SomeoneMissed(t, OLD))
  {
    ThirdArrives(s);
    var s1 := ViaStep(freshly, s, Arrive(2, OLD));
    t := Delivers(freshly, s1, 2);
    ThirdDelivered(s1, t);
  }

  /** Fresh deliveries alone do not help: the mark is missed, the handler ends, and the old head
      announced again is posted again. */
  lemma MissedMarkPostsTwice() returns (s: State)
    ensures Via(true, s) && PostedTwice(s, OLD)
  {
    var s0 := PostedThenSuperseded(true);
    var s1 := MissesAndEnds(s0);
    ViaThree(true, s0, Mark(0), Cancel(0), Release(0), s1);
    s := PostedAgain(true, s1);
  }

  /** Nor does it help that no mark was missed: the old head announced again while its handler
      is about to mark it is posted again. */
  lemma OverlapPostsTwice() returns (s: State)
    ensures Via(false, s) && PostedTwice(s, OLD) && !SomeoneMissed(s, OLD)
  {
    var s0 := PostedThenSuperseded(false);
    s := PostedAgain(false, s0);
  }
}

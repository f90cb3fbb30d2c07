/** Messages reach only subscriptions whose pattern they match. */
module BusDelivery {
  import opened Bus
  import opened BusSafety
  import SubjectMatch

  ghost predicate Fits(s: State, sub: SubId, subject: string) {
    sub in s.subs && SubjectMatch.Matches(s.subs[sub].subject, subject)
  }

  /** A subscription is listed under its own subject. */
  ghost predicate ListedUnderOwnSubject(s: State) {
    forall pattern, sub | pattern in s.registry && sub in s.registry[pattern] ::
      sub in s.subs && s.subs[sub].subject == pattern
  }

  ghost predicate ScansFit(s: State) {
    forall t, sub | t in s.threads && Reading(s.threads[t]) && sub in s.threads[t].todo ::
      Fits(s, sub, s.threads[t].msg.subject)
  }

  ghost predicate BuffersFit(s: State) {
    forall sub, i | sub in s.subs && 0 <= i < |s.subs[sub].buffer| ::
      SubjectMatch.Matches(s.subs[sub].subject, s.subs[sub].buffer[i].subject)
  }

  ghost predicate DeliveryOk(s: State) {
    ListedUnderOwnSubject(s) && ScansFit(s) && BuffersFit(s)
  }

  /** Subjects are fixed when a subscription is made. */
  lemma EffectKeepsSubjects(s: State, e: Effect, sub: SubId)
    requires e.Delivers? || e.Raises? || e.Shuts? ==> e.sub in s.subs
    requires sub in s.subs && s.nextId !in s.subs
    ensures sub in SubsAfter(s, e) && SubsAfter(s, e)[sub].subject == s.subs[sub].subject
    ensures e.Delivers? || SubsAfter(s, e)[sub].buffer == s.subs[sub].buffer
  {
  }

  /** What a publisher scans next fits its message, given that the registry is right. */
  ghost predicate ScanFits(s: State, pc: Pc) {
    Reading(pc) ==> forall sub | sub in pc.todo :: Fits(s, sub, pc.msg.subject)
  }

  lemma PublishScansFit(s: State, t: ThreadId, s': State)
    requires t in s.threads && PublishStep(s, t, s.threads[t], s') && ListedUnderOwnSubject(s)
    requires t in s'.threads && ScanFits(s, s.threads[t])
    ensures ScanFits(s, s'.threads[t])
  {
    var pc := s.threads[t];
    if pc.PublishLock? {
      var todo := s'.threads[t].todo;
      forall sub | sub in todo ensures Fits(s, sub, pc.msg.subject) {
        assert RegisteredFor(s.registry, pc.msg.subject, sub);
      }
    }
  }

  lemma StepScansFit(s: State, t: ThreadId, s': State)
    requires t in s.threads && ThreadStep(s, t, s') && ListedUnderOwnSubject(s)
    requires t in s'.threads && ScanFits(s, s.threads[t])
    ensures ScanFits(s, s'.threads[t])
  {
    if PublishStep(s, t, s.threads[t], s') {
      PublishScansFit(s, t, s');
    }
  }

  ghost predicate SubjectsKept(s: State, s': State) {
    forall sub | sub in s.subs :: sub in s'.subs && s'.subs[sub].subject == s.subs[sub].subject
  }

  lemma UnsubscribeKeepsListing(s: State, t: ThreadId, s': State)
    requires t in s.threads && UnsubscribeStep(s, t, s.threads[t], s') && ListedUnderOwnSubject(s) && SubjectsKept(s, s')
    ensures ListedUnderOwnSubject(s')
  {
    var pc := s.threads[t];
    if pc.UnsubscribeClose? && s.subs[pc.sub].subject in s.registry {
      RemoveKeepsOthers(s.registry[s.subs[pc.sub].subject], pc.sub);
    }
  }

  lemma StepKeepsListing(s: State, t: ThreadId, s': State)
    requires t in s.threads && ThreadStep(s, t, s') && ListedUnderOwnSubject(s) && SubjectsKept(s, s')
    ensures ListedUnderOwnSubject(s')
  {
    var pc := s.threads[t];
    if UnsubscribeStep(s, t, pc, s') {
      UnsubscribeKeepsListing(s, t, s');
    } else if !SubscribeStep(s, t, pc, s') {
      RegistryUntouched(s, t, s');
    }
  }

  lemma ThreadStepKeepsDelivery(s: State, t: ThreadId, s': State)
    requires Inv(s) && DeliveryOk(s) && t in s.threads && ThreadStep(s, t, s')
    ensures DeliveryOk(s')
  {
    var e := EffectOf(s, t);
    assert ThreadOk(s, t);
    StepShape(s, t, s');
    assert s.nextId !in s.subs;
    forall sub | sub in s.subs ensures sub in s'.subs && s'.subs[sub].subject == s.subs[sub].subject {
      EffectKeepsSubjects(s, e, sub);
    }
    StepScansFit(s, t, s');
    StepKeepsListing(s, t, s');
    forall sub, i | sub in s'.subs && 0 <= i < |s'.subs[sub].buffer|
      ensures SubjectMatch.Matches(s'.subs[sub].subject, s'.subs[sub].buffer[i].subject)
    {
      if sub in s.subs {
        EffectKeepsSubjects(s, e, sub);
        if e.Delivers? && e.sub == sub {
          assert Fits(s, sub, s.threads[t].msg.subject);
        }
      }
    }
  }

  lemma StartKeepsDelivery(s: State, t: ThreadId, pc: Pc)
    requires DeliveryOk(s) && t !in s.threads && Starts(s, pc)
    ensures DeliveryOk(Goto(s, t, pc))
  {
  }

  lemma ReceiveKeepsDelivery(s: State, sub: SubId, s': State)
    requires DeliveryOk(s) && Receives(s, sub, s')
    ensures DeliveryOk(s')
  {
    assert forall i | 0 <= i < |s'.subs[sub].buffer| :: s'.subs[sub].buffer[i] == s.subs[sub].buffer[i + 1];
  }

  lemma NextKeepsDelivery(s: State, s': State)
    requires Inv(s) && DeliveryOk(s) && Next(s, s')
    ensures DeliveryOk(s')
  {
    if t, pc :| t !in s.threads && Starts(s, pc) && s' == Goto(s, t, pc) {
      StartKeepsDelivery(s, t, pc);
    } else if t :| t in s.threads && ThreadStep(s, t, s') {
      ThreadStepKeepsDelivery(s, t, s');
    } else {
      var sub :| Receives(s, sub, s');
      ReceiveKeepsDelivery(s, sub, s');
    }
  }

  lemma {:induction false} RunKeepsDelivery(run: seq<State>)
    requires IsRun(run)
    ensures DeliveryOk(run[|run| - 1])
    decreases |run|
  {
    if |run| > 1 {
      var before := run[..|run| - 1];
      assert forall i | 0 < i < |before| :: Next(before[i - 1], before[i]);
      RunKeepsDelivery(before);
      RunKeepsInv(before);
      NextKeepsDelivery(run[|run| - 2], run[|run| - 1]);
    }
  }

  /** In every run, every message waiting in a channel matches that subscription's pattern. */
  lemma NoMisdelivery(run: seq<State>, i: nat, sub: SubId, k: nat)
    requires IsRun(run) && i < |run| && sub in run[i].subs && k < |run[i].subs[sub].buffer|
    ensures SubjectMatch.Matches(run[i].subs[sub].subject, run[i].subs[sub].buffer[k].subject)
  {
    RunKeepsDelivery(run[..i + 1]);
  }

  // ---- Every matching subscription is dealt with ----

  /** A thread's place in its operation changes only by a step of its own. */
  lemma OwnStep(s: State, s': State, t: ThreadId)
    requires Inv(s) && Next(s, s') && t in s.threads
    ensures t in s'.threads && (s'.threads[t] == s.threads[t] || ThreadStep(s, t, s'))
  {
    if u, pc :| u !in s.threads && Starts(s, pc) && s' == Goto(s, u, pc) {
    } else if u :| u in s.threads && ThreadStep(s, u, s') {
      assert ThreadOk(s, u);
      StepShape(s, u, s');
    } else {
      var sub :| Receives(s, sub, s');
    }
  }

  ghost predicate Scans(s: State, t: ThreadId) { t in s.threads && Reading(s.threads[t]) }

  ghost function Todo(s: State, t: ThreadId): seq<SubId>
    requires Scans(s, t)
  {
    s.threads[t].todo
  }

  /** From `s` to `s'` the publisher is done with `sub`. */
  ghost predicate Settles(s: State, t: ThreadId, s': State, sub: SubId) {
    && Scans(s, t) && Scans(s', t)
    && Todo(s, t) != [] && Todo(s, t)[0] == sub && Todo(s', t) == Todo(s, t)[1..]
  }

  /** It found the flag up and sent nothing; or it sent on an open channel, and the message is
      the last in the buffer, unless the buffer was full. */
  ghost predicate DealtWith(s: State, t: ThreadId, s': State, sub: SubId, msg: Message) {
    && t in s.threads && sub in s.subs && sub in s'.subs
    && var before, after := s.subs[sub].buffer, s'.subs[sub].buffer;
       if s.threads[t].PublishScan? then s.subs[sub].flag && after == before
       else !s.subs[sub].closed && after == if |before| < CHANNEL_CAPACITY then before + [msg] else before
  }

  /** What one step may do to a publisher that goes on scanning. */
  ghost predicate ScanMove(s: State, t: ThreadId, s': State) {
    && Scans(s, t) && Scans(s', t) && s'.threads[t].msg == s.threads[t].msg
    && (|| Todo(s', t) == Todo(s, t)
        || (&& Todo(s, t) != [] && Settles(s, t, s', Todo(s, t)[0])
            && DealtWith(s, t, s', Todo(s, t)[0], s.threads[t].msg)))
  }

  lemma OwnScanStep(s: State, s': State, t: ThreadId)
    requires Inv(s) && Scans(s, t) && Scans(s', t) && PublishStep(s, t, s.threads[t], s')
    ensures ScanMove(s, t, s')
  {
    assert TargetOf(s.threads[t]).Some? ==> !s.subs[TargetOf(s.threads[t]).value].closed;
  }

  lemma ScanStep(s: State, s': State, t: ThreadId)
    requires Inv(s) && Next(s, s') && Scans(s, t) && Scans(s', t)
    ensures ScanMove(s, t, s')
  {
    OwnStep(s, s', t);
    if s'.threads[t] != s.threads[t] {
      assert PublishStep(s, t, s.threads[t], s');
      OwnScanStep(s, s', t);
    }
  }

  ghost predicate ScansFromTo(run: seq<State>, t: ThreadId, i: nat, j: nat) {
    i <= j < |run| && forall k | i <= k <= j :: Scans(run[k], t)
  }

  ghost predicate ScanTrace(run: seq<State>, t: ThreadId, i: nat, j: nat) {
    i <= j < |run| && Scans(run[i], t) && forall k | i <= k < j :: ScanMove(run[k], t, run[k + 1])
  }

  lemma RunScanMove(run: seq<State>, t: ThreadId, k: nat)
    requires IsRun(run) && k + 1 < |run| && Scans(run[k], t) && Scans(run[k + 1], t)
    ensures ScanMove(run[k], t, run[k + 1])
  {
    NoRunPanics(run, k);
    assert Next(run[k + 1 - 1], run[k + 1]);
    ScanStep(run[k], run[k + 1], t);
  }

  lemma RunScans(run: seq<State>, t: ThreadId, i: nat, j: nat)
    requires IsRun(run) && ScansFromTo(run, t, i, j)
    ensures ScanTrace(run, t, i, j)
  {
    forall k | i <= k < j ensures ScanMove(run[k], t, run[k + 1]) {
      RunScanMove(run, t, k);
    }
  }

  /** The list only gets shorter. */
  lemma {:induction false} TodoShrinks(run: seq<State>, t: ThreadId, i: nat, j: nat, x: SubId)
    requires ScanTrace(run, t, i, j) && Scans(run[j], t) && x in Todo(run[j], t)
    ensures x in Todo(run[i], t)
    decreases j - i
  {
    if i < j {
      assert ScanMove(run[j - 1], t, run[j - 1 + 1]);
      TodoShrinks(run, t, i, j - 1, x);
    }
  }

  /** Between `i` and `j` the publisher is done with `sub` at step `k` and at no other. */
  ghost predicate SettledOnce(run: seq<State>, t: ThreadId, i: nat, j: nat, sub: SubId, k: nat)
    requires j < |run|
  {
    && i <= k < j && Settles(run[k], t, run[k + 1], sub)
    && forall m | i <= m < j && Settles(run[m], t, run[m + 1], sub) :: m == k
  }

  lemma SettledHere(run: seq<State>, t: ThreadId, i: nat, j: nat, sub: SubId)
    requires ScanTrace(run, t, i, j) && i < j
    requires Once(Todo(run[i], t)) && Settles(run[i], t, run[i + 1], sub)
    ensures SettledOnce(run, t, i, j, sub, i)
  {
    assert sub !in Todo(run[i + 1], t);
    forall m | i < m < j ensures !Settles(run[m], t, run[m + 1], sub) {
      if Settles(run[m], t, run[m + 1], sub) {
        TodoShrinks(run, t, i + 1, m, sub);
      }
    }
  }

  lemma SettledLater(run: seq<State>, t: ThreadId, i: nat, j: nat, sub: SubId, k: nat)
    requires j < |run| && i < j && SettledOnce(run, t, i + 1, j, sub, k) && !Settles(run[i], t, run[i + 1], sub)
    ensures SettledOnce(run, t, i, j, sub, k)
  {
  }

  lemma OnceWithoutHead(todo: seq<SubId>, sub: SubId)
    requires Once(todo) && sub in todo && todo[0] != sub
    ensures Once(todo[1..]) && sub in todo[1..]
  {
  }

  lemma {:induction false} ScanReaches(run: seq<State>, t: ThreadId, i: nat, j: nat, sub: SubId) returns (k: nat)
    requires ScanTrace(run, t, i, j) && Scans(run[j], t)
    requires Once(Todo(run[i], t)) && sub in Todo(run[i], t) && sub !in Todo(run[j], t)
    ensures SettledOnce(run, t, i, j, sub, k)
    ensures DealtWith(run[k], t, run[k + 1], sub, run[i].threads[t].msg)
    decreases j - i
  {
    var s, s' := run[i], run[i + 1];
    assert ScanMove(s, t, s');
    if Settles(s, t, s', sub) {
      SettledHere(run, t, i, j, sub);
      k := i;
    } else {
      if Todo(s', t) != Todo(s, t) {
        OnceWithoutHead(Todo(s, t), sub);
      }
      k := ScanReaches(run, t, i + 1, j, sub);
      SettledLater(run, t, i, j, sub, k);
    }
  }

  /** A publisher that goes through its list deals with every subscription registered for the
      subject when it took the lock, each exactly once: it skips those whose flag it finds up,
      and puts the message last into the buffer of the others, unless that is full. */
  lemma PublishReachesEach(run: seq<State>, t: ThreadId, i: nat, j: nat, sub: SubId) returns (k: nat)
    requires IsRun(run) && 0 < i && ScansFromTo(run, t, i, j) && Todo(run[j], t) == []
    requires t in run[i - 1].threads && run[i - 1].threads[t].PublishLock?
    requires RegisteredFor(run[i - 1].registry, run[i - 1].threads[t].msg.subject, sub)
    ensures SettledOnce(run, t, i, j, sub, k)
    ensures DealtWith(run[k], t, run[k + 1], sub, run[i - 1].threads[t].msg)
  {
    NoRunPanics(run, i - 1);
    assert Next(run[i - 1], run[i]);
    OwnStep(run[i - 1], run[i], t);
    TakingTheLock(run[i - 1], run[i], t);
    RunScans(run, t, i, j);
    k := ScanReaches(run, t, i, j, sub);
  }

  lemma TakingTheLock(s: State, s': State, t: ThreadId)
    requires t in s.threads && s.threads[t].PublishLock? && ThreadStep(s, t, s') && Scans(s', t)
    ensures s'.threads[t].msg == s.threads[t].msg && ListsMatching(s, s.threads[t].msg.subject, Todo(s', t))
  {
  }
}

/** Who is listed, and what Unsubscribe, Close and Request leave behind. */
module BusLifecycle {
  import opened Text
  import opened Bus
  import opened BusSafety
  import opened BusDelivery

  // ---- Taking one entry out of a list ----

  /** The list without its first `sub`, everything else in its place. */
  ghost predicate TakenOut(ids: seq<SubId>, sub: SubId, rest: seq<SubId>) {
    if sub !in ids then rest == ids
    else exists i :: 0 <= i < |ids| && ids[i] == sub && sub !in ids[..i] && rest == ids[..i] + ids[i + 1..]
  }

  lemma RemoveTakesOut(ids: seq<SubId>, sub: SubId)
    ensures TakenOut(ids, sub, Remove(ids, sub))
  {
    if sub in ids {
      var i := RemovedAt(ids, sub);
      assert ids[i] == sub;
    } else {
      RemoveAbsent(ids, sub);
    }
  }

  lemma {:induction false} RemoveAbsent(ids: seq<SubId>, sub: SubId)
    requires sub !in ids
    ensures Remove(ids, sub) == ids
    decreases |ids|
  {
    if ids != [] {
      RemoveAbsent(ids[1..], sub);
      assert ids == [ids[0]] + ids[1..];
    }
  }

  lemma {:induction false} RemovedAt(ids: seq<SubId>, sub: SubId) returns (i: nat)
    requires sub in ids
    ensures i < |ids| && ids[i] == sub && sub !in ids[..i] && Remove(ids, sub) == ids[..i] + ids[i + 1..]
    decreases |ids|
  {
    if ids[0] == sub {
      i := 0;
      assert ids[..0] + ids[1..] == ids[1..];
    } else {
      var j := RemovedAt(ids[1..], sub);
      i := j + 1;
      OneFurther(ids, j);
    }
  }

  lemma OneFurther(ids: seq<SubId>, j: nat)
    requires j + 1 < |ids|
    ensures ids[..j + 1] == [ids[0]] + ids[1..][..j]
    ensures [ids[0]] + (ids[1..][..j] + ids[1..][j + 1..]) == ids[..j + 1] + ids[j + 2..]
  {
    assert ids[1..][j + 1..] == ids[j + 2..];
  }

  lemma {:induction false} RemoveContents(ids: seq<SubId>, sub: SubId)
    requires Once(ids)
    ensures Once(Remove(ids, sub)) && forall x :: x in Remove(ids, sub) <==> x in ids && x != sub
    decreases |ids|
  {
    if ids != [] {
      assert Once(ids[1..]) && ids[0] !in ids[1..];
      if ids[0] != sub {
        RemoveContents(ids[1..], sub);
      }
    }
  }

  // ---- Everyone whose flag is down is listed ----

  type Subs = map<SubId, Subscription>
  type Registry = map<string, seq<SubId>>

  /** Each list holds each entry once, under the entry's own subject, and a subscription whose
      flag is down is in the list of its own subject. */
  ghost predicate Listing(subs: Subs, registry: Registry) {
    && (forall subject, sub | subject in registry && sub in registry[subject] :: sub in subs && subs[sub].subject == subject)
    && (forall subject | subject in registry :: Once(registry[subject]))
    && (forall sub | sub in subs && !subs[sub].flag ::
          subs[sub].subject in registry && sub in registry[subs[sub].subject])
  }

  ghost predicate ListingOk(s: State) { Listing(s.subs, s.registry) }

  /** Subscriptions stay, keep their subject, and a flag once up stays up. */
  ghost predicate Stay(subs: Subs, subs': Subs) {
    forall sub | sub in subs ::
      sub in subs' && subs'[sub].subject == subs[sub].subject && (subs[sub].flag ==> subs'[sub].flag)
  }

  ghost predicate FlagsStay(s: State, s': State) { Stay(s.subs, s'.subs) }

  lemma EffectKeepsFlags(s: State, e: Effect)
    requires (e.Delivers? || e.Raises? || e.Shuts? ==> e.sub in s.subs) && s.nextId !in s.subs
    ensures Stay(s.subs, SubsAfter(s, e)) && (!e.Adds? ==> SubsAfter(s, e).Keys == s.subs.Keys)
  {
  }

  lemma StepKeepsFlags(s: State, t: ThreadId, s': State)
    requires Inv(s) && t in s.threads && ThreadStep(s, t, s')
    ensures FlagsStay(s, s')
    ensures s.threads[t].SubscribeAdd? || s'.subs.Keys == s.subs.Keys
  {
    assert ThreadOk(s, t);
    StepShape(s, t, s');
    EffectKeepsFlags(s, EffectOf(s, t));
  }

  lemma AddKeepsListing(subs: Subs, registry: Registry, subject: string, id: SubId)
    requires Listing(subs, registry) && id !in subs
    ensures var listed := if subject in registry then registry[subject] else [];
            Listing(subs[id := Subscription(subject, false, false, [])], registry[subject := listed + [id]])
  {
    var listed := if subject in registry then registry[subject] else [];
    var registry' := registry[subject := listed + [id]];
    assert id !in listed;
    assert Once(listed + [id]);
    forall sub | sub in subs && !subs[sub].flag ensures sub in registry'[subs[sub].subject] {
    }
  }

  lemma DropKeepsListing(subs: Subs, registry: Registry, sub: SubId)
    requires Listing(subs, registry) && sub in subs && subs[sub].flag && subs[sub].subject in registry
    ensures Listing(subs, registry[subs[sub].subject := Remove(registry[subs[sub].subject], sub)])
  {
    RemoveContents(registry[subs[sub].subject], sub);
  }

  lemma StayKeepsListing(subs: Subs, subs': Subs, registry: Registry)
    requires Listing(subs, registry) && Stay(subs, subs') && subs'.Keys == subs.Keys
    ensures Listing(subs', registry)
  {
  }

  /** What a step does to the lists: nothing, add the new subscription, or take one out. */
  ghost predicate RegistryMove(s: State, t: ThreadId, s': State)
    requires t in s.threads
  {
    match s.threads[t]
    case SubscribeAdd(subject, _) =>
      var listed := if subject in s.registry then s.registry[subject] else [];
      && s'.registry == s.registry[subject := listed + [s.nextId]]
      && s'.subs == s.subs[s.nextId := Subscription(subject, false, false, [])]
    case UnsubscribeClose(sub) =>
      && sub in s.subs
      && var subject := s.subs[sub].subject;
         s'.registry == if subject in s.registry then s.registry[subject := Remove(s.registry[subject], sub)] else s.registry
    case _ => s'.registry == s.registry
  }

  lemma StepMovesRegistry(s: State, t: ThreadId, s': State)
    requires t in s.threads && ThreadStep(s, t, s')
    ensures RegistryMove(s, t, s')
  {
    if PublishStep(s, t, s.threads[t], s') || CloseStep(s, t, s.threads[t], s') {
      RegistryUntouched(s, t, s');
    }
  }

  /** A thread that is to close a channel has raised the flag on it. */
  lemma ClaimIsFlagged(s: State, t: ThreadId)
    requires FlagsOk(s) && t in s.threads && ClaimOf(s.threads[t]).Some?
    ensures var sub := ClaimOf(s.threads[t]).value; sub in s.subs && s.subs[sub].flag
  {
    assert !Unclaimed(s, ClaimOf(s.threads[t]).value);
  }

  lemma ThreadStepKeepsListing(s: State, t: ThreadId, s': State)
    requires Inv(s) && ListingOk(s) && t in s.threads && ThreadStep(s, t, s')
    ensures ListingOk(s')
  {
    StepMovesRegistry(s, t, s');
    StepKeepsFlags(s, t, s');
    MoveKeepsListing(s, t, s');
  }

  lemma MoveKeepsListing(s: State, t: ThreadId, s': State)
    requires ListingOk(s) && IdsOk(s) && FlagsOk(s) && t in s.threads && RegistryMove(s, t, s') && FlagsStay(s, s')
    requires s.threads[t].SubscribeAdd? || s'.subs.Keys == s.subs.Keys
    ensures ListingOk(s')
  {
    var pc := s.threads[t];
    if pc.SubscribeAdd? {
      AddKeepsListing(s.subs, s.registry, pc.subject, s.nextId);
    } else {
      if pc.UnsubscribeClose? {
        ClaimIsFlagged(s, t);
        if s.subs[pc.sub].subject in s.registry {
          DropKeepsListing(s.subs, s.registry, pc.sub);
        }
      }
      StayKeepsListing(s.subs, s'.subs, s'.registry);
    }
  }

  lemma NextKeepsListing(s: State, s': State)
    requires Inv(s) && ListingOk(s) && Next(s, s')
    ensures ListingOk(s')
  {
    if t, pc :| t !in s.threads && Starts(s, pc) && s' == Goto(s, t, pc) {
      StayKeepsListing(s.subs, s'.subs, s.registry);
    } else if t :| t in s.threads && ThreadStep(s, t, s') {
      ThreadStepKeepsListing(s, t, s');
    } else {
      var sub :| Receives(s, sub, s');
      StayKeepsListing(s.subs, s'.subs, s.registry);
    }
  }

  lemma {:induction false} RunKeepsListing(run: seq<State>)
    requires IsRun(run)
    ensures ListingOk(run[|run| - 1])
    decreases |run|
  {
    if |run| > 1 {
      var before := run[..|run| - 1];
      assert forall i | 0 < i < |before| :: Next(before[i - 1], before[i]);
      RunKeepsListing(before);
      RunKeepsInv(before);
      NextKeepsListing(run[|run| - 2], run[|run| - 1]);
    }
  }

  /** In every run a subscription whose flag is down stands in the list of its own subject, in
      one place and no other. */
  lemma OpenIsListedOnce(run: seq<State>, i: nat, sub: SubId) returns (k: nat)
    requires IsRun(run) && i < |run| && sub in run[i].subs && !run[i].subs[sub].flag
    ensures var s := run[i];
            && s.subs[sub].subject in s.registry
            && var ids := s.registry[s.subs[sub].subject];
               k < |ids| && ids[k] == sub && forall m | 0 <= m < |ids| && ids[m] == sub :: m == k
  {
    RunKeepsListing(run[..i + 1]);
    var s := run[i];
    k :| 0 <= k < |s.registry[s.subs[sub].subject]| && s.registry[s.subs[sub].subject][k] == sub;
  }

  /** The end of an unsubscribe closes the channel of `sub` and takes its entry out of the list
      of its subject; every other entry and every other list stays as it was. */
  lemma UnsubscribeTakesOutOne(s: State, t: ThreadId, s': State)
    requires Inv(s) && t in s.threads && s.threads[t].UnsubscribeClose? && ThreadStep(s, t, s')
    ensures var sub := s.threads[t].sub;
            && sub in s.subs && sub in s'.subs && s'.subs[sub].closed && s'.registry.Keys == s.registry.Keys
            && forall subject | subject in s.registry ::
                 if subject == s.subs[sub].subject then TakenOut(s.registry[subject], sub, s'.registry[subject])
                 else s'.registry[subject] == s.registry[subject]
  {
    var sub := s.threads[t].sub;
    assert Mentions(s.threads[t], sub);
    if s.subs[sub].subject in s.registry {
      RemoveTakesOut(s.registry[s.subs[sub].subject], sub);
    }
  }

  // ---- Every step of a run ----

  lemma NextKeepsFlags(s: State, s': State)
    requires Inv(s) && Next(s, s')
    ensures FlagsStay(s, s') && (s.closed ==> s'.closed)
  {
    if t, pc :| t !in s.threads && Starts(s, pc) && s' == Goto(s, t, pc) {
    } else if t :| t in s.threads && ThreadStep(s, t, s') {
      StepKeepsFlags(s, t, s');
      StepKeepsClosed(s, t, s');
    } else {
      var sub :| Receives(s, sub, s');
    }
  }

  lemma StepKeepsClosed(s: State, t: ThreadId, s': State)
    requires t in s.threads && ThreadStep(s, t, s')
    ensures s.closed ==> s'.closed
  {
  }

  /** What a run's step does, as far as thread `t` is concerned. */
  ghost predicate Move(s: State, t: ThreadId, s': State) {
    && FlagsStay(s, s') && (s.closed ==> s'.closed)
    && t in s.threads && t in s'.threads
    && (s'.threads[t] == s.threads[t] || ThreadStep(s, t, s'))
  }

  lemma RunMove(run: seq<State>, t: ThreadId, k: nat)
    requires IsRun(run) && k + 1 < |run| && t in run[k].threads
    ensures Move(run[k], t, run[k + 1]) && Inv(run[k])
  {
    NoRunPanics(run, k);
    assert Next(run[k + 1 - 1], run[k + 1]);
    OwnStep(run[k], run[k + 1], t);
    NextKeepsFlags(run[k], run[k + 1]);
  }

  // ---- A closed bus ----

  predicate AtTheDoor(pc: Pc) { pc.PublishCheck? || pc.SubscribeCheck? }

  /** An operation that finds the bus open goes on, one that finds it closed is over. */
  lemma DoorExactly(s: State, t: ThreadId, s': State)
    requires t in s.threads && AtTheDoor(s.threads[t]) && ThreadStep(s, t, s')
    ensures var pc := s.threads[t];
            s' == Goto(s, t, if s.closed then Finished
                             else if pc.PublishCheck? then PublishLock(pc.msg, None) else SubscribeAdd(pc.subject, pc.request))
  {
  }

  /** `s` and `s'` agree that `t` was refused, or is about to be. */
  ghost predicate StaysRefused(s: State, t: ThreadId, s': State) {
    t in s.threads && s.closed && (AtTheDoor(s.threads[t]) || s.threads[t].Finished?) ==>
      t in s'.threads && s'.closed && (s'.threads[t] == s.threads[t] || s'.threads[t].Finished?)
  }

  lemma RefusedMove(s: State, t: ThreadId, s': State)
    requires Move(s, t, s')
    ensures StaysRefused(s, t, s')
  {
  }

  lemma RunStaysRefused(run: seq<State>, t: ThreadId, k: nat)
    requires IsRun(run) && k + 1 < |run|
    ensures StaysRefused(run[k], t, run[k + 1])
  {
    if t in run[k].threads {
      RunMove(run, t, k);
      RefusedMove(run[k], t, run[k + 1]);
    }
  }

  lemma {:induction false} RefusedThroughout(run: seq<State>, t: ThreadId, i: nat, j: nat)
    requires i <= j < |run| && (forall k | i <= k < j :: StaysRefused(run[k], t, run[k + 1]))
    requires t in run[i].threads && AtTheDoor(run[i].threads[t]) && run[i].closed
    ensures t in run[j].threads && run[j].closed && (run[j].threads[t] == run[i].threads[t] || run[j].threads[t].Finished?)
    decreases j - i
  {
    if i < j {
      RefusedThroughout(run, t, i, j - 1);
      assert StaysRefused(run[j - 1], t, run[j - 1 + 1]);
    }
  }

  /** A Publish, Subscribe or Request that has not got past its check when the bus is closed
      never does anything. */
  lemma ClosedBusRefuses(run: seq<State>, t: ThreadId, i: nat, j: nat)
    requires IsRun(run) && i <= j < |run|
    requires t in run[i].threads && AtTheDoor(run[i].threads[t]) && run[i].closed
    ensures t in run[j].threads && run[j].closed && (run[j].threads[t] == run[i].threads[t] || run[j].threads[t].Finished?)
  {
    forall k | i <= k < j ensures StaysRefused(run[k], t, run[k + 1]) {
      RunStaysRefused(run, t, k);
    }
    RefusedThroughout(run, t, i, j);
  }

  /** A second Close does nothing. */
  lemma SecondCloseDoesNothing(s: State, t: ThreadId, s': State)
    requires t in s.threads && s.threads[t].CloseSwap? && s.closed && ThreadStep(s, t, s')
    ensures s' == Goto(s, t, Finished)
  {
  }

  ghost predicate Closing(s: State, t: ThreadId) {
    t in s.threads && (s.threads[t].CloseScan? || s.threads[t].CloseChannel?)
  }

  /** What the closing thread has still to look at. */
  ghost function ToClose(s: State, t: ThreadId): seq<SubId> {
    if Closing(s, t) then s.threads[t].todo else []
  }

  ghost predicate Flagged(s: State, sub: SubId) { sub in s.subs && s.subs[sub].flag }

  /** The closing thread drops from its list only what has its flag up. */
  ghost predicate Minds(s: State, t: ThreadId, s': State, sub: SubId) {
    && Closing(s, t) && Closing(s', t)
    && (sub in ToClose(s, t) || Flagged(s, sub) ==> sub in ToClose(s', t) || Flagged(s', sub))
  }

  lemma CloseMove(s: State, t: ThreadId, s': State, sub: SubId)
    requires Inv(s) && Move(s, t, s') && Closing(s, t) && Closing(s', t)
    ensures Minds(s, t, s', sub)
  {
    if s'.threads[t] != s.threads[t] {
      assert CloseStep(s, t, s.threads[t], s');
      if ClaimOf(s.threads[t]).Some? {
        ClaimIsFlagged(s, t);
      }
      OwnCloseStep(s, t, s', sub);
    }
  }

  lemma OwnCloseStep(s: State, t: ThreadId, s': State, sub: SubId)
    requires FlagsStay(s, s') && Closing(s, t) && Closing(s', t) && CloseStep(s, t, s.threads[t], s')
    requires ClaimOf(s.threads[t]).Some? ==> Flagged(s, ClaimOf(s.threads[t]).value)
    ensures Minds(s, t, s', sub)
  {
  }

  lemma RunMinds(run: seq<State>, t: ThreadId, k: nat, sub: SubId)
    requires IsRun(run) && k + 1 < |run| && Closing(run[k], t) && Closing(run[k + 1], t)
    ensures Minds(run[k], t, run[k + 1], sub)
  {
    RunMove(run, t, k);
    CloseMove(run[k], t, run[k + 1], sub);
  }

  lemma {:induction false} MindsThroughout(run: seq<State>, t: ThreadId, i: nat, j: nat, sub: SubId)
    requires i <= j < |run| && (forall k | i <= k < j :: Minds(run[k], t, run[k + 1], sub))
    requires sub in ToClose(run[i], t) || Flagged(run[i], sub)
    ensures sub in ToClose(run[j], t) || Flagged(run[j], sub)
    decreases j - i
  {
    if i < j {
      MindsThroughout(run, t, i, j - 1, sub);
      assert Minds(run[j - 1], t, run[j - 1 + 1], sub);
    }
  }

  /** When Close is through its list, every subscription registered when it took the lock has its
      flag up: its channel is closed, or the one thread that will close it is on its way. */
  lemma CloseShutsAll(run: seq<State>, t: ThreadId, i: nat, j: nat, sub: SubId)
    requires IsRun(run) && 0 < i <= j < |run| && (forall k | i <= k <= j :: Closing(run[k], t))
    requires t in run[i - 1].threads && run[i - 1].threads[t].CloseLock? && ToClose(run[j], t) == []
    requires Registered(run[i - 1].registry, sub)
    ensures Flagged(run[j], sub) && (run[j].subs[sub].closed || !Unclaimed(run[j], sub))
  {
    forall k | i <= k < j ensures Minds(run[k], t, run[k + 1], sub) {
      RunMinds(run, t, k, sub);
    }
    TakesCloseLock(run, t, i - 1, sub);
    MindsThroughout(run, t, i, j, sub);
    FlaggedIsShut(run, j, sub);
  }

  lemma FlaggedIsShut(run: seq<State>, j: nat, sub: SubId)
    requires IsRun(run) && j < |run| && Flagged(run[j], sub)
    ensures run[j].subs[sub].closed || !Unclaimed(run[j], sub)
  {
    NoRunPanics(run, j);
  }

  lemma TakesCloseLock(run: seq<State>, t: ThreadId, k: nat, sub: SubId)
    requires IsRun(run) && k + 1 < |run| && t in run[k].threads && run[k].threads[t].CloseLock?
    requires Closing(run[k + 1], t) && Registered(run[k].registry, sub)
    ensures sub in ToClose(run[k + 1], t)
  {
    RunMove(run, t, k);
    OwnCloseLock(run[k], t, run[k + 1], sub);
  }

  lemma OwnCloseLock(s: State, t: ThreadId, s': State, sub: SubId)
    requires Move(s, t, s') && s.threads[t].CloseLock? && Closing(s', t) && Registered(s.registry, sub)
    ensures sub in ToClose(s', t)
  {
  }

  // ---- A Request and its reply subscription ----

  /** The thread will still unsubscribe `reply`. */
  predicate Owes(pc: Pc, reply: SubId) {
    match pc
    case PublishLock(_, after) => after == Some(reply)
    case PublishScan(_, _, after) => after == Some(reply)
    case PublishSend(_, _, after) => after == Some(reply)
    case RequestWait(r) => r == reply
    case UnsubscribeSwap(r) => r == reply
    case _ => false
  }

  ghost predicate StillOwes(s: State, t: ThreadId, reply: SubId) {
    t in s.threads && (Owes(s.threads[t], reply) || Flagged(s, reply))
  }

  lemma OwesMove(s: State, t: ThreadId, s': State, reply: SubId)
    requires Move(s, t, s') && StillOwes(s, t, reply)
    ensures StillOwes(s', t, reply)
  {
    if !Flagged(s, reply) && s'.threads[t] != s.threads[t] {
      OwnOwesStep(s, t, s', reply);
    }
  }

  lemma OwnOwesStep(s: State, t: ThreadId, s': State, reply: SubId)
    requires t in s.threads && t in s'.threads && ThreadStep(s, t, s') && Owes(s.threads[t], reply)
    ensures StillOwes(s', t, reply)
  {
  }

  lemma RunOwes(run: seq<State>, t: ThreadId, k: nat, reply: SubId)
    requires IsRun(run) && k + 1 < |run|
    ensures StillOwes(run[k], t, reply) ==> StillOwes(run[k + 1], t, reply)
  {
    if StillOwes(run[k], t, reply) {
      RunMove(run, t, k);
      OwesMove(run[k], t, run[k + 1], reply);
    }
  }

  lemma {:induction false} OwesThroughout(run: seq<State>, t: ThreadId, i: nat, j: nat, reply: SubId)
    requires i <= j < |run| && StillOwes(run[i], t, reply)
    requires forall k | i <= k < j :: StillOwes(run[k], t, reply) ==> StillOwes(run[k + 1], t, reply)
    ensures StillOwes(run[j], t, reply)
    decreases j - i
  {
    if i < j {
      OwesThroughout(run, t, i, j - 1, reply);
      assert StillOwes(run[j - 1], t, reply) ==> StillOwes(run[j - 1 + 1], t, reply);
    }
  }

  /** A Request that is over has unsubscribed its reply subscription. */
  lemma RequestCleansUp(run: seq<State>, t: ThreadId, i: nat, j: nat, reply: SubId)
    requires IsRun(run) && i <= j < |run| && t in run[i].threads && Owes(run[i].threads[t], reply)
    requires t in run[j].threads && run[j].threads[t].Finished?
    ensures Flagged(run[j], reply)
  {
    forall k | i <= k < j ensures StillOwes(run[k], t, reply) ==> StillOwes(run[k + 1], t, reply) {
      RunOwes(run, t, k, reply);
    }
    OwesThroughout(run, t, i, j, reply);
  }

  /** A Request subscribes first, and the subscription it makes is the one it owes. */
  lemma RequestOwesItsReply(s: State, t: ThreadId, s': State)
    requires t in s.threads && s.threads[t].SubscribeAdd? && s.threads[t].request.Some? && ThreadStep(s, t, s')
    ensures t in s'.threads && Owes(s'.threads[t], s.nextId) && s.nextId in s'.subs
    ensures s'.threads[t] == PublishLock(s.threads[t].request.value, Some(s.nextId))
    ensures s'.subs[s.nextId] == Subscription(s.threads[t].subject, false, false, [])
  {
  }
}

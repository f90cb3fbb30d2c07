/** The bus protocol is safe in every interleaving. */
module BusSafety {
  import opened Text
  import opened Bus

  /** What a step does to the subscriptions. */
  datatype Effect =
    | Nothing
    | Delivers(sub: SubId, buffer: seq<Message>)
    | Raises(sub: SubId)
    | Shuts(sub: SubId)
    | Adds(subject: string)

  function SubsAfter(s: State, e: Effect): map<SubId, Subscription>
    requires e.Delivers? || e.Raises? || e.Shuts? ==> e.sub in s.subs
  {
    match e
    case Nothing => s.subs
    case Delivers(sub, buffer) => s.subs[sub := s.subs[sub].(buffer := buffer)]
    case Raises(sub) => s.subs[sub := s.subs[sub].(flag := true)]
    case Shuts(sub) => s.subs[sub := s.subs[sub].(closed := true)]
    case Adds(subject) => s.subs[s.nextId := Subscription(subject, false, false, [])]
  }

  /** Raising a flag creates the claim on it, closing the channel ends the claim, and
      nothing else moves a claim. A channel is closed only under the write lock. */
  ghost predicate EffectOk(s: State, pc: Pc, pc': Pc, e: Effect) {
    match e
    case Raises(sub) => sub in s.subs && !s.subs[sub].flag && ClaimOf(pc) == None && ClaimOf(pc') == Some(sub)
    case Shuts(sub) => sub in s.subs && Writing(pc) && ClaimOf(pc) == Some(sub) && ClaimOf(pc') == None
    case Delivers(sub, _) => sub in s.subs && ClaimOf(pc) == ClaimOf(pc')
    case _ => ClaimOf(pc) == ClaimOf(pc')
  }

  predicate LockMove(s: State, t: ThreadId, s': State)
    requires t in s.threads && t in s'.threads
  {
    var pc, pc' := s.threads[t], s'.threads[t];
    && s'.readers == (if Reading(pc') == Reading(pc) then s.readers
                      else if Reading(pc') then s.readers + {t} else s.readers - {t})
    && s'.writer == (if Writing(pc') == Writing(pc) then s.writer
                     else if Writing(pc') then Some(t) else None)
    && (Reading(pc') && !Reading(pc) ==> s.writer.None?)
    && (Writing(pc') && !Writing(pc) ==> s.writer.None? && s.readers == {})
  }

  /** What the invariant says about thread `t` alone. */
  ghost predicate ThreadOk(s: State, t: ThreadId)
    requires t in s.threads
  {
    var pc := s.threads[t];
    && (TargetOf(pc).Some? ==> TargetOf(pc).value in s.subs && !s.subs[TargetOf(pc).value].closed)
    && (ClaimOf(pc).Some? ==> ClaimOf(pc).value in s.subs && !s.subs[ClaimOf(pc).value].closed)
    && (pc.PublishSend? || pc.CloseChannel? ==> pc.todo != [])
  }

  ghost predicate Shape(s: State, t: ThreadId, s': State, e: Effect)
    requires t in s.threads
  {
    && t in s'.threads
    && var pc, pc' := s.threads[t], s'.threads[t];
       && s'.threads == s.threads[t := pc']
       && LockMove(s, t, s')
       && EffectOk(s, pc, pc', e)
       && s'.subs == SubsAfter(s, e)
       && s'.nextId == (if e.Adds? then s.nextId + 1 else s.nextId)
       && s'.panicked == s.panicked
       && (pc'.PublishSend? || pc'.CloseChannel? ==> pc'.todo != [])
       && e.Adds? == pc.SubscribeAdd?
       && (TargetOf(pc').Some? ==> TargetOf(pc').value in s.subs && !s.subs[TargetOf(pc').value].flag && !e.Shuts?)
  }

  function EffectOf(s: State, t: ThreadId): Effect
    requires t in s.threads
  {
    match s.threads[t]
    case PublishSend(msg, todo, _) =>
      if todo != [] && todo[0] in s.subs && |s.subs[todo[0]].buffer| < CHANNEL_CAPACITY
      then Delivers(todo[0], s.subs[todo[0]].buffer + [msg]) else Nothing
    case SubscribeAdd(subject, _) => Adds(subject)
    case UnsubscribeSwap(sub) => if sub in s.subs && !s.subs[sub].flag then Raises(sub) else Nothing
    case UnsubscribeClose(sub) => Shuts(sub)
    case CloseScan(todo) => if todo != [] && todo[0] in s.subs && !s.subs[todo[0]].flag then Raises(todo[0]) else Nothing
    case CloseChannel(todo) => if todo != [] then Shuts(todo[0]) else Nothing
    case _ => Nothing
  }

  lemma PublishShape(s: State, t: ThreadId, s': State)
    requires t in s.threads && PublishStep(s, t, s.threads[t], s') && ThreadOk(s, t)
    ensures Shape(s, t, s', EffectOf(s, t))
  {
  }

  lemma SubscribeShape(s: State, t: ThreadId, s': State)
    requires t in s.threads && SubscribeStep(s, t, s.threads[t], s') && ThreadOk(s, t)
    ensures Shape(s, t, s', EffectOf(s, t))
  {
  }

  lemma UnsubscribeShape(s: State, t: ThreadId, s': State)
    requires t in s.threads && UnsubscribeStep(s, t, s.threads[t], s') && ThreadOk(s, t)
    ensures Shape(s, t, s', EffectOf(s, t))
  {
  }

  lemma CloseShape(s: State, t: ThreadId, s': State)
    requires t in s.threads && CloseStep(s, t, s.threads[t], s') && ThreadOk(s, t)
    ensures Shape(s, t, s', EffectOf(s, t))
  {
  }

  lemma StepShape(s: State, t: ThreadId, s': State)
    requires t in s.threads && ThreadStep(s, t, s') && ThreadOk(s, t)
    ensures Shape(s, t, s', EffectOf(s, t))
  {
    var pc := s.threads[t];
    if PublishStep(s, t, pc, s') {
      PublishShape(s, t, s');
    } else if SubscribeStep(s, t, pc, s') {
      SubscribeShape(s, t, s');
    } else if UnsubscribeStep(s, t, pc, s') {
      UnsubscribeShape(s, t, s');
    } else {
      CloseShape(s, t, s');
    }
  }

  lemma ShapeKeepsLock(s: State, t: ThreadId, s': State, e: Effect)
    requires LockOk(s) && t in s.threads && Shape(s, t, s', e)
    ensures LockOk(s')
  {
    var pc, pc' := s.threads[t], s'.threads[t];
    assert t in s.readers <==> Reading(pc);
    assert s.writer == Some(t) <==> Writing(pc);
  }

  lemma ShapeKeepsFlags(s: State, t: ThreadId, s': State, e: Effect)
    requires FlagsOk(s) && IdsOk(s) && t in s.threads && Shape(s, t, s', e)
    ensures FlagsOk(s')
  {
    var pc, pc' := s.threads[t], s'.threads[t];
    forall sub | sub in s'.subs ensures s'.subs[sub].flag == (s'.subs[sub].closed || !Unclaimed(s', sub)) {
      if ClaimOf(pc) == Some(sub) || ClaimOf(pc') == Some(sub) {
        assert ClaimOf(pc') == Some(sub) ==> !Unclaimed(s', sub);
      } else {
        assert Unclaimed(s, sub) == Unclaimed(s', sub) by {
          if !Unclaimed(s, sub) {
            var u :| u in s.threads && ClaimOf(s.threads[u]) == Some(sub);
            assert s'.threads[u] == s.threads[u];
          }
        }
      }
    }
  }

  lemma ShapeKeepsSenders(s: State, t: ThreadId, s': State, e: Effect)
    requires Inv(s) && t in s.threads && Shape(s, t, s', e)
    ensures SendersOk(s')
  {
    forall u | u in s'.threads && TargetOf(s'.threads[u]).Some?
      ensures TargetOf(s'.threads[u]).value in s'.subs && !s'.subs[TargetOf(s'.threads[u]).value].closed
    {
      if u != t {
        assert Reading(s.threads[u]) ==> u in s.readers;
        assert Writing(s.threads[t]) ==> s.writer == Some(t);
      }
    }
  }

  /** A step mentions only subscriptions it knew, listed ones, or the one it has just made. */
  ghost predicate KnowsIds(s: State, t: ThreadId, s': State)
    requires t in s.threads && t in s'.threads
  {
    forall sub | Mentions(s'.threads[t], sub) ::
      Mentions(s.threads[t], sub) || Registered(s.registry, sub) || (s.threads[t].SubscribeAdd? && sub == s.nextId)
  }

  lemma PublishKnowsIds(s: State, t: ThreadId, s': State)
    requires t in s.threads && PublishStep(s, t, s.threads[t], s') && t in s'.threads
    ensures KnowsIds(s, t, s')
  {
  }

  lemma CloseKnowsIds(s: State, t: ThreadId, s': State)
    requires t in s.threads && CloseStep(s, t, s.threads[t], s') && t in s'.threads
    ensures KnowsIds(s, t, s')
  {
  }

  lemma StepKnowsIds(s: State, t: ThreadId, s': State)
    requires t in s.threads && ThreadStep(s, t, s') && t in s'.threads
    ensures KnowsIds(s, t, s')
  {
    if PublishStep(s, t, s.threads[t], s') {
      PublishKnowsIds(s, t, s');
    } else if CloseStep(s, t, s.threads[t], s') {
      CloseKnowsIds(s, t, s');
    }
  }

  lemma {:induction false} RemoveKeepsOthers(ids: seq<SubId>, sub: SubId)
    ensures forall x | x in Remove(ids, sub) :: x in ids
    decreases |ids|
  {
    if ids != [] && ids[0] != sub {
      RemoveKeepsOthers(ids[1..], sub);
    }
  }

  /** The registry lists nothing but subscriptions that exist. */
  ghost predicate ListsKnown(registry: map<string, seq<SubId>>, subs: map<SubId, Subscription>) {
    forall subject, sub | subject in registry && sub in registry[subject] :: sub in subs
  }

  /** Publish and Close leave the registry alone. */
  lemma RegistryUntouched(s: State, t: ThreadId, s': State)
    requires t in s.threads
    requires PublishStep(s, t, s.threads[t], s') || CloseStep(s, t, s.threads[t], s')
    ensures s'.registry == s.registry
  {
  }

  lemma StepKeepsRegistry(s: State, t: ThreadId, s': State)
    requires t in s.threads && ThreadStep(s, t, s') && ListsKnown(s.registry, s.subs)
    requires s.subs.Keys <= s'.subs.Keys && (s.threads[t].SubscribeAdd? ==> s.nextId in s'.subs)
    ensures ListsKnown(s'.registry, s'.subs)
  {
    var pc := s.threads[t];
    if UnsubscribeStep(s, t, pc, s') {
      if pc.UnsubscribeClose? && s.subs[pc.sub].subject in s.registry {
        RemoveKeepsOthers(s.registry[s.subs[pc.sub].subject], pc.sub);
      }
    } else if !SubscribeStep(s, t, pc, s') {
      RegistryUntouched(s, t, s');
    }
  }

  lemma ShapeKeepsIds(s: State, t: ThreadId, s': State, e: Effect)
    requires IdsOk(s) && t in s.threads && Shape(s, t, s', e) && KnowsIds(s, t, s')
    requires ListsKnown(s'.registry, s'.subs)
    ensures IdsOk(s')
  {
    assert s.subs.Keys <= s'.subs.Keys;
    forall u, sub | u in s'.threads && Mentions(s'.threads[u], sub) ensures sub in s'.subs {
      if u != t {
        assert Mentions(s.threads[u], sub);
      }
    }
  }

  lemma ThreadStepKeepsInv(s: State, t: ThreadId, s': State)
    requires Inv(s) && t in s.threads && ThreadStep(s, t, s')
    ensures Inv(s')
  {
    var e := EffectOf(s, t);
    assert ThreadOk(s, t);
    StepShape(s, t, s');
    ShapeKeepsLock(s, t, s', e);
    ShapeKeepsFlags(s, t, s', e);
    ShapeKeepsSenders(s, t, s', e);
    StepKnowsIds(s, t, s');
    StepKeepsRegistry(s, t, s');
    ShapeKeepsIds(s, t, s', e);
  }

  lemma StartKeepsFlags(s: State, t: ThreadId, pc: Pc)
    requires FlagsOk(s) && t !in s.threads && Starts(s, pc)
    ensures FlagsOk(Goto(s, t, pc))
  {
    var s' := Goto(s, t, pc);
    assert ClaimOf(pc) == None;
    forall sub | sub in s'.subs ensures s'.subs[sub].flag == (s'.subs[sub].closed || !Unclaimed(s', sub)) {
      assert forall u | u in s.threads :: s'.threads[u] == s.threads[u];
      assert Unclaimed(s, sub) == Unclaimed(s', sub);
    }
  }

  lemma StartKeepsInv(s: State, t: ThreadId, pc: Pc)
    requires Inv(s) && t !in s.threads && Starts(s, pc)
    ensures Inv(Goto(s, t, pc))
  {
    StartKeepsFlags(s, t, pc);
  }

  lemma ReceiveKeepsInv(s: State, sub: SubId, s': State)
    requires Inv(s) && Receives(s, sub, s')
    ensures Inv(s')
  {
    forall x | x in s'.subs ensures s'.subs[x].flag == (s'.subs[x].closed || !Unclaimed(s', x)) {
      assert Unclaimed(s, x) == Unclaimed(s', x);
    }
  }

  lemma NextKeepsInv(s: State, s': State)
    requires Inv(s) && Next(s, s')
    ensures Inv(s')
  {
    if t, pc :| t !in s.threads && Starts(s, pc) && s' == Goto(s, t, pc) {
      StartKeepsInv(s, t, pc);
    } else if t :| t in s.threads && ThreadStep(s, t, s') {
      ThreadStepKeepsInv(s, t, s');
    } else {
      var sub :| Receives(s, sub, s');
      ReceiveKeepsInv(s, sub, s');
    }
  }

  lemma {:induction false} RunKeepsInv(run: seq<State>)
    requires IsRun(run)
    ensures Inv(run[|run| - 1])
    decreases |run|
  {
    if |run| > 1 {
      var before := run[..|run| - 1];
      assert forall i | 0 < i < |before| :: Next(before[i - 1], before[i]);
      RunKeepsInv(before);
      NextKeepsInv(run[|run| - 2], run[|run| - 1]);
    }
  }

  /** In every interleaving no send meets a closed channel and no channel is closed twice. */
  lemma NoRunPanics(run: seq<State>, i: nat)
    requires IsRun(run) && i < |run|
    ensures !run[i].panicked
    ensures Inv(run[i])
  {
    RunKeepsInv(run[..i + 1]);
  }
}

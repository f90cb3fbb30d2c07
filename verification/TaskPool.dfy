/** Pool workers as the queue's clients: who has a task, and what the counters say. */
module TaskPool {
  import opened Text
  import opened TaskQueue

  type WorkerId = nat

  datatype Verdict = Unreadable | Failed | Succeeded

  /** Where a worker stands in its pull-and-process loop. */
  datatype Pc =
    | Idle
    | Received(task: Task)
    | Pulled(task: Task)
    | Executing(task: Task)
    | Acking(task: Task, success: bool)
    | Nacking(task: Task)
    | Requeueing(task: Task)
    | Counting(id: TaskId, success: bool)
    | Leaving

  datatype Place = Pending | Gap(w: WorkerId) | InFlight(w: WorkerId) | Requeue(w: WorkerId) | Acked | Dropped

  /** `processing`, `completed` and `failed` are the pool's counters. The rest is history:
      the tasks acked and dropped, how often processTask was entered, how often Ack and Nack
      were called, whose success was counted, and where each task was last put. */
  datatype State = State(
    queue: Queue,
    workers: map<WorkerId, Pc>,
    processing: int,
    completed: int,
    failed: int,
    acked: set<TaskId>,
    dropped: set<TaskId>,
    deliveries: nat,
    acks: nat,
    nacks: nat,
    credited: seq<TaskId>,
    at: map<TaskId, Place>)

  const EMPTY := State(Queue([], map[]), map[], 0, 0, 0, {}, {}, 0, 0, 0, [], map[])

  datatype Step =
    | Push(task: Task)
    | Start(w: WorkerId)
    | Receive(w: WorkerId)
    | Register(w: WorkerId)
    | Enter(w: WorkerId)
    | Judge(w: WorkerId, verdict: Verdict)
    | Ack(w: WorkerId)
    | TakeBack(w: WorkerId)
    | SendBack(w: WorkerId)
    | Abandon(w: WorkerId)
    | CountOne(w: WorkerId)
    | Leave(w: WorkerId)

  /** A push gets an identifier never used before; sends wait for room in the channel. */
  predicate Enabled(s: State, step: Step) {
    match step
    case Push(task) => task.id !in s.at && s.queue.HasRoom()
    case Start(w) => w !in s.workers
    case _ =>
      && step.w in s.workers
      && var pc := s.workers[step.w];
         match step
         case Receive(_) => pc.Idle? && s.queue.pending != []
         case Register(_) => pc.Received?
         case Enter(_) => pc.Pulled?
         case Judge(_, _) => pc.Executing?
         case Ack(_) => pc.Acking?
         case TakeBack(_) => pc.Nacking?
         case SendBack(_) => pc.Requeueing? && s.queue.HasRoom()
         case Abandon(_) => pc.Requeueing?
         case CountOne(_) => pc.Counting?
         case Leave(_) => pc.Leaving?
  }

  function Judged(task: Task, verdict: Verdict): Pc {
    match verdict
    case Unreadable => Acking(task, false)
    case Failed => Nacking(task)
    case Succeeded => Acking(task, true)
  }

  function Apply(s: State, step: Step): State
    requires Enabled(s, step)
  {
    match step
    case Push(task) => s.(queue := s.queue.Send(task), at := s.at[task.id := Pending])
    case Start(w) => s.(workers := s.workers[w := Idle])
    case Receive(w) =>
      var task := s.queue.pending[0];
      s.(queue := s.queue.Receive(), workers := s.workers[w := Received(task)], at := s.at[task.id := Gap(w)])
    case Register(w) =>
      var task := s.workers[w].task;
      s.(queue := s.queue.Register(task), workers := s.workers[w := Pulled(task)], at := s.at[task.id := InFlight(w)])
    case Enter(w) =>
      s.(workers := s.workers[w := Executing(s.workers[w].task)], processing := s.processing + 1, deliveries := s.deliveries + 1)
    case Judge(w, verdict) =>
      s.(workers := s.workers[w := Judged(s.workers[w].task, verdict)])
    case Ack(w) =>
      var pc := s.workers[w];
      s.(queue := s.queue.Forget(pc.task.id), workers := s.workers[w := Counting(pc.task.id, pc.success)],
         acked := s.acked + {pc.task.id}, acks := s.acks + 1, at := s.at[pc.task.id := Acked])
    case TakeBack(w) =>
      var id := s.workers[w].task.id;
      if id in s.queue.inflight then
        s.(queue := s.queue.Forget(id), workers := s.workers[w := Requeueing(s.queue.inflight[id])],
           nacks := s.nacks + 1, at := s.at[id := Requeue(w)])
      else
        s.(workers := s.workers[w := Counting(id, false)], nacks := s.nacks + 1)
    case SendBack(w) =>
      var task := s.workers[w].task;
      s.(queue := s.queue.Send(task), workers := s.workers[w := Counting(task.id, false)], at := s.at[task.id := Pending])
    case Abandon(w) =>
      var id := s.workers[w].task.id;
      s.(workers := s.workers[w := Counting(id, false)], dropped := s.dropped + {id}, at := s.at[id := Dropped])
    case CountOne(w) =>
      var pc := s.workers[w];
      if pc.success then
        s.(workers := s.workers[w := Leaving], completed := s.completed + 1, credited := s.credited + [pc.id])
      else
        s.(workers := s.workers[w := Leaving], failed := s.failed + 1)
    case Leave(w) =>
      s.(workers := s.workers[w := Idle], processing := s.processing - 1)
  }

  predicate IsRun(s: State, steps: seq<Step>)
    decreases |steps|
  {
    steps == [] || (Enabled(s, steps[0]) && IsRun(Apply(s, steps[0]), steps[1..]))
  }

  function Final(s: State, steps: seq<Step>): State
    requires IsRun(s, steps)
    decreases |steps|
  {
    if steps == [] then s else Final(Apply(s, steps[0]), steps[1..])
  }

  // ---- Places ----

  predicate Lists(pending: seq<Task>, id: TaskId) {
    exists i | 0 <= i < |pending| :: pending[i].id == id
  }

  /** The task a worker answers for, and the place that puts the task in. */
  function Custody(w: WorkerId, pc: Pc): Option<(TaskId, Place)> {
    match pc
    case Received(task) => Some((task.id, Gap(w)))
    case Pulled(task) => Some((task.id, InFlight(w)))
    case Executing(task) => Some((task.id, InFlight(w)))
    case Acking(task, _) => Some((task.id, InFlight(w)))
    case Nacking(task) => Some((task.id, InFlight(w)))
    case Requeueing(task) => Some((task.id, Requeue(w)))
    case _ => None
  }

  /** What it means, in the queue, the workers and the outcomes, for a task to be somewhere. */
  predicate IsAt(s: State, id: TaskId, place: Place) {
    match place
    case Pending => Lists(s.queue.pending, id)
    case Gap(w) => w in s.workers && Custody(w, s.workers[w]) == Some((id, place))
    case InFlight(w) => id in s.queue.inflight && w in s.workers && Custody(w, s.workers[w]) == Some((id, place))
    case Requeue(w) => w in s.workers && Custody(w, s.workers[w]) == Some((id, place))
    case Acked => id in s.acked
    case Dropped => id in s.dropped
  }

  predicate ByWorker(place: Place) { place.Gap? || place.InFlight? || place.Requeue? }

  /** The channel lists, once each, exactly the tasks last put there. */
  ghost predicate PendingOk(pending: seq<Task>, at: map<TaskId, Place>) {
    && (forall i | 0 <= i < |pending| :: pending[i].id in at && at[pending[i].id] == Pending)
    && (forall i, j | 0 <= i < j < |pending| :: pending[i].id != pending[j].id)
    && (forall id | id in at && at[id] == Pending :: Lists(pending, id))
  }

  ghost predicate InflightOk(inflight: map<TaskId, Task>, at: map<TaskId, Place>) {
    && (forall id | id in inflight :: id in at && at[id].InFlight? && inflight[id].id == id)
    && (forall id | id in at && at[id].InFlight? :: id in inflight)
  }

  /** Workers and places agree in both directions. */
  ghost predicate CustodyOk(workers: map<WorkerId, Pc>, at: map<TaskId, Place>) {
    && (forall w | w in workers && Custody(w, workers[w]).Some? ::
          var (id, place) := Custody(w, workers[w]).value; id in at && at[id] == place)
    && (forall id | id in at && ByWorker(at[id]) ::
          at[id].w in workers && Custody(at[id].w, workers[at[id].w]) == Some((id, at[id])))
  }

  ghost predicate OutcomesOk(s: State) {
    && (forall id :: id in s.acked <==> id in s.at && s.at[id] == Acked)
    && (forall id :: id in s.dropped <==> id in s.at && s.at[id] == Dropped)
  }

  ghost predicate PlacesOk(s: State) {
    && PendingOk(s.queue.pending, s.at)
    && InflightOk(s.queue.inflight, s.at)
    && CustodyOk(s.workers, s.at)
    && OutcomesOk(s)
  }

  lemma AppendKeepsPending(pending: seq<Task>, at: map<TaskId, Place>, task: Task)
    requires PendingOk(pending, at) && (task.id in at ==> at[task.id] != Pending)
    ensures PendingOk(pending + [task], at[task.id := Pending])
  {
    var longer := pending + [task];
    forall id | id in at[task.id := Pending] && at[task.id := Pending][id] == Pending ensures Lists(longer, id) {
      if id == task.id {
        assert longer[|pending|].id == id;
      } else {
        var i :| 0 <= i < |pending| && pending[i].id == id;
        assert longer[i].id == id;
      }
    }
  }

  lemma PopKeepsPending(pending: seq<Task>, at: map<TaskId, Place>, place: Place)
    requires PendingOk(pending, at) && pending != [] && place != Pending
    ensures PendingOk(pending[1..], at[pending[0].id := place])
  {
    var rest, at' := pending[1..], at[pending[0].id := place];
    forall i | 0 <= i < |rest| ensures rest[i].id in at' && at'[rest[i].id] == Pending {
      assert rest[i] == pending[i + 1];
    }
    forall id | id in at' && at'[id] == Pending ensures Lists(rest, id) {
      var i :| 0 <= i < |pending| && pending[i].id == id;
      assert rest[i - 1].id == id;
    }
  }

  /** The worker's answer and the map of places change together. */
  ghost predicate Handover(workers: map<WorkerId, Pc>, at: map<TaskId, Place>, w: WorkerId, pc: Pc, id: TaskId, place: Place) {
    && w in workers
    && (if Custody(w, workers[w]).Some? then id in at && Custody(w, workers[w]).value == (id, at[id])
        else id !in at || !ByWorker(at[id]))
    && Custody(w, pc) == (if ByWorker(place) then Some((id, place)) else None)
    && (ByWorker(place) ==> place.w == w)
  }

  lemma HandoverKeepsCustody(workers: map<WorkerId, Pc>, at: map<TaskId, Place>, w: WorkerId, pc: Pc, id: TaskId, place: Place)
    requires CustodyOk(workers, at) && Handover(workers, at, w, pc, id, place)
    ensures CustodyOk(workers[w := pc], at[id := place])
  {
    var workers', at' := workers[w := pc], at[id := place];
    forall v | v in workers' && v != w && Custody(v, workers'[v]).Some?
      ensures Custody(v, workers'[v]).value.0 != id
    {
      var (held, where) := Custody(v, workers[v]).value;
      assert at[held] == where && where.w == v;
    }
    forall x | x in at' && x != id && ByWorker(at'[x]) ensures at'[x].w != w {
      assert Custody(at[x].w, workers[at[x].w]) == Some((x, at[x]));
    }
  }

  /** A worker moves on without handing anything over. */
  lemma SameCustody(workers: map<WorkerId, Pc>, at: map<TaskId, Place>, w: WorkerId, pc: Pc)
    requires CustodyOk(workers, at)
    requires Custody(w, pc) == if w in workers then Custody(w, workers[w]) else None
    ensures CustodyOk(workers[w := pc], at)
  {
  }

  /** The place a step moves a task to. */
  function Moved(s: State, step: Step): Option<(TaskId, Place)>
    requires Enabled(s, step)
  {
    match step
    case Push(task) => Some((task.id, Pending))
    case Receive(w) => Some((s.queue.pending[0].id, Gap(w)))
    case Register(w) => Some((s.workers[w].task.id, InFlight(w)))
    case Ack(w) => Some((s.workers[w].task.id, Acked))
    case TakeBack(w) => Some((s.workers[w].task.id, Requeue(w)))
    case SendBack(w) => Some((s.workers[w].task.id, Pending))
    case Abandon(w) => Some((s.workers[w].task.id, Dropped))
    case _ => None
  }

  /** A worker about to take a task back finds it inflight: no Nack is lost. */
  lemma NackFindsTask(s: State, step: Step)
    requires PlacesOk(s) && Enabled(s, step) && step.TakeBack?
    ensures s.workers[step.w].task.id in s.queue.inflight
    ensures s.queue.inflight[s.workers[step.w].task.id].id == s.workers[step.w].task.id
  {
    assert Custody(step.w, s.workers[step.w]).Some?;
  }

  /** The facts about the invariant that one step relies on. */
  ghost predicate Local(s: State, step: Step)
    requires Enabled(s, step)
  {
    && (step.Push? ==> step.task.id !in s.at)
    && (step.Receive? ==> var id := s.queue.pending[0].id; id in s.at && s.at[id] == Pending)
    && (step.TakeBack? ==> s.workers[step.w].task.id in s.queue.inflight
                           && s.queue.inflight[s.workers[step.w].task.id].id == s.workers[step.w].task.id)
    && (!step.Push? && step.w in s.workers && Custody(step.w, s.workers[step.w]).Some? ==>
          var (id, place) := Custody(step.w, s.workers[step.w]).value; id in s.at && s.at[id] == place)
  }

  lemma PlacesAreLocal(s: State, step: Step)
    requires PlacesOk(s) && Enabled(s, step)
    ensures Local(s, step)
  {
    if step.TakeBack? {
      NackFindsTask(s, step);
    }
  }

  lemma MoveIsHandover(s: State, step: Step)
    requires Enabled(s, step) && Local(s, step) && !step.Push? && Moved(s, step).Some?
    ensures var s', (id, place) := Apply(s, step), Moved(s, step).value;
            && s'.at == s.at[id := place]
            && s'.workers == s.workers[step.w := s'.workers[step.w]]
            && Handover(s.workers, s.at, step.w, s'.workers[step.w], id, place)
  {
  }

  lemma OthersKeepCustody(s: State, step: Step)
    requires Enabled(s, step) && Moved(s, step).None?
    ensures var s' := Apply(s, step);
            && s'.at == s.at && s'.queue == s.queue && s'.acked == s.acked && s'.dropped == s.dropped
            && s'.workers == s.workers[step.w := s'.workers[step.w]]
            && Custody(step.w, s'.workers[step.w])
               == if step.w in s.workers then Custody(step.w, s.workers[step.w]) else None
  {
  }

  lemma StepKeepsCustody(s: State, step: Step)
    requires PlacesOk(s) && Enabled(s, step)
    ensures CustodyOk(Apply(s, step).workers, Apply(s, step).at)
  {
    var s' := Apply(s, step);
    if Moved(s, step).None? {
      OthersKeepCustody(s, step);
      SameCustody(s.workers, s.at, step.w, s'.workers[step.w]);
    } else if !step.Push? {
      PlacesAreLocal(s, step);
      MoveIsHandover(s, step);
      var (id, place) := Moved(s, step).value;
      HandoverKeepsCustody(s.workers, s.at, step.w, s'.workers[step.w], id, place);
    }
  }

  lemma StepKeepsPending(s: State, step: Step)
    requires PlacesOk(s) && Enabled(s, step)
    ensures PendingOk(Apply(s, step).queue.pending, Apply(s, step).at)
  {
    PlacesAreLocal(s, step);
    match step
    case Push(task) => AppendKeepsPending(s.queue.pending, s.at, task);
    case Receive(w) => PopKeepsPending(s.queue.pending, s.at, Gap(w));
    case SendBack(w) => AppendKeepsPending(s.queue.pending, s.at, s.workers[w].task);
    case _ =>
  }

  lemma StepKeepsInflight(s: State, step: Step)
    requires PlacesOk(s) && Enabled(s, step)
    ensures InflightOk(Apply(s, step).queue.inflight, Apply(s, step).at)
  {
    PlacesAreLocal(s, step);
  }

  lemma StepKeepsOutcomes(s: State, step: Step)
    requires PlacesOk(s) && Enabled(s, step)
    ensures OutcomesOk(Apply(s, step))
  {
    PlacesAreLocal(s, step);
  }

  lemma StepKeepsPlaces(s: State, step: Step)
    requires PlacesOk(s) && Enabled(s, step)
    ensures PlacesOk(Apply(s, step))
  {
    StepKeepsPending(s, step);
    StepKeepsInflight(s, step);
    StepKeepsCustody(s, step);
    StepKeepsOutcomes(s, step);
  }

  // ---- Counters ----

  /** Inside processTask. */
  predicate Inside(pc: Pc) { !pc.Idle? && !pc.Received? && !pc.Pulled? }

  /** Inside, with neither Ack nor Nack called yet. */
  predicate Undecided(pc: Pc) { pc.Executing? || pc.Acking? || pc.Nacking? }

  /** Inside, with neither TasksCompleted nor TasksFailed raised yet. */
  predicate Uncounted(pc: Pc) { Inside(pc) && !pc.Leaving? }

  function Those(workers: map<WorkerId, Pc>, p: Pc -> bool): set<WorkerId> {
    set w | w in workers && p(workers[w])
  }

  ghost predicate CountersOk(s: State) {
    && s.processing == |Those(s.workers, Inside)|
    && s.deliveries == s.acks + s.nacks + |Those(s.workers, Undecided)|
    && s.deliveries == s.completed + s.failed + |Those(s.workers, Uncounted)|
    && s.completed == |s.credited|
  }

  lemma ThoseAfter(workers: map<WorkerId, Pc>, w: WorkerId, pc: Pc, p: Pc -> bool)
    ensures |Those(workers[w := pc], p)|
         == |Those(workers, p)| - (if w in workers && p(workers[w]) then 1 else 0) + (if p(pc) then 1 else 0)
  {
    var before, after := Those(workers, p), Those(workers[w := pc], p);
    assert after == if p(pc) then before - {w} + {w} else before - {w};
  }

  /** How a step changes the number of workers in a stretch of the loop. */
  function Change(s: State, step: Step, p: Pc -> bool): int
    requires Enabled(s, step) && !step.Push?
  {
    (if p(Apply(s, step).workers[step.w]) then 1 else 0) - (if step.w in s.workers && p(s.workers[step.w]) then 1 else 0)
  }

  lemma StepChanges(s: State, step: Step, p: Pc -> bool)
    requires Enabled(s, step) && !step.Push?
    ensures |Those(Apply(s, step).workers, p)| == |Those(s.workers, p)| + Change(s, step, p)
  {
    var pc := Apply(s, step).workers[step.w];
    assert Apply(s, step).workers == s.workers[step.w := pc];
    ThoseAfter(s.workers, step.w, pc, p);
  }

  lemma StepKeepsProcessing(s: State, step: Step)
    requires Enabled(s, step) && s.processing == |Those(s.workers, Inside)|
    ensures Apply(s, step).processing == |Those(Apply(s, step).workers, Inside)|
  {
    if !step.Push? {
      StepChanges(s, step, Inside);
    }
  }

  lemma StepKeepsAnswers(s: State, step: Step)
    requires Enabled(s, step) && s.deliveries == s.acks + s.nacks + |Those(s.workers, Undecided)|
    ensures var s' := Apply(s, step); s'.deliveries == s'.acks + s'.nacks + |Those(s'.workers, Undecided)|
  {
    if !step.Push? {
      StepChanges(s, step, Undecided);
    }
  }

  lemma StepKeepsVerdicts(s: State, step: Step)
    requires Enabled(s, step) && s.deliveries == s.completed + s.failed + |Those(s.workers, Uncounted)|
    ensures var s' := Apply(s, step); s'.deliveries == s'.completed + s'.failed + |Those(s'.workers, Uncounted)|
  {
    if !step.Push? {
      StepChanges(s, step, Uncounted);
    }
  }

  lemma StepKeepsCounters(s: State, step: Step)
    requires CountersOk(s) && Enabled(s, step)
    ensures CountersOk(Apply(s, step))
  {
    StepKeepsProcessing(s, step);
    StepKeepsAnswers(s, step);
    StepKeepsVerdicts(s, step);
  }

  // ---- One success per task ----

  predicate AboutToCredit(pc: Pc, id: TaskId) { pc == Counting(id, true) }

  /** A success is counted, or about to be, only for an acked task and only once. */
  ghost predicate CreditsOk(workers: map<WorkerId, Pc>, credited: seq<TaskId>, acked: set<TaskId>) {
    && (forall i | 0 <= i < |credited| :: credited[i] in acked)
    && (forall i, j | 0 <= i < j < |credited| :: credited[i] != credited[j])
    && (forall w, id | w in workers && AboutToCredit(workers[w], id) :: id in acked && id !in credited)
    && (forall v, w, id | v in workers && w in workers && AboutToCredit(workers[v], id) && AboutToCredit(workers[w], id) :: v == w)
  }

  lemma AckKeepsCredits(workers: map<WorkerId, Pc>, credited: seq<TaskId>, acked: set<TaskId>, w: WorkerId, id: TaskId, success: bool)
    requires CreditsOk(workers, credited, acked) && id !in acked
    ensures CreditsOk(workers[w := Counting(id, success)], credited, acked + {id})
  {
  }

  lemma CountKeepsCredits(workers: map<WorkerId, Pc>, credited: seq<TaskId>, acked: set<TaskId>, w: WorkerId)
    requires CreditsOk(workers, credited, acked) && w in workers && workers[w].Counting?
    ensures CreditsOk(workers[w := Leaving], if workers[w].success then credited + [workers[w].id] else credited, acked)
  {
    var id := workers[w].id;
    if workers[w].success {
      assert AboutToCredit(workers[w], id);
      assert id !in credited;
    }
  }

  lemma StepKeepsCredits(s: State, step: Step)
    requires PlacesOk(s) && CreditsOk(s.workers, s.credited, s.acked) && Enabled(s, step)
    ensures CreditsOk(Apply(s, step).workers, Apply(s, step).credited, Apply(s, step).acked)
  {
    PlacesAreLocal(s, step);
    var s' := Apply(s, step);
    if step.Ack? {
      AckKeepsCredits(s.workers, s.credited, s.acked, step.w, s.workers[step.w].task.id, s.workers[step.w].success);
    } else if step.CountOne? {
      CountKeepsCredits(s.workers, s.credited, s.acked, step.w);
    } else if !step.Push? {
      QuietCredits(s, step);
    }
  }

  lemma QuietCredits(s: State, step: Step)
    requires CreditsOk(s.workers, s.credited, s.acked) && Enabled(s, step)
    requires !step.Push? && !step.Ack? && !step.CountOne?
    ensures CreditsOk(Apply(s, step).workers, Apply(s, step).credited, Apply(s, step).acked)
  {
    var pc := Apply(s, step).workers[step.w];
    assert Apply(s, step).workers == s.workers[step.w := pc];
    MoveKeepsCredits(s.workers, s.credited, s.acked, step.w, pc);
  }

  lemma MoveKeepsCredits(workers: map<WorkerId, Pc>, credited: seq<TaskId>, acked: set<TaskId>, w: WorkerId, pc: Pc)
    requires CreditsOk(workers, credited, acked) && !(pc.Counting? && pc.success)
    ensures CreditsOk(workers[w := pc], credited, acked)
  {
  }

  // ---- Main results over every run of the pool before the bus is closed ----

  ghost predicate Inv(s: State) {
    PlacesOk(s) && CountersOk(s) && CreditsOk(s.workers, s.credited, s.acked)
  }

  lemma {:induction false} RunKeepsInv(s: State, steps: seq<Step>)
    requires Inv(s) && IsRun(s, steps)
    ensures Inv(Final(s, steps))
    ensures s.acked <= Final(s, steps).acked
    ensures s.at.Keys <= Final(s, steps).at.Keys
    decreases |steps|
  {
    if steps != [] {
      StepKeepsPlaces(s, steps[0]);
      StepKeepsCounters(s, steps[0]);
      StepKeepsCredits(s, steps[0]);
      RunKeepsInv(Apply(s, steps[0]), steps[1..]);
    }
  }

  ghost predicate Reachable(s: State) {
    exists steps :: IsRun(EMPTY, steps) && Final(EMPTY, steps) == s
  }

  lemma ReachableInv(s: State)
    requires Reachable(s)
    ensures Inv(s)
  {
    var steps :| IsRun(EMPTY, steps) && Final(EMPTY, steps) == s;
    assert Those(EMPTY.workers, Inside) == {} && Those(EMPTY.workers, Undecided) == {} && Those(EMPTY.workers, Uncounted) == {};
    RunKeepsInv(EMPTY, steps);
  }

  /** Every pushed task is in exactly one place, and anything found in a place was pushed.
      The inflight map holds a task exactly while its place is a worker's inflight task, so it
      keeps nothing that is pending, acked, dropped or between the two places. */
  lemma ExactlyOnePlace(s: State, id: TaskId)
    requires Reachable(s)
    ensures id in s.at ==> IsAt(s, id, s.at[id])
    ensures forall place | IsAt(s, id, place) :: id in s.at && place == s.at[id]
    ensures id in s.queue.inflight <==> id in s.at && s.at[id].InFlight?
    ensures Lists(s.queue.pending, id) <==> id in s.at && s.at[id].Pending?
  {
    ReachableInv(s);
  }

  /** A task in the channel is there once. */
  lemma PendingOnce(s: State, i: nat, j: nat)
    requires Reachable(s) && i < j < |s.queue.pending|
    ensures s.queue.pending[i].id != s.queue.pending[j].id
  {
    ReachableInv(s);
  }

  /** No task is held by two workers at once. */
  lemma NoTwoHolders(s: State, v: WorkerId, w: WorkerId)
    requires Reachable(s) && v in s.workers && w in s.workers
    requires Custody(v, s.workers[v]).Some? && Custody(w, s.workers[w]).Some?
    requires Custody(v, s.workers[v]).value.0 == Custody(w, s.workers[w]).value.0
    ensures v == w
  {
    ReachableInv(s);
  }

  /** An acked task is never waiting, pulled or processed again. */
  lemma AckedIsFinal(s: State, steps: seq<Step>, id: TaskId)
    requires Reachable(s) && id in s.acked && IsRun(s, steps)
    ensures forall place | IsAt(Final(s, steps), id, place) :: place == Acked
    ensures id !in Final(s, steps).queue.inflight
  {
    ReachableInv(s);
    RunKeepsInv(s, steps);
  }

  /** TasksProcessing counts the workers inside processTask; every entry makes one Ack or
      Nack and raises one counter, so with nobody inside the books are closed. */
  lemma CountersBalance(s: State)
    requires Reachable(s)
    ensures s.processing == |Those(s.workers, Inside)|
    ensures s.deliveries == s.acks + s.nacks + |Those(s.workers, Undecided)|
    ensures s.deliveries == s.completed + s.failed + |Those(s.workers, Uncounted)|
    ensures (forall w | w in s.workers :: !Inside(s.workers[w])) ==>
              s.deliveries == s.acks + s.nacks == s.completed + s.failed
  {
    ReachableInv(s);
    if forall w | w in s.workers :: !Inside(s.workers[w]) {
      assert Those(s.workers, Undecided) == {} && Those(s.workers, Uncounted) == {};
    }
  }

  /** TasksCompleted counts distinct tasks, all of them acked. */
  lemma CompletedOncePerTask(s: State)
    requires Reachable(s)
    ensures s.completed == |s.credited|
    ensures forall i, j | 0 <= i < j < |s.credited| :: s.credited[i] != s.credited[j]
    ensures forall i | 0 <= i < |s.credited| :: s.credited[i] in s.acked
  {
    ReachableInv(s);
  }

  // ---- One worker's calls, in program order ----

  /** `Ruled` is what became of the task, `Returned` whether a nacked one got back into the
      channel, `Counts` whether TasksCompleted went up. */
  datatype Call =
    | Entered(id: TaskId)
    | Ruled(verdict: Verdict)
    | Acks(id: TaskId)
    | Nacks(id: TaskId)
    | Returned(id: TaskId, sent: bool)
    | Counts(success: bool)
    | Left

  datatype Log = NoCalls | After(before: Log, call: Call)

  predicate Resting(log: Log) { log.NoCalls? || log.call.Left? }

  predicate Last(log: Log, call: Call) { log.After? && log.call == call }

  /** The delivery of `id` was ruled `verdict`, and nothing came after that. */
  predicate RuledFor(log: Log, id: TaskId, verdict: Verdict) {
    Last(log, Ruled(verdict)) && Last(log.before, Entered(id))
  }

  /** Inside a delivery of `id`: the verdict, the answer it calls for, one counter, the end. A
      delivery begins only outside the others. */
  predicate Allowed(before: Log, call: Call) {
    match call
    case Entered(_) => Resting(before)
    case Ruled(_) => before.After? && before.call.Entered?
    case Acks(id) => RuledFor(before, id, Succeeded) || RuledFor(before, id, Unreadable)
    case Nacks(id) => RuledFor(before, id, Failed)
    case Returned(id, _) => Last(before, Nacks(id))
    case Counts(success) =>
      && before.After?
      && if before.call.Acks? then RuledFor(before.before, before.call.id, if success then Succeeded else Unreadable)
         else before.call.Returned? && !success
    case Left => before.After? && before.call.Counts?
  }

  predicate Disciplined(log: Log) {
    log.NoCalls? || (Disciplined(log.before) && Allowed(log.before, log.call))
  }

  /** The log of worker `w` after one more step. */
  function Logged(s: State, step: Step, w: WorkerId, log: Log): Log
    requires Enabled(s, step)
  {
    if step.Push? || step.w != w then log
    else
      match step
      case Enter(_) => After(log, Entered(s.workers[w].task.id))
      case Judge(_, verdict) => After(log, Ruled(verdict))
      case Ack(_) => After(log, Acks(s.workers[w].task.id))
      case TakeBack(_) => After(log, Nacks(s.workers[w].task.id))
      case SendBack(_) => After(log, Returned(s.workers[w].task.id, true))
      case Abandon(_) => After(log, Returned(s.workers[w].task.id, false))
      case CountOne(_) => After(log, Counts(Apply(s, step).completed == s.completed + 1))
      case Leave(_) => After(log, Left)
      case _ => log
  }

  function LogOf(s: State, steps: seq<Step>, w: WorkerId, log: Log): Log
    requires IsRun(s, steps)
    decreases |steps|
  {
    if steps == [] then log else LogOf(Apply(s, steps[0]), steps[1..], w, Logged(s, steps[0], w, log))
  }

  /** Where the worker stands tells how its log ends. */
  predicate Explains(s: State, w: WorkerId, log: Log) {
    if w !in s.workers then log.NoCalls?
    else
      match s.workers[w]
      case Executing(task) => Last(log, Entered(task.id))
      case Acking(task, success) => RuledFor(log, task.id, if success then Succeeded else Unreadable)
      case Nacking(task) => RuledFor(log, task.id, Failed)
      case Requeueing(task) => Last(log, Nacks(task.id))
      case Counting(id, success) =>
        && log.After?
        && if log.call.Acks? then RuledFor(log.before, log.call.id, if success then Succeeded else Unreadable)
           else log.call.Returned? && !success
      case Leaving => log.After? && log.call.Counts?
      case _ => Resting(log)
  }

  lemma StepKeepsLog(s: State, step: Step, w: WorkerId, log: Log)
    requires Enabled(s, step) && PlacesOk(s) && Explains(s, w, log) && Disciplined(log)
    ensures Explains(Apply(s, step), w, Logged(s, step, w, log)) && Disciplined(Logged(s, step, w, log))
  {
    if step.TakeBack? {
      NackFindsTask(s, step);
    }
    LocalStepKeepsLog(s, step, w, log);
  }

  lemma LocalStepKeepsLog(s: State, step: Step, w: WorkerId, log: Log)
    requires Enabled(s, step) && Explains(s, w, log) && Disciplined(log)
    requires step.TakeBack? ==> && s.workers[step.w].task.id in s.queue.inflight
                                && s.queue.inflight[s.workers[step.w].task.id].id == s.workers[step.w].task.id
    ensures Explains(Apply(s, step), w, Logged(s, step, w, log)) && Disciplined(Logged(s, step, w, log))
  {
  }

  lemma {:induction false} RunKeepsLog(s: State, steps: seq<Step>, w: WorkerId, log: Log)
    requires IsRun(s, steps) && PlacesOk(s) && Explains(s, w, log) && Disciplined(log)
    ensures Explains(Final(s, steps), w, LogOf(s, steps, w, log)) && Disciplined(LogOf(s, steps, w, log))
    decreases |steps|
  {
    if steps != [] {
      StepKeepsLog(s, steps[0], w, log);
      StepKeepsPlaces(s, steps[0]);
      RunKeepsLog(Apply(s, steps[0]), steps[1..], w, Logged(s, steps[0], w, log));
    }
  }

  /** In every run every delivery to a worker is ruled once, gets exactly one Ack or one Nack, of
      the task delivered and as the verdict asks, and one counter, before the worker leaves or
      takes another; a worker that is outside processTask has left its last delivery. */
  lemma EveryDeliveryAnsweredOnce(steps: seq<Step>, w: WorkerId)
    requires IsRun(EMPTY, steps)
    ensures Disciplined(LogOf(EMPTY, steps, w, NoCalls))
    ensures var s := Final(EMPTY, steps); w in s.workers && !Inside(s.workers[w]) ==> Resting(LogOf(EMPTY, steps, w, NoCalls))
  {
    RunKeepsLog(EMPTY, steps, w, NoCalls);
  }

  /** Read back from its end, a delivery is one of three: a success is acked and counted
      completed; a task that does not parse is acked and counted failed; a failure is nacked, put
      back into the channel unless the context ended, and counted failed. */
  lemma DeliveryExactly(log: Log) returns (rest: Log, id: TaskId, sent: bool)
    requires Disciplined(log) && Last(log, Left)
    ensures Disciplined(rest) && Resting(rest)
    ensures var ruled := (v: Verdict) => After(After(rest, Entered(id)), Ruled(v));
            || log == After(After(After(ruled(Succeeded), Acks(id)), Counts(true)), Left)
            || log == After(After(After(ruled(Unreadable), Acks(id)), Counts(false)), Left)
            || log == After(After(After(After(ruled(Failed), Nacks(id)), Returned(id, sent)), Counts(false)), Left)
  {
    var counted := log.before;
    assert Disciplined(counted) && counted.call.Counts?;
    var answered := counted.before;
    assert Disciplined(answered) && Disciplined(answered.before);
    id, sent := answered.call.id, false;
    var ruled := answered.before;
    if answered.call.Returned? {
      sent := answered.call.sent;
      assert Last(ruled, Nacks(id));
      ruled := ruled.before;
    }
    assert Disciplined(ruled) && ruled.call.Ruled? && Last(ruled.before, Entered(id));
    assert Disciplined(ruled.before);
    rest := ruled.before.before;
  }
}

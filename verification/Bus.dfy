/** Subscriptions of the in-memory bus: the closed flags, the reader/writer lock and the
    message channels, with every atomic access its own step.

    A Go program dies when it sends on a closed channel or closes a channel twice; the
    machine records that as `panicked`, and no run of it gets there. */
module Bus {
  import opened Text
  import SubjectMatch

  type SubId = nat
  type ThreadId = nat

  const CHANNEL_CAPACITY := 256

  datatype Message = Message(subject: string, data: string, replyTo: string)

  /** `flag` is the atomic closed flag; `closed` is the state of the channel itself. */
  datatype Subscription = Subscription(subject: string, flag: bool, closed: bool, buffer: seq<Message>)

  /** Where a goroutine stands. `after` is the reply subscription a Request removes at its end. */
  datatype Pc =
    | PublishCheck(msg: Message)
    | PublishLock(msg: Message, after: Option<SubId>)
    | PublishScan(msg: Message, todo: seq<SubId>, after: Option<SubId>)
    | PublishSend(msg: Message, todo: seq<SubId>, after: Option<SubId>)
    | RequestWait(reply: SubId)
    | SubscribeCheck(subject: string, request: Option<Message>)
    | SubscribeAdd(subject: string, request: Option<Message>)
    | UnsubscribeSwap(sub: SubId)
    | UnsubscribeLock(sub: SubId)
    | UnsubscribeClose(sub: SubId)
    | CloseSwap
    | CloseLock
    | CloseScan(todo: seq<SubId>)
    | CloseChannel(todo: seq<SubId>)
    | Finished

  datatype State = State(
    subs: map<SubId, Subscription>,
    registry: map<string, seq<SubId>>,
    nextId: SubId,
    closed: bool,
    readers: set<ThreadId>,
    writer: Option<ThreadId>,
    threads: map<ThreadId, Pc>,
    panicked: bool)

  const EMPTY := State(map[], map[], 0, false, {}, None, map[], false)

  predicate Registered(registry: map<string, seq<SubId>>, sub: SubId) {
    exists subject | subject in registry :: sub in registry[subject]
  }

  predicate RegisteredFor(registry: map<string, seq<SubId>>, subject: string, sub: SubId) {
    exists pattern | pattern in registry :: SubjectMatch.Matches(pattern, subject) && sub in registry[pattern]
  }

  predicate Once(todo: seq<SubId>) {
    forall i, j | 0 <= i < j < |todo| :: todo[i] != todo[j]
  }

  /** The loops range over a map, in an order of the run's choosing, and meet each once. */
  ghost predicate ListsMatching(s: State, subject: string, todo: seq<SubId>) {
    Once(todo) && forall sub :: sub in todo <==> RegisteredFor(s.registry, subject, sub)
  }

  ghost predicate ListsAll(s: State, todo: seq<SubId>) {
    Once(todo) && forall sub :: sub in todo <==> Registered(s.registry, sub)
  }

  function Goto(s: State, t: ThreadId, pc: Pc): State {
    s.(threads := s.threads[t := pc])
  }

  function WithSub(s: State, sub: SubId, value: Subscription): State {
    s.(subs := s.subs[sub := value])
  }

  /** `sub.messages <- msg` inside a select with a default branch. */
  function Send(s: State, sub: SubId, msg: Message): State
    requires sub in s.subs
  {
    if s.subs[sub].closed then s.(panicked := true)
    else if |s.subs[sub].buffer| < CHANNEL_CAPACITY
    then WithSub(s, sub, s.subs[sub].(buffer := s.subs[sub].buffer + [msg]))
    else s
  }

  /** `close(sub.messages)`. */
  function CloseChan(s: State, sub: SubId): State
    requires sub in s.subs
  {
    if s.subs[sub].closed then s.(panicked := true)
    else WithSub(s, sub, s.subs[sub].(closed := true))
  }

  function Remove(ids: seq<SubId>, sub: SubId): seq<SubId>
    decreases |ids|
  {
    if ids == [] then [] else if ids[0] == sub then ids[1..] else [ids[0]] + Remove(ids[1..], sub)
  }

  /** `append(subs[:i], subs[i+1:]...)` on the list of the subscription's own subject. */
  function Splice(s: State, sub: SubId): State
    requires sub in s.subs
  {
    var subject := s.subs[sub].subject;
    if subject in s.registry
    then s.(registry := s.registry[subject := Remove(s.registry[subject], sub)]) else s
  }

  function SetFlag(s: State, sub: SubId): State
    requires sub in s.subs
  {
    WithSub(s, sub, s.subs[sub].(flag := true))
  }

  function EndPublish(s: State, t: ThreadId, after: Option<SubId>): State {
    Goto(s.(readers := s.readers - {t}), t, if after.Some? then RequestWait(after.value) else Finished)
  }

  /** Publish, and the sending part of Request. The order of the scan is left open. */
  ghost predicate PublishStep(s: State, t: ThreadId, pc: Pc, s': State) {
    match pc
    case PublishCheck(msg) =>
      s' == Goto(s, t, if s.closed then Finished else PublishLock(msg, None))
    case PublishLock(msg, after) =>
      s.writer.None? &&
      exists todo :: ListsMatching(s, msg.subject, todo)
                  && s' == Goto(s.(readers := s.readers + {t}), t, PublishScan(msg, todo, after))
    case PublishScan(msg, todo, after) =>
      if todo == [] then s' == EndPublish(s, t, after)
      else
        && todo[0] in s.subs
        && s' == Goto(s, t, if s.subs[todo[0]].flag then PublishScan(msg, todo[1..], after)
                            else PublishSend(msg, todo, after))
    case PublishSend(msg, todo, after) =>
      && todo != [] && todo[0] in s.subs
      && s' == Goto(Send(s, todo[0], msg), t, PublishScan(msg, todo[1..], after))
    case RequestWait(reply) => s' == Goto(s, t, UnsubscribeSwap(reply))
    case _ => false
  }

  /** Subscribe, and the first part of Request. */
  ghost predicate SubscribeStep(s: State, t: ThreadId, pc: Pc, s': State) {
    match pc
    case SubscribeCheck(subject, request) =>
      s' == Goto(s, t, if s.closed then Finished else SubscribeAdd(subject, request))
    case SubscribeAdd(subject, request) =>
      && s.writer.None? && s.readers == {}
      && var listed := if subject in s.registry then s.registry[subject] else [];
         s' == Goto(s.(subs := s.subs[s.nextId := Subscription(subject, false, false, [])],
                       registry := s.registry[subject := listed + [s.nextId]],
                       nextId := s.nextId + 1),
                    t, if request.Some? then PublishLock(request.value, Some(s.nextId)) else Finished)
    case _ => false
  }

  ghost predicate UnsubscribeStep(s: State, t: ThreadId, pc: Pc, s': State) {
    match pc
    case UnsubscribeSwap(sub) =>
      && sub in s.subs
      && s' == if s.subs[sub].flag then Goto(s, t, Finished)
               else Goto(SetFlag(s, sub), t, UnsubscribeLock(sub))
    case UnsubscribeLock(sub) =>
      && s.writer.None? && s.readers == {}
      && s' == Goto(s.(writer := Some(t)), t, UnsubscribeClose(sub))
    case UnsubscribeClose(sub) =>
      && sub in s.subs
      && s' == Goto(CloseChan(Splice(s, sub), sub).(writer := None), t, Finished)
    case _ => false
  }

  /** Close. The order of the loop is left open. */
  ghost predicate CloseStep(s: State, t: ThreadId, pc: Pc, s': State) {
    match pc
    case CloseSwap =>
      s' == Goto(s.(closed := true), t, if s.closed then Finished else CloseLock)
    case CloseLock =>
      s.writer.None? && s.readers == {} &&
      exists todo :: ListsAll(s, todo) && s' == Goto(s.(writer := Some(t)), t, CloseScan(todo))
    case CloseScan(todo) =>
      if todo == [] then s' == Goto(s.(writer := None), t, Finished)
      else
        && todo[0] in s.subs
        && s' == if s.subs[todo[0]].flag then Goto(s, t, CloseScan(todo[1..]))
                 else Goto(SetFlag(s, todo[0]), t, CloseChannel(todo))
    case CloseChannel(todo) =>
      && todo != [] && todo[0] in s.subs
      && s' == Goto(CloseChan(s, todo[0]), t, CloseScan(todo[1..]))
    case _ => false
  }

  ghost predicate ThreadStep(s: State, t: ThreadId, s': State)
    requires t in s.threads
  {
    var pc := s.threads[t];
    PublishStep(s, t, pc, s') || SubscribeStep(s, t, pc, s') || UnsubscribeStep(s, t, pc, s') || CloseStep(s, t, pc, s')
  }

  /** A goroutine starts one of the bus operations. Unsubscribe may be called any number of
      times, by anyone, on any subscription ever made. */
  predicate Starts(s: State, pc: Pc) {
    match pc
    case PublishCheck(_) => true
    case SubscribeCheck(_, _) => true
    case UnsubscribeSwap(sub) => sub in s.subs
    case CloseSwap => true
    case _ => false
  }

  /** A subscriber takes the oldest message out of its channel. */
  predicate Receives(s: State, sub: SubId, s': State) {
    && sub in s.subs && s.subs[sub].buffer != []
    && s' == WithSub(s, sub, s.subs[sub].(buffer := s.subs[sub].buffer[1..]))
  }

  ghost predicate Next(s: State, s': State) {
    || (exists t, pc :: t !in s.threads && Starts(s, pc) && s' == Goto(s, t, pc))
    || (exists t | t in s.threads :: ThreadStep(s, t, s'))
    || (exists sub :: Receives(s, sub, s'))
  }

  ghost predicate IsRun(run: seq<State>) {
    && |run| > 0 && run[0] == EMPTY
    && forall i | 0 < i < |run| :: Next(run[i - 1], run[i])
  }

  // ---- The protocol ----

  predicate Reading(pc: Pc) { pc.PublishScan? || pc.PublishSend? }

  predicate Writing(pc: Pc) { pc.UnsubscribeClose? || pc.CloseScan? || pc.CloseChannel? }

  /** The subscription whose flag the thread won and whose channel it has yet to close. */
  function ClaimOf(pc: Pc): Option<SubId> {
    match pc
    case UnsubscribeLock(sub) => Some(sub)
    case UnsubscribeClose(sub) => Some(sub)
    case CloseChannel(todo) => if todo == [] then None else Some(todo[0])
    case _ => None
  }

  /** The subscription the thread is about to send to. */
  function TargetOf(pc: Pc): Option<SubId> {
    if pc.PublishSend? && pc.todo != [] then Some(pc.todo[0]) else None
  }

  ghost predicate LockOk(s: State) {
    && (forall t :: t in s.readers <==> t in s.threads && Reading(s.threads[t]))
    && (forall t :: s.writer == Some(t) <==> t in s.threads && Writing(s.threads[t]))
    && (s.writer.Some? ==> s.readers == {})
  }

  ghost predicate Unclaimed(s: State, sub: SubId) {
    forall t | t in s.threads :: ClaimOf(s.threads[t]) != Some(sub)
  }

  /** A flag is up exactly when the channel is closed or some thread is about to close it;
      that thread is the only one, and finds the channel open. */
  ghost predicate FlagsOk(s: State) {
    && (forall sub | sub in s.subs :: s.subs[sub].flag == (s.subs[sub].closed || !Unclaimed(s, sub)))
    && (forall t | t in s.threads && ClaimOf(s.threads[t]).Some? ::
          var sub := ClaimOf(s.threads[t]).value; sub in s.subs && !s.subs[sub].closed)
    && (forall t, u | t in s.threads && u in s.threads && ClaimOf(s.threads[t]).Some?
                      && ClaimOf(s.threads[t]) == ClaimOf(s.threads[u]) :: t == u)
  }

  predicate Mentions(pc: Pc, sub: SubId) {
    match pc
    case PublishLock(_, after) => after == Some(sub)
    case PublishScan(_, todo, after) => sub in todo || after == Some(sub)
    case PublishSend(_, todo, after) => sub in todo || after == Some(sub)
    case RequestWait(x) => x == sub
    case UnsubscribeSwap(x) => x == sub
    case UnsubscribeLock(x) => x == sub
    case UnsubscribeClose(x) => x == sub
    case CloseScan(todo) => sub in todo
    case CloseChannel(todo) => sub in todo
    case _ => false
  }

  ghost predicate IdsOk(s: State) {
    && (forall sub | sub in s.subs :: sub < s.nextId)
    && (forall subject, sub | subject in s.registry && sub in s.registry[subject] :: sub in s.subs)
    && (forall t, sub | t in s.threads && Mentions(s.threads[t], sub) :: sub in s.subs)
    && (forall t | t in s.threads && (s.threads[t].PublishSend? || s.threads[t].CloseChannel?) :: s.threads[t].todo != [])
  }

  /** A publisher that saw the flag down, and still reads under the lock, has an open channel. */
  ghost predicate SendersOk(s: State) {
    forall t | t in s.threads && TargetOf(s.threads[t]).Some? ::
      var sub := TargetOf(s.threads[t]).value; sub in s.subs && !s.subs[sub].closed
  }

  ghost predicate Inv(s: State) {
    LockOk(s) && FlagsOk(s) && IdsOk(s) && SendersOk(s) && !s.panicked
  }
}

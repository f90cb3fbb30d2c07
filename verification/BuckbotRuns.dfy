/** Concurrent `handle` calls as a step machine, and what every run of it keeps. */
module BuckbotRuns {
  import opened Text
  import opened Buckbot

  const MAX_REVIEW_ATTEMPTS := 6
  const MAX_POST_ATTEMPTS := 8

  /** What one reviewer call returned; `failure` says whether the error was retryable. */
  datatype Review = Review(text: string, cost: real, failure: Option<bool>)

  /** Observable calls of one handler, in program order; `retry` is the number the length of a
      sleep is computed from. */
  datatype Call =
    | Admission(accepted: bool)
    | Reservation(granted: bool)
    | Announcement
    | Reviewed(review: Review)
    | Settlement(cost: real)
    | CurrencyCheck(current: bool)
    | Posted(text: string, ok: bool)
    | Marked(added: bool)
    | Slept(retry: nat, ok: bool)
    | Cancelled
    | Released

  datatype History = Begin | After(before: History, call: Call)

  /** Where a handler stands between two of its calls. */
  datatype Pc =
    | Reserving(attempt: nat)
    | Announcing(attempt: nat)
    | Reviewing(attempt: nat)
    | Settling(attempt: nat, review: Review)
    | BackingOff(attempt: nat)
    | StaleCheck(review: Review)
    | PostCheck(review: Review, posts: nat)
    | Posting(review: Review, posts: nat)
    | PostBackingOff(review: Review, posts: nat)
    | Marking
    | Cancelling
    | Releasing
    | Done

  datatype Handler = Handler(rev: Revision, cancelled: bool, pc: Pc, history: History) {
    predicate Running() { !pc.Done? }
    predicate Live() { Running() && !cancelled }
    /** Between a granted reservation and its settlement. */
    predicate Holds() { pc.Announcing? || pc.Reviewing? || pc.Settling? }
  }

  /** `settled` lists the costs settled so far, in order. */
  datatype State = State(shared: Shared, handlers: map<HandlerId, Handler>, settled: seq<real>)

  /** One step: a mutex section, or one call of the reviewer, poster, announcer or sleeper
      with the answer it happens to give. */
  datatype Step =
    | Arrive(h: HandlerId, rev: Revision)
    | Reserve(h: HandlerId)
    | Announce(h: HandlerId)
    | DoReview(h: HandlerId, review: Review)
    | Settle(h: HandlerId)
    | Wake(h: HandlerId, ok: bool)
    | CheckStale(h: HandlerId)
    | CheckPost(h: HandlerId)
    | Post(h: HandlerId, ok: bool)
    | WakePost(h: HandlerId, ok: bool)
    | Mark(h: HandlerId)
    | Cancel(h: HandlerId)
    | Release(h: HandlerId)

  function Initial(spent: real): State {
    State(Shared({}, map[], spent, 0.0), map[], [])
  }

  predicate Enabled(s: State, step: Step) {
    if step.Arrive? then step.h !in s.handlers
    else
      && step.h in s.handlers
      && var pc := s.handlers[step.h].pc;
         match step
         case Reserve(_) => pc.Reserving?
         case Announce(_) => pc.Announcing?
         case DoReview(_, _) => pc.Reviewing?
         case Settle(_) => pc.Settling?
         case Wake(_, _) => pc.BackingOff?
         case CheckStale(_) => pc.StaleCheck?
         case CheckPost(_) => pc.PostCheck?
         case Post(_, _) => pc.Posting?
         case WakePost(_, _) => pc.PostBackingOff?
         case Mark(_) => pc.Marking?
         case Cancel(_) => pc.Cancelling?
         case Release(_) => pc.Releasing?
  }

  /** A review worth posting: no error, not blank, within the per-review budget. */
  predicate Publishable(cfg: Config, r: Review) {
    r.failure.None? && !Blank(r.text) && r.cost <= cfg.perReview
  }

  /** The branch taken once a review attempt has been settled. */
  function Judge(cfg: Config, attempt: nat, r: Review): Pc {
    if r.failure.Some? then
      if r.cost == 0.0 && r.failure.value && attempt + 1 < MAX_REVIEW_ATTEMPTS
      then BackingOff(attempt) else Cancelling
    else if Blank(r.text) then Cancelling
    else if r.cost > cfg.perReview then Cancelling
    else StaleCheck(r)
  }

  function AfterPost(r: Review, posts: nat, ok: bool): Pc {
    if ok then Marking
    else if posts + 1 == MAX_POST_ATTEMPTS then Cancelling
    else PostBackingOff(r, posts)
  }

  /** Effect of a step of handler `hd`: the shared fields, the call made, where it goes next. */
  function Act(cfg: Config, s: State, step: Step): (Shared, Call, Pc)
    requires Enabled(s, step) && !step.Arrive?
  {
    var sh, rev, pc := s.shared, s.handlers[step.h].rev, s.handlers[step.h].pc;
    match step
    case Reserve(_) =>
      if !sh.CanReserve(cfg) then (sh, Reservation(false), Cancelling)
      else (sh.Reserve(cfg), Reservation(true),
            if pc.attempt == 0 && cfg.announces then Announcing(pc.attempt) else Reviewing(pc.attempt))
    case Announce(_) => (sh, Announcement, Reviewing(pc.attempt))
    case DoReview(_, r) => (sh, Reviewed(r), Settling(pc.attempt, r))
    case Settle(_) =>
      (sh.Settle(cfg, pc.review.cost), Settlement(pc.review.cost), Judge(cfg, pc.attempt, pc.review))
    case Wake(_, ok) => (sh, Slept(pc.attempt, ok), if ok then Reserving(pc.attempt + 1) else Cancelling)
    case CheckStale(_) =>
      var current := sh.IsCurrent(rev);
      (sh, CurrencyCheck(current), if current then PostCheck(pc.review, 0) else Cancelling)
    case CheckPost(_) =>
      var current := sh.IsCurrent(rev);
      (sh, CurrencyCheck(current), if current then Posting(pc.review, pc.posts) else Cancelling)
    case Post(_, ok) => (sh, Posted(pc.review.text, ok), AfterPost(pc.review, pc.posts, ok))
    case WakePost(_, ok) =>
      (sh, Slept(pc.posts, ok), if ok then PostCheck(pc.review, pc.posts + 1) else Cancelling)
    case Mark(_) => (sh.Mark(rev), Marked(sh.IsCurrent(rev)), Cancelling)
    case Cancel(_) => (sh, Cancelled, Releasing)
    case Release(_) => (sh.Release(rev), Released, Done)
  }

  /** Cancelling the context behind an entry. */
  function CancelOwner(s: State, pr: PullRequest): map<HandlerId, Handler> {
    if pr in s.shared.active && s.shared.active[pr].owner in s.handlers then
      var owner := s.shared.active[pr].owner;
      s.handlers[owner := s.handlers[owner].(cancelled := true)]
    else s.handlers
  }

  function Apply(cfg: Config, s: State, step: Step): State
    requires Enabled(s, step)
  {
    if step.Arrive? then
      if s.shared.Admits(step.rev) then
        State(s.shared.Admit(step.rev, step.h),
              CancelOwner(s, step.rev.pr)[step.h := Handler(step.rev, false, Reserving(0), After(Begin, Admission(true)))],
              s.settled)
      else
        s.(handlers := s.handlers[step.h := Handler(step.rev, true, Done, After(Begin, Admission(false)))])
    else
      var hd := s.handlers[step.h];
      var (sh, call, pc) := Act(cfg, s, step);
      State(sh,
            s.handlers[step.h := Handler(hd.rev, hd.cancelled || step.Cancel?, pc, After(hd.history, call))],
            if step.Settle? then s.settled + [hd.pc.review.cost] else s.settled)
  }

  /** `steps` can be taken one after the other from `s`. Every prefix of a run is a run. */
  predicate IsRun(cfg: Config, s: State, steps: seq<Step>)
    decreases |steps|
  {
    steps == [] || (Enabled(s, steps[0]) && IsRun(cfg, Apply(cfg, s, steps[0]), steps[1..]))
  }

  function Final(cfg: Config, s: State, steps: seq<Step>): State
    requires IsRun(cfg, s, steps)
    decreases |steps|
  {
    if steps == [] then s else Final(cfg, Apply(cfg, s, steps[0]), steps[1..])
  }

  // ---- What one handler's history may look like ----

  datatype Kind = Reviews | PaidReviews | Posts | GoodPosts | Grants | Settlements

  predicate Is(call: Call, kind: Kind) {
    match kind
    case Reviews => call.Reviewed?
    case PaidReviews => call.Reviewed? && call.review.cost != 0.0
    case Posts => call.Posted?
    case GoodPosts => call.Posted? && call.ok
    case Grants => call.Reservation? && call.granted
    case Settlements => call.Settlement?
  }

  function Count(h: History, kind: Kind): nat {
    if h.Begin? then 0 else Count(h.before, kind) + (if Is(h.call, kind) then 1 else 0)
  }

  function LastReview(h: History): Option<Review> {
    if h.Begin? then None
    else if h.call.Reviewed? then Some(h.call.review)
    else LastReview(h.before)
  }

  predicate Directly(h: History, c: Call) { h.After? && h.call == c }

  /** What must have happened before a call is made. */
  predicate Allowed(cfg: Config, before: History, call: Call) {
    var open := Count(before, Grants) - Count(before, Settlements);
    match call
    case Reservation(_) => open == 0 && Count(before, Posts) == 0
    case Reviewed(_) =>
      open == 1 && Count(before, Reviews) < MAX_REVIEW_ATTEMPTS
      && Count(before, PaidReviews) == 0 && Count(before, Posts) == 0
    case Settlement(cost) =>
      open == 1 && before.After? && before.call.Reviewed? && before.call.review.cost == cost
    case Posted(text, _) =>
      && open == 0 && Count(before, Posts) < MAX_POST_ATTEMPTS
      && Directly(before, CurrencyCheck(true))
      && LastReview(before).Some? && LastReview(before).value.text == text
      && Publishable(cfg, LastReview(before).value)
    case Marked(_) => before.After? && before.call.Posted? && before.call.ok
    case Released => open == 0
    case _ => true
  }

  predicate Disciplined(cfg: Config, h: History) {
    h.Begin? || (Disciplined(cfg, h.before) && Allowed(cfg, h.before, h.call))
  }

  /** The part of a handler's past its program counter stands for. */
  predicate PcExplains(cfg: Config, pc: Pc, h: History) {
    var reviews, paid, posts := Count(h, Reviews), Count(h, PaidReviews), Count(h, Posts);
    match pc
    case Reserving(a) => reviews == a < MAX_REVIEW_ATTEMPTS && paid == 0 && posts == 0
    case Announcing(a) => reviews == a < MAX_REVIEW_ATTEMPTS && paid == 0 && posts == 0
    case Reviewing(a) => reviews == a < MAX_REVIEW_ATTEMPTS && paid == 0 && posts == 0
    case Settling(a, r) =>
      reviews == a + 1 <= MAX_REVIEW_ATTEMPTS && posts == 0 && Directly(h, Reviewed(r))
      && paid == if r.cost != 0.0 then 1 else 0
    case BackingOff(a) => reviews == a + 1 < MAX_REVIEW_ATTEMPTS && paid == 0 && posts == 0
    case StaleCheck(r) => posts == 0 && LastReview(h) == Some(r) && Publishable(cfg, r)
    case PostCheck(r, n) =>
      posts == n < MAX_POST_ATTEMPTS && LastReview(h) == Some(r) && Publishable(cfg, r)
    case Posting(r, n) =>
      posts == n < MAX_POST_ATTEMPTS && LastReview(h) == Some(r) && Publishable(cfg, r)
      && Directly(h, CurrencyCheck(true))
    case PostBackingOff(r, n) =>
      posts == n + 1 < MAX_POST_ATTEMPTS && LastReview(h) == Some(r) && Publishable(cfg, r)
    case Marking => h.After? && h.call.Posted? && h.call.ok
    case _ => true
  }

  predicate Bounded(h: History) {
    Count(h, Reviews) <= MAX_REVIEW_ATTEMPTS && Count(h, PaidReviews) <= 1 && Count(h, Posts) <= MAX_POST_ATTEMPTS
  }

  predicate Balanced(hd: Handler) {
    Count(hd.history, Grants) == Count(hd.history, Settlements) + (if hd.Holds() then 1 else 0)
  }

  predicate HandlerOk(cfg: Config, hd: Handler) {
    && Disciplined(cfg, hd.history)
    && PcExplains(cfg, hd.pc, hd.history)
    && Bounded(hd.history)
    && Balanced(hd)
    && (hd.pc.Releasing? ==> hd.cancelled)
  }

  // ---- The ledger ----

  function Holders(handlers: map<HandlerId, Handler>): set<HandlerId> {
    set h | h in handlers && handlers[h].Holds()
  }

  /** By how much the settled reviews exceeded the per-review budget, in total. */
  function Overshoot(cfg: Config, costs: seq<real>): real
    decreases |costs|
  {
    if costs == [] then 0.0
    else
      var last := costs[|costs| - 1];
      Overshoot(cfg, costs[..|costs| - 1]) + (if last > cfg.perReview then last - cfg.perReview else 0.0)
  }

  function Charged(costs: seq<real>): real
    decreases |costs|
  {
    if costs == [] then 0.0
    else
      var last := costs[|costs| - 1];
      Charged(costs[..|costs| - 1]) + (if last > 0.0 then last else 0.0)
  }

  /** `n` reservations, added up. */
  function Reservations(cfg: Config, n: nat): real {
    if n == 0 then 0.0 else Reservations(cfg, n - 1) + cfg.perReview
  }

  lemma {:induction false} ReservationsMultiply(cfg: Config, n: nat)
    ensures Reservations(cfg, n) == cfg.perReview * (n as real)
  {
    if n > 0 {
      ReservationsMultiply(cfg, n - 1);
      assert cfg.perReview * (n as real) == cfg.perReview * ((n - 1) as real) + cfg.perReview;
    }
  }

  lemma {:induction false} ReservationsNonNegative(cfg: Config, n: nat)
    requires cfg.perReview >= 0.0
    ensures Reservations(cfg, n) >= 0.0
  {
    if n > 0 {
      ReservationsNonNegative(cfg, n - 1);
    }
  }

  function MaxReal(a: real, b: real): real { if a >= b then a else b }

  /** The ledger while `n` reservations are open. */
  predicate Books(cfg: Config, spent0: real, sh: Shared, n: nat, settled: seq<real>) {
    && sh.reserved == Reservations(cfg, n)
    && sh.spent == spent0 + Charged(settled)
    && sh.spent + sh.reserved <= MaxReal(spent0, cfg.monthly) + Overshoot(cfg, settled)
  }

  ghost predicate LedgerOk(cfg: Config, spent0: real, s: State) {
    Books(cfg, spent0, s.shared, |Holders(s.handlers)|, s.settled)
  }

  // ---- Entries and revisions ----

  /** Every entry was written by a handler of that revision that is still running. */
  ghost predicate EntriesOwned(s: State) {
    forall pr | pr in s.shared.active ::
      var e := s.shared.active[pr];
      && e.revision.pr == pr
      && e.owner in s.handlers
      && s.handlers[e.owner].Running()
      && s.handlers[e.owner].rev == e.revision
  }

  /** Every seen revision was posted by some handler and marked right after. */
  ghost predicate SeenWasPosted(s: State) {
    forall rev | rev in s.shared.seen ::
      exists h :: h in s.handlers && s.handlers[h].rev == rev && PostedAndMarked(s.handlers[h].history)
  }

  predicate PostedAndMarked(h: History) {
    h.After? && (PostedAndMarked(h.before)
                 || (h.call == Marked(true) && h.before.After? && h.before.call.Posted? && h.before.call.ok))
  }

  /** What does not depend on the money. */
  ghost predicate Orderly(cfg: Config, s: State) {
    && (forall h | h in s.handlers :: HandlerOk(cfg, s.handlers[h]))
    && EntriesOwned(s)
    && SeenWasPosted(s)
  }

  ghost predicate Inv(cfg: Config, spent0: real, s: State) {
    Orderly(cfg, s) && LedgerOk(cfg, spent0, s)
  }

  // ---- Each step keeps each part ----

  lemma StepKeepsHandler(cfg: Config, s: State, step: Step, h: HandlerId)
    requires forall k | k in s.handlers :: HandlerOk(cfg, s.handlers[k])
    requires Enabled(s, step) && h in Apply(cfg, s, step).handlers
    ensures HandlerOk(cfg, Apply(cfg, s, step).handlers[h])
  {
    if h == step.h {
      if step.Arrive? {
        assert Disciplined(cfg, Begin);
      } else {
        ActKeepsHandler(cfg, s, step);
      }
    }
  }

  lemma {:induction false} ActIsAllowed(cfg: Config, s: State, step: Step)
    requires Enabled(s, step) && !step.Arrive?
    requires HandlerOk(cfg, s.handlers[step.h])
    ensures Allowed(cfg, s.handlers[step.h].history, Act(cfg, s, step).1)
  {
  }

  predicate PostPhase(step: Step) {
    step.CheckStale? || step.CheckPost? || step.Post? || step.WakePost? || step.Mark?
  }

  ghost predicate Explained(cfg: Config, s: State, step: Step)
    requires Enabled(s, step) && !step.Arrive?
  {
    var (_, call, pc) := Act(cfg, s, step);
    PcExplains(cfg, pc, After(s.handlers[step.h].history, call))
  }

  lemma {:induction false} PostPhaseIsExplained(cfg: Config, s: State, step: Step)
    requires Enabled(s, step) && PostPhase(step)
    requires HandlerOk(cfg, s.handlers[step.h])
    ensures Explained(cfg, s, step)
  {
  }

  lemma {:induction false} ReviewPhaseIsExplained(cfg: Config, s: State, step: Step)
    requires Enabled(s, step) && !step.Arrive? && !PostPhase(step)
    requires HandlerOk(cfg, s.handlers[step.h])
    ensures Explained(cfg, s, step)
  {
  }

  lemma ActKeepsBalance(cfg: Config, s: State, step: Step)
    requires Enabled(s, step) && !step.Arrive?
    requires Balanced(s.handlers[step.h])
    ensures Balanced(Apply(cfg, s, step).handlers[step.h])
  {
  }

  /** A call allowed by its history keeps the history's bounds. */
  lemma AllowedKeepsBounds(cfg: Config, before: History, call: Call)
    requires Bounded(before) && Allowed(cfg, before, call)
    ensures Bounded(After(before, call))
  {
  }

  lemma {:induction false} ActKeepsHandler(cfg: Config, s: State, step: Step)
    requires Enabled(s, step) && !step.Arrive?
    requires HandlerOk(cfg, s.handlers[step.h])
    ensures HandlerOk(cfg, Apply(cfg, s, step).handlers[step.h])
  {
    ActIsAllowed(cfg, s, step);
    AllowedKeepsBounds(cfg, s.handlers[step.h].history, Act(cfg, s, step).1);
    ActKeepsBalance(cfg, s, step);
    if PostPhase(step) {
      PostPhaseIsExplained(cfg, s, step);
    } else {
      ReviewPhaseIsExplained(cfg, s, step);
    }
  }

  lemma HoldersAfter(handlers: map<HandlerId, Handler>, h: HandlerId, hd: Handler)
    ensures var before, after := Holders(handlers), Holders(handlers[h := hd]);
            |after| == |before| - (if h in before then 1 else 0) + (if hd.Holds() then 1 else 0)
  {
    var before, after := Holders(handlers), Holders(handlers[h := hd]);
    assert after == if hd.Holds() then before - {h} + {h} else before - {h};
  }

  lemma ArriveKeepsHolders(cfg: Config, s: State, step: Step)
    requires Enabled(s, step) && step.Arrive?
    ensures Holders(Apply(cfg, s, step).handlers) == Holders(s.handlers)
  {
  }

  lemma SettledAppend(cfg: Config, costs: seq<real>, cost: real)
    ensures Charged(costs + [cost]) == Charged(costs) + (if cost > 0.0 then cost else 0.0)
    ensures Overshoot(cfg, costs + [cost]) == Overshoot(cfg, costs) + (if cost > cfg.perReview then cost - cfg.perReview else 0.0)
  {
    if costs != [] {
      assert (costs + [cost])[..|costs|] == costs;
    }
  }

  lemma SettleKeepsBooks(cfg: Config, spent0: real, sh: Shared, n: nat, settled: seq<real>, cost: real)
    requires cfg.perReview >= 0.0 && n > 0 && Books(cfg, spent0, sh, n, settled)
    ensures Books(cfg, spent0, sh.Settle(cfg, cost), n - 1, settled + [cost])
  {
    ReservationsNonNegative(cfg, n - 1);
    SettledAppend(cfg, settled, cost);
  }

  lemma SettleKeepsLedger(cfg: Config, spent0: real, s: State, step: Step)
    requires cfg.perReview >= 0.0
    requires LedgerOk(cfg, spent0, s) && Enabled(s, step) && step.Settle?
    ensures LedgerOk(cfg, spent0, Apply(cfg, s, step))
  {
    HoldersAfter(s.handlers, step.h, Apply(cfg, s, step).handlers[step.h]);
    assert step.h in Holders(s.handlers);
    SettleKeepsBooks(cfg, spent0, s.shared, |Holders(s.handlers)|, s.settled, s.handlers[step.h].pc.review.cost);
  }

  lemma StepKeepsLedger(cfg: Config, spent0: real, s: State, step: Step)
    requires cfg.perReview >= 0.0
    requires LedgerOk(cfg, spent0, s) && Enabled(s, step)
    ensures LedgerOk(cfg, spent0, Apply(cfg, s, step))
  {
    if step.Arrive? {
      ArriveKeepsHolders(cfg, s, step);
    } else if step.Settle? {
      SettleKeepsLedger(cfg, spent0, s, step);
    } else {
      HoldersAfter(s.handlers, step.h, Apply(cfg, s, step).handlers[step.h]);
      OvershootNonNegative(cfg, s.settled);
    }
  }

  lemma {:induction false} OvershootNonNegative(cfg: Config, costs: seq<real>)
    ensures Overshoot(cfg, costs) >= 0.0
    decreases |costs|
  {
    if costs != [] {
      OvershootNonNegative(cfg, costs[..|costs| - 1]);
    }
  }

  lemma ArriveKeepsEntries(cfg: Config, s: State, step: Step)
    requires EntriesOwned(s) && Enabled(s, step) && step.Arrive?
    ensures EntriesOwned(Apply(cfg, s, step))
  {
  }

  lemma ReleaseKeepsEntries(cfg: Config, s: State, step: Step)
    requires EntriesOwned(s) && Enabled(s, step) && step.Release?
    ensures EntriesOwned(Apply(cfg, s, step))
  {
  }

  /** Every other step leaves the entries alone and its handler running. */
  lemma OthersKeepEntries(cfg: Config, s: State, step: Step)
    requires Enabled(s, step) && !step.Arrive? && !step.Release?
    ensures var s' := Apply(cfg, s, step);
            && s'.shared.active == s.shared.active
            && s'.handlers.Keys == s.handlers.Keys
            && s'.handlers[step.h].Running() && s'.handlers[step.h].rev == s.handlers[step.h].rev
            && forall h | h in s.handlers && h != step.h :: s'.handlers[h] == s.handlers[h]
  {
  }

  lemma StepKeepsEntries(cfg: Config, s: State, step: Step)
    requires EntriesOwned(s) && Enabled(s, step)
    ensures EntriesOwned(Apply(cfg, s, step))
  {
    if step.Arrive? {
      ArriveKeepsEntries(cfg, s, step);
    } else if step.Release? {
      ReleaseKeepsEntries(cfg, s, step);
    } else {
      OthersKeepEntries(cfg, s, step);
    }
  }

  lemma StepKeepsSeen(cfg: Config, s: State, step: Step)
    requires forall h | h in s.handlers :: HandlerOk(cfg, s.handlers[h])
    requires SeenWasPosted(s) && Enabled(s, step)
    ensures SeenWasPosted(Apply(cfg, s, step))
  {
    var s' := Apply(cfg, s, step);
    forall rev | rev in s'.shared.seen
      ensures exists h :: h in s'.handlers && s'.handlers[h].rev == rev && PostedAndMarked(s'.handlers[h].history)
    {
      if rev in s.shared.seen {
        var h :| h in s.handlers && s.handlers[h].rev == rev && PostedAndMarked(s.handlers[h].history);
        assert s'.handlers[h].rev == rev && PostedAndMarked(s'.handlers[h].history);
      } else {
        var h := step.h;
        assert s'.handlers[h].rev == rev && PostedAndMarked(s'.handlers[h].history);
      }
    }
  }

  lemma StepKeepsOrder(cfg: Config, s: State, step: Step)
    requires Orderly(cfg, s) && Enabled(s, step)
    ensures Orderly(cfg, Apply(cfg, s, step))
  {
    var s' := Apply(cfg, s, step);
    forall h | h in s'.handlers ensures HandlerOk(cfg, s'.handlers[h]) {
      StepKeepsHandler(cfg, s, step, h);
    }
    StepKeepsEntries(cfg, s, step);
    StepKeepsSeen(cfg, s, step);
  }

  lemma StepKeepsInv(cfg: Config, spent0: real, s: State, step: Step)
    requires cfg.perReview >= 0.0
    requires Inv(cfg, spent0, s) && Enabled(s, step)
    ensures Inv(cfg, spent0, Apply(cfg, s, step))
  {
    StepKeepsOrder(cfg, s, step);
    StepKeepsLedger(cfg, spent0, s, step);
  }

  lemma {:induction false} RunKeepsOrder(cfg: Config, s: State, steps: seq<Step>)
    requires Orderly(cfg, s) && IsRun(cfg, s, steps)
    ensures Orderly(cfg, Final(cfg, s, steps))
    decreases |steps|
  {
    if steps != [] {
      StepKeepsOrder(cfg, s, steps[0]);
      RunKeepsOrder(cfg, Apply(cfg, s, steps[0]), steps[1..]);
    }
  }

  lemma {:induction false} RunKeepsInv(cfg: Config, spent0: real, s: State, steps: seq<Step>)
    requires cfg.perReview >= 0.0
    requires Inv(cfg, spent0, s) && IsRun(cfg, s, steps)
    ensures Inv(cfg, spent0, Final(cfg, s, steps))
    decreases |steps|
  {
    if steps != [] {
      StepKeepsInv(cfg, spent0, s, steps[0]);
      RunKeepsInv(cfg, spent0, Apply(cfg, s, steps[0]), steps[1..]);
    }
  }

  // ---- Main results over every run from a fresh service ----

  ghost predicate Reachable(cfg: Config, spent0: real, s: State) {
    exists steps :: IsRun(cfg, Initial(spent0), steps) && Final(cfg, Initial(spent0), steps) == s
  }

  lemma ReachableInv(cfg: Config, spent0: real, s: State)
    requires cfg.perReview >= 0.0 && Reachable(cfg, spent0, s)
    ensures Inv(cfg, spent0, s)
  {
    var steps :| IsRun(cfg, Initial(spent0), steps) && Final(cfg, Initial(spent0), steps) == s;
    assert Holders(Initial(spent0).handlers) == {};
    RunKeepsInv(cfg, spent0, Initial(spent0), steps);
  }

  lemma ReachableOrder(cfg: Config, spent0: real, s: State)
    requires Reachable(cfg, spent0, s)
    ensures Orderly(cfg, s)
  {
    var steps :| IsRun(cfg, Initial(spent0), steps) && Final(cfg, Initial(spent0), steps) == s;
    RunKeepsOrder(cfg, Initial(spent0), steps);
  }

  lemma ReachableLedger(cfg: Config, spent0: real, s: State)
    requires cfg.perReview >= 0.0 && Reachable(cfg, spent0, s)
    ensures LedgerOk(cfg, spent0, s)
  {
    ReachableInv(cfg, spent0, s);
  }

  /** Reserved money is exactly the open reservations, and spending is bounded by the
      monthly budget plus what reviews overshot. */
  lemma LedgerIsExact(cfg: Config, spent0: real, s: State)
    requires cfg.perReview >= 0.0 && Reachable(cfg, spent0, s)
    ensures s.shared.reserved == cfg.perReview * (|Holders(s.handlers)| as real)
    ensures s.shared.spent == spent0 + Charged(s.settled)
    ensures s.shared.spent + s.shared.reserved <= MaxReal(spent0, cfg.monthly) + Overshoot(cfg, s.settled)
  {
    ReachableLedger(cfg, spent0, s);
    ReservationsMultiply(cfg, |Holders(s.handlers)|);
  }

  /** The clamp in the settlement has nothing to clamp. */
  lemma ClampNeverFires(cfg: Config, spent0: real, s: State, h: HandlerId)
    requires cfg.perReview >= 0.0 && Reachable(cfg, spent0, s) && Enabled(s, Settle(h))
    ensures s.shared.reserved - cfg.perReview >= 0.0
  {
    ReachableInv(cfg, spent0, s);
    assert h in Holders(s.handlers);
    ReservationsNonNegative(cfg, |Holders(s.handlers)| - 1);
  }

  /** One `handle` call: at most six reviews and eight posts, at most one paid review, every
      grant settled once the call is over, and every call allowed by what preceded it. */
  lemma HandleIsDisciplined(cfg: Config, spent0: real, s: State, h: HandlerId)
    requires Reachable(cfg, spent0, s) && h in s.handlers
    ensures var past := s.handlers[h].history;
            && Disciplined(cfg, past)
            && Count(past, Reviews) <= 6 && Count(past, PaidReviews) <= 1 && Count(past, Posts) <= 8
            && (s.handlers[h].pc.Done? ==> Count(past, Grants) == Count(past, Settlements))
  {
    ReachableOrder(cfg, spent0, s);
  }

  /** Every post of every handler says something: its text has a character that is not white
      space, is the text of a review without error and within the budget, and the revision was
      found current directly before. */
  lemma EveryPostIsDue(cfg: Config, spent0: real, s: State, h: HandlerId, past: History)
    requires Reachable(cfg, spent0, s) && h in s.handlers && Extends(s.handlers[h].history, past)
    requires past.After? && past.call.Posted?
    ensures exists i :: 0 <= i < |past.call.text| && !IsSpace(past.call.text[i])
    ensures Directly(past.before, CurrencyCheck(true))
    ensures var review := LastReview(past.before);
            review.Some? && review.value.text == past.call.text && review.value.failure.None? && review.value.cost <= cfg.perReview
  {
    HandleIsDisciplined(cfg, spent0, s, h);
    PastIsDisciplined(cfg, past, s.handlers[h].history);
    BlankMeansAllSpace(past.call.text);
  }

  lemma {:induction false} PastIsDisciplined(cfg: Config, past: History, later: History)
    requires Disciplined(cfg, later) && Extends(later, past)
    ensures Disciplined(cfg, past)
  {
    if later != past {
      PastIsDisciplined(cfg, past, later.before);
    }
  }

  /** A disciplined history never reviews after a post nor after a paid review. */
  lemma {:induction false} PaidReviewIsLast(cfg: Config, past: History, later: History)
    requires Disciplined(cfg, later) && Extends(later, past)
    requires past.After? && (past.call.Posted? || Is(past.call, PaidReviews))
    ensures Count(later, Reviews) == Count(past, Reviews)
  {
    if later != past {
      PaidReviewIsLast(cfg, past, later.before);
      CountGrows(past, later.before, Posts);
      CountGrows(past, later.before, PaidReviews);
    }
  }

  predicate Extends(later: History, past: History) {
    later == past || (later.After? && Extends(later.before, past))
  }

  lemma {:induction false} CountGrows(past: History, later: History, kind: Kind)
    requires Extends(later, past)
    ensures Count(past, kind) <= Count(later, kind)
  {
    if later != past {
      CountGrows(past, later.before, kind);
    }
  }

  /** No entry outlives its handler. */
  lemma EntryBelongsToRunningHandler(cfg: Config, spent0: real, s: State, pr: PullRequest)
    requires Reachable(cfg, spent0, s) && pr in s.shared.active
    ensures var e := s.shared.active[pr];
            e.owner in s.handlers && s.handlers[e.owner].Running() && s.handlers[e.owner].rev == e.revision
            && e.revision.pr == pr
  {
    ReachableOrder(cfg, spent0, s);
  }

  /** `seen` never shrinks, and grows only right after a successful post of a revision that
      is still current. */
  lemma SeenGrowsAfterPost(cfg: Config, spent0: real, s: State, step: Step)
    requires Reachable(cfg, spent0, s) && Enabled(s, step)
    ensures s.shared.seen <= Apply(cfg, s, step).shared.seen
    ensures forall rev | rev in Apply(cfg, s, step).shared.seen && rev !in s.shared.seen ::
              && step.Mark? && s.handlers[step.h].rev == rev && s.shared.IsCurrent(rev)
              && var past := s.handlers[step.h].history; past.After? && past.call.Posted? && past.call.ok
  {
    ReachableOrder(cfg, spent0, s);
  }

  /** Once a revision is seen, a handler that arrives for it makes no call at all. */
  lemma {:induction false} SeenStopsLaterHandlers(cfg: Config, s: State, steps: seq<Step>, h: HandlerId, rev: Revision)
    requires IsRun(cfg, s, steps) && rev in s.shared.seen
    requires h in s.handlers ==> s.handlers[h].rev != rev || RefusedOnly(s.handlers[h])
    ensures rev in Final(cfg, s, steps).shared.seen
    ensures var last := Final(cfg, s, steps).handlers;
            h in last && last[h].rev == rev ==> RefusedOnly(last[h])
    decreases |steps|
  {
    if steps != [] {
      SeenStopsLaterHandlers(cfg, Apply(cfg, s, steps[0]), steps[1..], h, rev);
    }
  }

  predicate RefusedOnly(hd: Handler) {
    hd.pc.Done? && hd.history == After(Begin, Admission(false))
  }

  // ---- The ledger without a sensible budget ----

  lemma {:induction false} RunExtends(cfg: Config, s: State, steps: seq<Step>, step: Step)
    requires IsRun(cfg, s, steps) && Enabled(Final(cfg, s, steps), step)
    ensures IsRun(cfg, s, steps + [step])
    ensures Final(cfg, s, steps + [step]) == Apply(cfg, Final(cfg, s, steps), step)
    decreases |steps|
  {
    if steps == [] {
      assert [step][1..] == [];
    } else {
      RunExtends(cfg, Apply(cfg, s, steps[0]), steps[1..], step);
      assert (steps + [step])[1..] == steps[1..] + [step];
    }
  }

  lemma ReachableStep(cfg: Config, spent0: real, s: State, step: Step)
    requires Reachable(cfg, spent0, s) && Enabled(s, step)
    ensures Reachable(cfg, spent0, Apply(cfg, s, step))
  {
    var steps :| IsRun(cfg, Initial(spent0), steps) && Final(cfg, Initial(spent0), steps) == s;
    RunExtends(cfg, Initial(spent0), steps, step);
  }

  ghost predicate Exact(cfg: Config, s: State) {
    s.shared.reserved == Reservations(cfg, |Holders(s.handlers)|)
  }

  /** Nothing was ever granted. */
  ghost predicate Idle(spent0: real, s: State) {
    s.shared.spent == spent0 && s.shared.reserved == 0.0 && Holders(s.handlers) == {}
  }

  lemma StepKeepsIdle(cfg: Config, spent0: real, s: State, step: Step)
    requires Idle(spent0, s) && Enabled(s, step) && spent0 + cfg.perReview > cfg.monthly
    ensures Idle(spent0, Apply(cfg, s, step))
  {
    var s' := Apply(cfg, s, step);
    assert step.Settle? ==> step.h in Holders(s.handlers);
    forall h | h in s'.handlers ensures !s'.handlers[h].Holds() {
      assert h in s.handlers ==> (s.handlers[h].Holds() ==> h in Holders(s.handlers));
    }
  }

  lemma {:induction false} RunKeepsIdle(cfg: Config, spent0: real, s: State, steps: seq<Step>)
    requires Idle(spent0, s) && IsRun(cfg, s, steps) && spent0 + cfg.perReview > cfg.monthly
    ensures Idle(spent0, Final(cfg, s, steps))
    decreases |steps|
  {
    if steps != [] {
      StepKeepsIdle(cfg, spent0, s, steps[0]);
      RunKeepsIdle(cfg, spent0, Apply(cfg, s, steps[0]), steps[1..]);
    }
  }

  const FIRST := Revision(PullRequest("owner/repo", 1), "head")
  const SECOND := Revision(PullRequest("owner/repo", 2), "head")
  const FAILED := Review("", 0.0, Some(false))

  lemma TwoArrivals(cfg: Config, spent0: real) returns (s: State)
    ensures Reachable(cfg, spent0, s) && s.handlers.Keys == {0, 1}
    ensures s.handlers[0].pc == Reserving(0) && s.handlers[1].pc == Reserving(0)
    ensures s.shared.spent == spent0 && s.shared.reserved == 0.0
  {
    s := Initial(spent0);
    assert IsRun(cfg, s, []) && Final(cfg, s, []) == s;
    ReachableStep(cfg, spent0, s, Arrive(0, FIRST));
    s := Apply(cfg, s, Arrive(0, FIRST));
    ReachableStep(cfg, spent0, s, Arrive(1, SECOND));
    s := Apply(cfg, s, Arrive(1, SECOND));
  }

  lemma Granted(cfg: Config, spent0: real, s: State, h: HandlerId) returns (s': State)
    requires Reachable(cfg, spent0, s) && h in s.handlers && s.handlers[h].pc == Reserving(0) && s.shared.CanReserve(cfg)
    ensures Reachable(cfg, spent0, s') && s'.handlers.Keys == s.handlers.Keys
    ensures s'.handlers[h].Holds() && !s'.handlers[h].pc.Settling?
    ensures forall k | k in s.handlers && k != h :: s'.handlers[k] == s.handlers[k]
    ensures s'.shared.spent == s.shared.spent && s'.shared.reserved == s.shared.reserved + cfg.perReview
  {
    ReachableStep(cfg, spent0, s, Reserve(h));
    s' := Apply(cfg, s, Reserve(h));
  }

  /** Two handlers hold a grant each. */
  lemma TwoGrants(cfg: Config, spent0: real) returns (s: State)
    requires cfg.perReview < 0.0 && spent0 + cfg.perReview <= cfg.monthly
    ensures Reachable(cfg, spent0, s)
    ensures s.handlers.Keys == {0, 1} && s.handlers[0].Holds() && s.handlers[1].Holds()
    ensures !s.handlers[0].pc.Settling? && s.shared.reserved == 2.0 * cfg.perReview
  {
    s := TwoArrivals(cfg, spent0);
    s := Granted(cfg, spent0, s, 0);
    s := Granted(cfg, spent0, s, 1);
  }

  /** Both grants are still open when the first handler comes to settle. */
  ghost predicate FirstSettles(cfg: Config, s: State) {
    && s.handlers.Keys == {0, 1} && s.handlers[0].pc.Settling? && s.handlers[1].Holds()
    && s.shared.reserved == 2.0 * cfg.perReview
  }

  lemma FirstReviews(cfg: Config, spent0: real, s: State) returns (s': State)
    requires Reachable(cfg, spent0, s)
    requires s.handlers.Keys == {0, 1} && s.handlers[0].Holds() && s.handlers[1].Holds()
    requires !s.handlers[0].pc.Settling? && s.shared.reserved == 2.0 * cfg.perReview
    ensures Reachable(cfg, spent0, s') && FirstSettles(cfg, s')
  {
    s' := s;
    if s.handlers[0].pc.Announcing? {
      ReachableStep(cfg, spent0, s, Announce(0));
      s' := Apply(cfg, s, Announce(0));
    }
    ReachableStep(cfg, spent0, s', DoReview(0, FAILED));
    s' := Apply(cfg, s', DoReview(0, FAILED));
  }

  lemma SettlingLeavesOne(cfg: Config, s: State)
    requires cfg.perReview < 0.0 && FirstSettles(cfg, s)
    ensures !Exact(cfg, Apply(cfg, s, Settle(0)))
  {
    var s' := Apply(cfg, s, Settle(0));
    assert Holders(s'.handlers) == {1};
    assert Reservations(cfg, 1) == Reservations(cfg, 0) + cfg.perReview;
  }

  /** Settling one of two negative grants fires the clamp and leaves the other unaccounted. */
  lemma ClampCanFire(cfg: Config, spent0: real) returns (s: State)
    requires cfg.perReview < 0.0 && spent0 + cfg.perReview <= cfg.monthly
    ensures Reachable(cfg, spent0, s) && Enabled(s, Settle(0)) && s.shared.reserved - cfg.perReview < 0.0
    ensures Apply(cfg, s, Settle(0)).shared.reserved == 0.0
    ensures Reachable(cfg, spent0, Apply(cfg, s, Settle(0))) && !Exact(cfg, Apply(cfg, s, Settle(0)))
  {
    s := TwoGrants(cfg, spent0);
    s := FirstReviews(cfg, spent0, s);
    SettlingLeavesOne(cfg, s);
    ReachableStep(cfg, spent0, s, Settle(0));
  }

  /** Reserved is always what the open grants add up to, exactly when the per-review budget is
      not negative or no grant is ever made. */
  lemma LedgerExactIff(cfg: Config, spent0: real)
    ensures (forall s | Reachable(cfg, spent0, s) :: Exact(cfg, s))
       <==> cfg.perReview >= 0.0 || spent0 + cfg.perReview > cfg.monthly
  {
    if cfg.perReview >= 0.0 {
      forall s | Reachable(cfg, spent0, s) ensures Exact(cfg, s) {
        ReachableLedger(cfg, spent0, s);
      }
    } else if spent0 + cfg.perReview > cfg.monthly {
      forall s | Reachable(cfg, spent0, s) ensures Exact(cfg, s) {
        var steps :| IsRun(cfg, Initial(spent0), steps) && Final(cfg, Initial(spent0), steps) == s;
        RunKeepsIdle(cfg, spent0, Initial(spent0), steps);
      }
    } else {
      var s := ClampCanFire(cfg, spent0);
    }
  }
}

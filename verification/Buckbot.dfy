/** The review bot: any number of `handle` calls running at once over one mutex.

    Every mutex section is one method of `Service` and, on values, one function of `Shared`.
    The machine of module `BuckbotRuns` interleaves handlers at that granularity. */
module Buckbot {
  import opened Text

  datatype PullRequest = PullRequest(repository: string, number: int)
  datatype Revision = Revision(pr: PullRequest, head: string)
  type HandlerId = nat

  datatype Config = Config(perReview: real, monthly: real, announces: bool)

  /** An entry of `active`; the cancel function it carries belongs to handler `owner`. */
  datatype Entry = Entry(revision: Revision, owner: HandlerId)

  datatype Shared = Shared(
    seen: set<Revision>,
    active: map<PullRequest, Entry>,
    spent: real,
    reserved: real)
  {
    predicate IsCurrent(rev: Revision) {
      rev.pr in active && active[rev.pr].revision == rev
    }

    predicate Admits(rev: Revision) {
      rev !in seen && !IsCurrent(rev)
    }

    function Admit(rev: Revision, h: HandlerId): Shared {
      this.(active := active[rev.pr := Entry(rev, h)])
    }

    predicate CanReserve(cfg: Config) {
      !(spent + reserved + cfg.perReview > cfg.monthly)
    }

    function Reserve(cfg: Config): Shared {
      this.(reserved := reserved + cfg.perReview)
    }

    function Settle(cfg: Config, cost: real): Shared {
      var left := reserved - cfg.perReview;
      this.(reserved := if left < 0.0 then 0.0 else left,
            spent := if cost > 0.0 then spent + cost else spent)
    }

    function Mark(rev: Revision): Shared {
      if IsCurrent(rev) then this.(seen := seen + {rev}) else this
    }

    function Release(rev: Revision): Shared {
      if IsCurrent(rev) then this.(active := active - {rev.pr}) else this
    }
  }

  /** `buckbotService`: the fields under the mutex. */
  class Service {
    const cfg: Config
    var seen: set<Revision>
    var active: map<PullRequest, Entry>
    var spentUSD: real
    var reserved: real

    function Fields(): Shared
      reads this
    {
      Shared(seen, active, spentUSD, reserved)
    }

    constructor (cfg: Config, spent: real)
      ensures this.cfg == cfg
      ensures Fields() == Shared({}, map[], spent, 0.0)
    {
      this.cfg := cfg;
      seen, active, spentUSD, reserved := {}, map[], spent, 0.0;
    }

    /** First section of `handle`; `superseded` is the handler whose context is cancelled. */
    method Admit(rev: Revision, h: HandlerId) returns (admitted: bool, superseded: Option<HandlerId>)
      modifies this
      ensures admitted == old(Fields()).Admits(rev)
      ensures Fields() == if admitted then old(Fields()).Admit(rev, h) else old(Fields())
      ensures superseded == if admitted && rev.pr in old(active) then Some(old(active)[rev.pr].owner) else None
    {
      superseded := None;
      if rev in seen {
        return false, None;
      }
      if rev.pr in active {
        if active[rev.pr].revision == rev {
          return false, None;
        }
        superseded := Some(active[rev.pr].owner);
      }
      active := active[rev.pr := Entry(rev, h)];
      admitted := true;
    }

    method IsCurrentRevision(rev: Revision) returns (current: bool)
      ensures current == Fields().IsCurrent(rev)
    {
      current := rev.pr in active && active[rev.pr].revision == rev;
    }

    method ReserveReviewBudget() returns (ok: bool)
      modifies this
      ensures ok == old(Fields()).CanReserve(cfg)
      ensures Fields() == if ok then old(Fields()).Reserve(cfg) else old(Fields())
    {
      if spentUSD + reserved + cfg.perReview > cfg.monthly {
        return false;
      }
      reserved := reserved + cfg.perReview;
      return true;
    }

    method SettleReviewBudget(cost: real)
      modifies this
      ensures Fields() == old(Fields()).Settle(cfg, cost)
    {
      reserved := reserved - cfg.perReview;
      if reserved < 0.0 {
        reserved := 0.0;
      }
      if cost > 0.0 {
        spentUSD := spentUSD + cost;
      }
    }

    /** The section after a successful post. */
    method MarkSeen(rev: Revision)
      modifies this
      ensures Fields() == old(Fields()).Mark(rev)
    {
      if rev.pr in active && active[rev.pr].revision == rev {
        seen := seen + {rev};
      }
    }

    /** The deferred section of `handle`. */
    method Release(rev: Revision)
      modifies this
      ensures Fields() == old(Fields()).Release(rev)
    {
      if rev.pr in active && active[rev.pr].revision == rev {
        active := active - {rev.pr};
      }
    }
  }

  // ---- Retry delay, in seconds ----

  const INITIAL_RETRY_DELAY := 15
  const MAX_RETRY_DELAY := 300

  function Pow2(n: nat): (p: nat)
    ensures p >= 1
  {
    if n == 0 then 1 else 2 * Pow2(n - 1)
  }

  lemma {:induction false} Pow2Monotone(m: nat, n: nat)
    requires m <= n
    ensures Pow2(m) <= Pow2(n)
  {
    if m < n {
      Pow2Monotone(m, n - 1);
    }
  }

  /** Once the cap is reached, further doublings do not change the delay. */
  lemma CapIsStable(m: nat, n: nat)
    requires m <= n
    ensures INITIAL_RETRY_DELAY * Pow2(m) >= MAX_RETRY_DELAY ==>
              Min(INITIAL_RETRY_DELAY * Pow2(n), MAX_RETRY_DELAY) == MAX_RETRY_DELAY
  {
    Pow2Monotone(m, n);
  }

  function Min(a: int, b: int): int { if a <= b then a else b }
  function Max(a: int, b: int): int { if a >= b then a else b }

  /** `retryAfter` is the delay a provider error asks for, if the error carries one. */
  method RetryDelay(attempt: int, retryAfter: Option<int>) returns (delay: int)
    ensures var backoff := Min(INITIAL_RETRY_DELAY * Pow2(Max(attempt, 0)), MAX_RETRY_DELAY);
            delay == if retryAfter.Some? then Max(retryAfter.value, backoff) else backoff
  {
    delay := INITIAL_RETRY_DELAY;
    var i := 0;
    while i < attempt && delay < MAX_RETRY_DELAY
      invariant 0 <= i <= Max(attempt, 0)
      invariant delay == Min(INITIAL_RETRY_DELAY * Pow2(i), MAX_RETRY_DELAY)
    {
      delay := Min(delay * 2, MAX_RETRY_DELAY);
      i := i + 1;
    }
    CapIsStable(i, Max(attempt, 0));
    if retryAfter.Some? && retryAfter.value > delay {
      return retryAfter.value;
    }
  }
}

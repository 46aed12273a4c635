/** Per-category pacing with exponential back-off on rate-limit rejections. */
module Schedulers {
  import opened TokenBuckets

  datatype Category = OrderCalls | PositionCalls | AccountCalls | MarketCalls

  const RATE_LIMIT_CODES: set<int> := {10006, 10018}
  const MAX_BACKOFF_MS: int := 30000
  const BASE_BACKOFF_MS: int := 500

  datatype SchedulerState = SchedulerState(buckets: map<Category, Bucket>, backoffUntil: map<Category, int>, hits: nat)

  function Until(backoffUntil: map<Category, int>, category: Category): int {
    if category in backoffUntil then backoffUntil[category] else 0
  }

  function Pow2(n: nat): (p: int)
    ensures p > 0
  {
    if n == 0 then 1 else 2 * Pow2(n - 1)
  }

  function MinInt(a: int, b: int): int {
    if a <= b then a else b
  }

  function MaxInt(a: int, b: int): int {
    if a >= b then a else b
  }

  /** Back-off after the nth consecutive rejection. */
  function BackoffDelay(hits: nat): int
    requires hits > 0
  {
    MinInt(MAX_BACKOFF_MS, BASE_BACKOFF_MS * Pow2(hits - 1))
  }

  datatype SchedulerOp =
    | Take(category: Category, now: int)
    | Wait(category: Category, now: int)
    | Headers(category: Category, remaining: real)
    | Rejection(category: Category, code: int, now: int)
    | Succeeded

  function TakeResult(configs: map<Category, BucketConfig>, s: SchedulerState, category: Category,
                      now: int): (SchedulerState, bool)
    requires category in configs && category in s.buckets
  {
    if now < Until(s.backoffUntil, category) then (s, false)
    else
      var (b, ok) := TryTake(configs[category], s.buckets[category], now, 1.0);
      (s.(buckets := s.buckets[category := b]), ok)
  }

  function WaitResult(configs: map<Category, BucketConfig>, s: SchedulerState, category: Category,
                      now: int): (SchedulerState, int)
    requires category in configs && category in s.buckets && configs[category].refillPerSecond > 0.0
  {
    var b := Refill(configs[category], s.buckets[category], now);
    (s.(buckets := s.buckets[category := b]),
     MaxInt(MaxInt(0, Until(s.backoffUntil, category) - now), WaitFor(configs[category], b.tokens, 1.0)))
  }

  function RejectionResult(s: SchedulerState, category: Category, code: int, now: int): (SchedulerState, bool) {
    if code !in RATE_LIMIT_CODES then (s, false)
    else (s.(hits := s.hits + 1, backoffUntil := s.backoffUntil[category := now + BackoffDelay(s.hits + 1)]), true)
  }

  function Step(configs: map<Category, BucketConfig>, s: SchedulerState, op: SchedulerOp): SchedulerState
    requires Configured(configs, s)
  {
    match op
    case Take(category, now) => TakeResult(configs, s, category, now).0
    case Wait(category, now) => WaitResult(configs, s, category, now).0
    case Headers(category, remaining) =>
      s.(buckets := s.buckets[category := SyncFromHeader(s.buckets[category], remaining)])
    case Rejection(category, code, now) => RejectionResult(s, category, code, now).0
    case Succeeded => s.(hits := 0)
  }

  /** Every category has a bucket with a sane configuration. */
  predicate Configured(configs: map<Category, BucketConfig>, s: SchedulerState) {
    forall category: Category :: category in configs && category in s.buckets && SaneConfig(configs[category])
  }

  // -------------------------------------------------------------- the class

  class RateScheduler {
    const configs: map<Category, BucketConfig>
    const buckets: map<Category, TokenBucket>
    var backoffUntil: map<Category, int>
    var consecutiveLimitHits: nat

    ghost predicate Valid()
      reads this, buckets.Values
    {
      && (forall category: Category :: category in configs && category in buckets && SaneConfig(configs[category])
                                       && buckets[category].config == configs[category])
      && (forall c, d: Category :: c != d ==> buckets[c] != buckets[d])
    }

    ghost function State(): SchedulerState
      reads this, buckets.Values
    {
      SchedulerState(map category | category in buckets :: buckets[category].State(), backoffUntil,
                     consecutiveLimitHits)
    }

    constructor (now: int, configs: map<Category, BucketConfig>)
      requires forall category: Category :: category in configs && SaneConfig(configs[category])
      ensures Valid() && this.configs == configs && fresh(buckets.Values)
      ensures forall category: Category :: buckets[category].State() == Bucket(configs[category].capacity, now)
      ensures backoffUntil == map[] && consecutiveLimitHits == 0
    {
      var o := new TokenBucket(configs[OrderCalls], now);
      var p := new TokenBucket(configs[PositionCalls], now);
      var a := new TokenBucket(configs[AccountCalls], now);
      var m := new TokenBucket(configs[MarketCalls], now);
      this.configs := configs;
      buckets := map[OrderCalls := o, PositionCalls := p, AccountCalls := a, MarketCalls := m];
      backoffUntil, consecutiveLimitHits := map[], 0;
      new;
      hide SaneConfig, Step;
      assert buckets[OrderCalls] == o && buckets[PositionCalls] == p && buckets[AccountCalls] == a
             && buckets[MarketCalls] == m;
      forall category: Category
        ensures category in buckets && buckets[category].State() == Bucket(configs[category].capacity, now)
      {
        match category {
          case OrderCalls =>
          case PositionCalls =>
          case AccountCalls =>
          case MarketCalls =>
        }
      }
    }

    method TakeToken(category: Category, now: int) returns (ok: bool)
      requires Valid()
      modifies buckets[category]
      ensures Valid() && (State(), ok) == TakeResult(configs, old(State()), category, now)
    {
      hide TryTake;
      if now < Until(backoffUntil, category) { return false; }
      ok := buckets[category].Take(now, 1.0);
      assert State().buckets == old(State()).buckets[category := buckets[category].State()];
    }

    method WaitMs(category: Category, now: int) returns (ms: int)
      requires Valid()
      modifies buckets[category]
      ensures Valid() && (State(), ms) == WaitResult(configs, old(State()), category, now)
    {
      hide Refill, WaitFor;
      var backoff := MaxInt(0, Until(backoffUntil, category) - now);
      var w := buckets[category].WaitMs(now, 1.0);
      ms := MaxInt(backoff, w.value);
      assert State().buckets == old(State()).buckets[category := buckets[category].State()];
    }

    method ObserveHeaders(category: Category, remaining: real)
      requires Valid()
      modifies buckets[category]
      ensures Valid() && State() == Step(configs, old(State()), Headers(category, remaining))
      ensures buckets[category].tokens <= old(buckets[category].tokens)
      ensures remaining >= 0.0 ==> buckets[category].tokens <= remaining
    {
      buckets[category].Sync(remaining);
      assert State().buckets == old(State()).buckets[category := buckets[category].State()];
    }

    method ObserveRejection(category: Category, code: int, now: int) returns (limited: bool)
      requires Valid()
      modifies this`backoffUntil, this`consecutiveLimitHits
      ensures Valid() && (State(), limited) == RejectionResult(old(State()), category, code, now)
      ensures limited <==> code == 10006 || code == 10018
      ensures !limited ==> backoffUntil == old(backoffUntil) && consecutiveLimitHits == old(consecutiveLimitHits)
      ensures limited ==>
                && consecutiveLimitHits == old(consecutiveLimitHits) + 1
                && backoffUntil == old(backoffUntil)[category := now + BackoffDelay(consecutiveLimitHits)]
    {
      if code !in RATE_LIMIT_CODES { return false; }
      consecutiveLimitHits := consecutiveLimitHits + 1;
      backoffUntil := backoffUntil[category := now + BackoffDelay(consecutiveLimitHits)];
      limited := true;
      assert State().buckets == old(State()).buckets;
    }

    method ObserveSuccess()
      requires Valid()
      modifies this`consecutiveLimitHits
      ensures Valid() && State() == Step(configs, old(State()), Succeeded) && consecutiveLimitHits == 0
    {
      consecutiveLimitHits := 0;
      assert State().buckets == old(State()).buckets;
    }
  }

  // --------------------------------------------------------------- theorems

  /** The reported wait, back-off included, is the least after which a take succeeds. */
  lemma SchedulerWaitIsLeast(configs: map<Category, BucketConfig>, s: SchedulerState, category: Category, now: int,
                             k: nat)
    requires Configured(configs, s) && configs[category].capacity >= 1.0
    ensures var (s1, w) := WaitResult(configs, s, category, now);
            TakeResult(configs, s1, category, now + k).1 <==> k >= w
  {
    WaitIsLeast(configs[category], s.buckets[category], now, 1.0, k);
  }

  /** Delays double with every consecutive rejection until they reach the cap, and stay there. */
  lemma BackoffDoubles(hits: nat)
    requires hits > 0
    ensures 0 < BackoffDelay(hits) <= MAX_BACKOFF_MS
    ensures BackoffDelay(hits + 1) == MinInt(MAX_BACKOFF_MS, 2 * BackoffDelay(hits))
  {
    assert Pow2(hits) == 2 * Pow2(hits - 1);
  }

  function Run(configs: map<Category, BucketConfig>, s: SchedulerState, ops: seq<SchedulerOp>): (r: SchedulerState)
    requires Configured(configs, s)
    ensures Configured(configs, r)
    decreases |ops|
  {
    if ops == [] then s else Run(configs, Step(configs, s, ops[0]), ops[1..])
  }

  predicate Taken(configs: map<Category, BucketConfig>, s: SchedulerState, category: Category, op: SchedulerOp)
    requires Configured(configs, s)
  {
    op.Take? && op.category == category && TakeResult(configs, s, category, op.now).1
  }

  /** Requests of a category let through along a run. */
  function Sent(configs: map<Category, BucketConfig>, s: SchedulerState, category: Category, ops: seq<SchedulerOp>): nat
    requires Configured(configs, s)
    decreases |ops|
  {
    if ops == [] then 0
    else
      (if Taken(configs, s, category, ops[0]) then 1 else 0)
        + Sent(configs, Step(configs, s, ops[0]), category, ops[1..])
  }

  /** What a category's bucket sees of a scheduler run: nothing of the other categories, and no
      take while the category is backing off. */
  function BucketView(configs: map<Category, BucketConfig>, s: SchedulerState, category: Category,
                      ops: seq<SchedulerOp>): seq<BucketOp>
    requires Configured(configs, s)
    decreases |ops|
  {
    if ops == [] then []
    else
      var rest := BucketView(configs, Step(configs, s, ops[0]), category, ops[1..]);
      match ops[0]
      case Take(c, now) => if c == category && now >= Until(s.backoffUntil, c) then [TakeOp(now, 1.0)] + rest else rest
      case Wait(c, now) => if c == category then [WaitOp(now, 1.0)] + rest else rest
      case Headers(c, remaining) => if c == category then [SyncOp(remaining)] + rest else rest
      case _ => rest
  }

  /** Times of timed calls never go back and stay within [from, until]. */
  predicate Timed(from: int, until: int, ops: seq<SchedulerOp>)
    decreases |ops|
  {
    ops == []
    || (match ops[0]
        case Take(_, now) => from <= now <= until && Timed(now, until, ops[1..])
        case Wait(_, now) => from <= now <= until && Timed(now, until, ops[1..])
        case Rejection(_, _, now) => from <= now <= until && Timed(now, until, ops[1..])
        case _ => Timed(from, until, ops[1..]))
  }

  /** The scheduler lets through exactly what the bucket grants to its own view of the run. */
  lemma {:induction false} SentIsGranted(configs: map<Category, BucketConfig>, s: SchedulerState, category: Category,
                                         ops: seq<SchedulerOp>, from: int, until: int)
    requires Configured(configs, s) && Timed(from, until, ops) && s.buckets[category].lastRefill <= from
    ensures var view := BucketView(configs, s, category, ops);
            && Sent(configs, s, category, ops) as real == Granted(configs[category], s.buckets[category], view)
            && Forward(s.buckets[category].lastRefill, view) && Within(view, from, until)
    decreases |ops|
  {
    hide Refill;
    if ops != [] {
      var s1, rest := Step(configs, s, ops[0]), ops[1..];
      var from1 := match ops[0]
                   case Take(_, now) => now
                   case Wait(_, now) => now
                   case Rejection(_, _, now) => now
                   case _ => from;
      StepKeepsTime(configs, s, category, ops[0], from, from1);
      SentIsGranted(configs, s1, category, rest, from1, until);
      var view, view1 := BucketView(configs, s, category, ops), BucketView(configs, s1, category, rest);
      assert from <= from1 && ((ops[0].Take? || ops[0].Wait?) ==> ops[0].now == from1 <= until);
      assert Sent(configs, s, category, ops)
             == (if Taken(configs, s, category, ops[0]) then 1 else 0) + Sent(configs, s1, category, rest);
      var b, b1 := s.buckets[category], s1.buckets[category];
      ViewStep(configs, s, category, ops, view1);
      hide Step, BucketView, Taken, StepBucket, GrantedBy, Granted, Sent, Timed, Forward;
      if !(view == view1 && b1 == b && !Taken(configs, s, category, ops[0])) {
        var op :| view == [op] + view1 && BucketStep(configs, s, category, ops[0], op);
        PrependedOp(configs[category], b, op, view1, from, from1, until);
      }
    }
  }

  lemma PrependedOp(cfg: BucketConfig, b: Bucket, op: BucketOp, view: seq<BucketOp>, from: int, from1: int, until: int)
    requires var b1 := StepBucket(cfg, b, op); Forward(b1.lastRefill, view) && Within(view, from1, until)
    requires from <= from1 && b.lastRefill <= from
    requires if op.SyncOp? then StepBucket(cfg, b, op).lastRefill == b.lastRefill
             else op.now == from1 <= until && StepBucket(cfg, b, op).lastRefill == op.now
                  && (op.TakeOp? ==> op.count == 1.0)
    ensures Granted(cfg, b, [op] + view) == GrantedBy(cfg, b, op) + Granted(cfg, StepBucket(cfg, b, op), view)
    ensures Forward(b.lastRefill, [op] + view) && Within([op] + view, from, until)
  {
    hide StepBucket, GrantedBy;
    var all := [op] + view;
    assert all[1..] == view && all[0] == op;
    assert forall i :: 1 <= i < |all| ==> all[i] == view[i - 1];
  }

  lemma StepKeepsTime(configs: map<Category, BucketConfig>, s: SchedulerState, category: Category, op: SchedulerOp,
                      from: int, from1: int)
    requires Configured(configs, s) && s.buckets[category].lastRefill <= from <= from1
    requires (op.Take? || op.Wait?) ==> op.now == from1
    ensures s.buckets[category].lastRefill <= Step(configs, s, op).buckets[category].lastRefill <= from1
  {}

  /** One operation either reaches the category's bucket as one bucket operation or not at all. */
  lemma ViewStep(configs: map<Category, BucketConfig>, s: SchedulerState, category: Category, ops: seq<SchedulerOp>,
                 rest: seq<BucketOp>)
    requires Configured(configs, s) && ops != []
    requires rest == BucketView(configs, Step(configs, s, ops[0]), category, ops[1..])
    ensures var view := BucketView(configs, s, category, ops);
            || (view == rest && Step(configs, s, ops[0]).buckets[category] == s.buckets[category]
                && !Taken(configs, s, category, ops[0]))
            || (exists op :: view == [op] + rest && BucketStep(configs, s, category, ops[0], op))
  {
    var view := BucketView(configs, s, category, ops);
    if view != rest {
      var op := view[0];
      assert view == [op] + rest && BucketStep(configs, s, category, ops[0], op);
    }
  }

  /** A scheduler operation is this bucket operation on the category's bucket. */
  ghost predicate BucketStep(configs: map<Category, BucketConfig>, s: SchedulerState, category: Category,
                             sop: SchedulerOp, op: BucketOp)
    requires Configured(configs, s)
  {
    var cfg, b, b1 := configs[category], s.buckets[category], Step(configs, s, sop).buckets[category];
    && b1 == StepBucket(cfg, b, op)
    && (if Taken(configs, s, category, sop) then 1.0 else 0.0) == GrantedBy(cfg, b, op)
    && (!op.SyncOp? ==> (sop.Take? || sop.Wait?) && op.now == sop.now && b1.lastRefill == sop.now)
    && (op.TakeOp? ==> op.count == 1.0)
    && (op.SyncOp? ==> sop.Headers? && b1.lastRefill == b.lastRefill)
  }

  /** Tokens and refill times stay in range along a run. */
  predicate InRange(configs: map<Category, BucketConfig>, s: SchedulerState, until: int)
    requires Configured(configs, s)
  {
    forall category: Category ::
      s.buckets[category].lastRefill <= until && 0.0 <= s.buckets[category].tokens <= configs[category].capacity
  }

  lemma StepInRange(configs: map<Category, BucketConfig>, s: SchedulerState, op: SchedulerOp, from: int)
    requires Configured(configs, s) && (op.Take? || op.Wait? ==> s.buckets[op.category].lastRefill <= op.now <= from)
    requires InRange(configs, s, from)
    ensures InRange(configs, Step(configs, s, op), from)
  {
    hide Earned;
    if op.Take? || op.Wait? {
      var cfg := configs[op.category];
      EarnedAdds(cfg, 0, 0);
      EarnedGrows(cfg, 0, op.now - s.buckets[op.category].lastRefill);
    }
  }

  lemma {:induction false} RunInRange(configs: map<Category, BucketConfig>, s: SchedulerState, ops: seq<SchedulerOp>,
                                      from: int, until: int)
    requires Configured(configs, s) && InRange(configs, s, from) && Timed(from, until, ops) && from <= until
    ensures InRange(configs, Run(configs, s, ops), until)
    decreases |ops|
  {
    if ops != [] {
      var from1 := match ops[0]
                   case Take(_, now) => now
                   case Wait(_, now) => now
                   case Rejection(_, _, now) => now
                   case _ => from;
      StepInRange(configs, s, ops[0], from1);
      hide Step;
      RunInRange(configs, Step(configs, s, ops[0]), ops[1..], from1, until);
    }
  }

  /** A new scheduler: every bucket full, no back-off. */
  ghost predicate IsNew(configs: map<Category, BucketConfig>, s: SchedulerState, start: int) {
    && Configured(configs, s)
    && s.backoffUntil == map[] && s.hits == 0
    && forall category: Category :: s.buckets[category] == Bucket(configs[category].capacity, start)
  }

  /** Over any interval of any run of a new scheduler, whatever the other categories, rejections
      and headers do, a category sends no more than its capacity plus what its rate earns. */
  lemma CategoryWindowBound(configs: map<Category, BucketConfig>, s: SchedulerState, category: Category, start: int,
                            before: seq<SchedulerOp>, during: seq<SchedulerOp>, lo: int, hi: int)
    requires IsNew(configs, s, start) && start <= lo <= hi && Timed(start, lo, before) && Timed(lo, hi, during)
    ensures Sent(configs, Run(configs, s, before), category, during) as real
            <= configs[category].capacity + (hi - lo) as real / 1000.0 * configs[category].refillPerSecond
  {
    hide Sent, Granted, BucketView, Timed, Step, Run;
    RunInRange(configs, s, before, start, lo);
    var s1 := Run(configs, s, before);
    SentIsGranted(configs, s1, category, during, lo, hi);
    GrantedInWindow(configs[category], s1.buckets[category], BucketView(configs, s1, category, during), lo, hi);
  }

  predicate IsLimit(op: SchedulerOp) {
    op.Rejection? && op.code in RATE_LIMIT_CODES
  }

  /** Rate-limit rejections of any category since the last success. */
  function HitsAfter(hits: nat, ops: seq<SchedulerOp>): nat
    decreases |ops|
  {
    if ops == [] then hits
    else HitsAfter(if IsLimit(ops[0]) then hits + 1 else if ops[0].Succeeded? then 0 else hits, ops[1..])
  }

  /** When the back-off set by the rejection at index j is over. */
  function BackoffEnd(hits: nat, ops: seq<SchedulerOp>, j: nat): int
    requires j < |ops| && IsLimit(ops[j])
  {
    ops[j].now + BackoffDelay(HitsAfter(hits, ops[..j]) + 1)
  }

  lemma {:induction false} UntilStays(configs: map<Category, BucketConfig>, s: SchedulerState, category: Category,
                                      ops: seq<SchedulerOp>)
    requires Configured(configs, s) && forall i :: 0 <= i < |ops| && IsLimit(ops[i]) ==> ops[i].category != category
    ensures Until(Run(configs, s, ops).backoffUntil, category) == Until(s.backoffUntil, category)
    decreases |ops|
  {
    hide TryTake, Refill, WaitFor, SyncFromHeader;
    if ops != [] {
      assert forall i :: 0 <= i < |ops[1..]| ==> ops[1..][i] == ops[i + 1];
      UntilStays(configs, Step(configs, s, ops[0]), category, ops[1..]);
    }
  }

  /** The latest rate-limit rejection of a category decides how long it backs off. */
  lemma {:induction false} LatestRejectionDecides(configs: map<Category, BucketConfig>, s: SchedulerState,
                                                  category: Category,
                                                  ops: seq<SchedulerOp>, j: nat)
    requires Configured(configs, s) && j < |ops| && IsLimit(ops[j]) && ops[j].category == category
    requires forall i :: j < i < |ops| && IsLimit(ops[i]) ==> ops[i].category != category
    ensures Until(Run(configs, s, ops).backoffUntil, category) == BackoffEnd(s.hits, ops, j)
    decreases |ops|
  {
    hide TryTake, Refill, WaitFor, SyncFromHeader, BackoffDelay;
    var rest := ops[1..];
    assert forall i :: 0 <= i < |rest| ==> rest[i] == ops[i + 1];
    if j == 0 {
      UntilStays(configs, Step(configs, s, ops[0]), category, rest);
      assert ops[..0] == [];
    } else {
      LatestRejectionDecides(configs, Step(configs, s, ops[0]), category, rest, j - 1);
      assert ops[..j][1..] == rest[..j - 1];
    }
  }

  /** A category that was never rejected does not back off at any time from zero on: its bucket alone decides. */
  lemma {:induction false} NeverRejectedNeverBacksOff(configs: map<Category, BucketConfig>, s: SchedulerState,
                                                      category: Category, ops: seq<SchedulerOp>, now: int)
    requires Configured(configs, s) && category !in s.backoffUntil && now >= 0
    requires forall i :: 0 <= i < |ops| && IsLimit(ops[i]) ==> ops[i].category != category
    ensures var s' := Run(configs, s, ops);
            TakeResult(configs, s', category, now).1 == TryTake(configs[category], s'.buckets[category], now, 1.0).1
    decreases |ops|
  {
    hide TryTake, Refill, WaitFor, SyncFromHeader, BackoffDelay;
    if ops != [] {
      var rest := ops[1..];
      assert forall i :: 0 <= i < |rest| ==> rest[i] == ops[i + 1];
      NeverRejectedNeverBacksOff(configs, Step(configs, s, ops[0]), category, rest, now);
    }
  }

  /** In every run, whatever is observed meanwhile: a request of a category that has been rejected is
      let through no earlier than the end of the back-off its latest rejection set. */
  lemma NothingSentDuringBackoff(configs: map<Category, BucketConfig>, s: SchedulerState, category: Category,
                                 ops: seq<SchedulerOp>, j: nat, op: SchedulerOp)
    requires Configured(configs, s) && j < |ops| && IsLimit(ops[j]) && ops[j].category == category
    requires forall i :: j < i < |ops| && IsLimit(ops[i]) ==> ops[i].category != category
    requires Taken(configs, Run(configs, s, ops), category, op)
    ensures op.now >= BackoffEnd(s.hits, ops, j)
  {
    hide TryTake, BackoffEnd;
    LatestRejectionDecides(configs, s, category, ops, j);
  }

  lemma {:induction false} HitsGrowWithoutSuccess(hits: nat, ops: seq<SchedulerOp>)
    requires forall i :: 0 <= i < |ops| ==> !ops[i].Succeeded?
    ensures HitsAfter(hits, ops) >= hits
    decreases |ops|
  {
    if ops != [] {
      assert forall i :: 0 <= i < |ops[1..]| ==> ops[1..][i] == ops[i + 1];
      HitsGrowWithoutSuccess(if IsLimit(ops[0]) then hits + 1 else hits, ops[1..]);
    }
  }

  lemma {:induction false} HitsSplit(hits: nat, a: seq<SchedulerOp>, b: seq<SchedulerOp>)
    ensures HitsAfter(hits, a + b) == HitsAfter(HitsAfter(hits, a), b)
    decreases |a|
  {
    if a == [] {
      assert a + b == b;
    } else {
      assert (a + b)[1..] == a[1..] + b;
      HitsSplit(if IsLimit(a[0]) then hits + 1 else if a[0].Succeeded? then 0 else hits, a[1..], b);
    }
  }

  lemma {:induction false} DelaysDoNotShrink(m: nat, n: nat)
    requires 0 < m <= n
    ensures BackoffDelay(m) <= BackoffDelay(n)
  {
    if m < n {
      DelaysDoNotShrink(m, n - 1);
      BackoffDoubles(n - 1);
    }
  }

  /** Only a success can cut a back-off short: as long as none comes between them, a later rejection
      never ends earlier than one before it. */
  lemma BackoffEndsLaterWithoutSuccess(hits: nat, ops: seq<SchedulerOp>, i: nat, j: nat)
    requires i < j < |ops| && IsLimit(ops[i]) && IsLimit(ops[j]) && ops[i].now <= ops[j].now
    requires forall k :: i < k < j ==> !ops[k].Succeeded?
    ensures BackoffEnd(hits, ops, i) <= BackoffEnd(hits, ops, j)
  {
    hide BackoffDelay;
    assert ops[..j] == ops[..i] + ops[i..j];
    HitsSplit(hits, ops[..i], ops[i..j]);
    var between := ops[i..j];
    assert forall k :: 0 <= k < |between| ==> between[k] == ops[i + k];
    assert forall k :: 0 <= k < |between| ==> !between[k].Succeeded?;
    HitsGrowWithoutSuccess(HitsAfter(hits, ops[..i]), between);
    DelaysDoNotShrink(HitsAfter(hits, ops[..i]) + 1, HitsAfter(hits, ops[..j]) + 1);
  }

  /** A rejection at level b, counted since the last success, is over no earlier than one at level a. */
  predicate EndsNoEarlier(t: int, a: nat, t': int, b: nat)
    requires a > 0 && b > 0
  {
    t + BackoffDelay(a) <= t' + BackoffDelay(b)
  }

  lemma {:induction false} DelayReachesCap(n: nat)
    requires n > 0
    ensures n < 7 ==> BackoffDelay(n) == BASE_BACKOFF_MS * Pow2(n - 1) < MAX_BACKOFF_MS
    ensures n >= 7 ==> BackoffDelay(n) == MAX_BACKOFF_MS
  {
    if n > 1 {
      DelayReachesCap(n - 1);
      BackoffDoubles(n - 1);
    }
    assert Pow2(0) == 1 && Pow2(1) == 2 && Pow2(2) == 4 && Pow2(3) == 8;
    assert Pow2(4) == 16 && Pow2(5) == 32 && Pow2(6) == 64;
  }

  /** In milliseconds: half a second first, doubled six times at most, and never more than half a minute. */
  lemma DelayTable(n: nat)
    requires n > 0
    ensures BackoffDelay(n) == match n
                               case 1 => 500
                               case 2 => 1000
                               case 3 => 2000
                               case 4 => 4000
                               case 5 => 8000
                               case 6 => 16000
                               case _ => 30000
  {
    DelayReachesCap(n);
    assert Pow2(0) == 1 && Pow2(1) == 2 && Pow2(2) == 4 && Pow2(3) == 8 && Pow2(4) == 16 && Pow2(5) == 32;
  }

  /** Delays compare like their levels, up to the seventh, where the cap is reached. */
  lemma DelayOrder(a: nat, b: nat)
    requires a > 0 && b > 0
    ensures BackoffDelay(a) <= BackoffDelay(b) <==> a <= b || b >= 7
  {
    DelayReachesCap(a);
    DelayReachesCap(b);
    if a <= b { DelaysDoNotShrink(a, b); } else { DelaysDoNotShrink(b, a); }
    if b < a && b < 7 {
      BackoffDoubles(b);
      DelaysDoNotShrink(b + 1, a);
    }
    hide BackoffDelay, Pow2;
  }

  /** A later rejection never ends its back-off earlier than one before it, whenever the two come, if and
      only if its level has not fallen, or is at the cap. */
  lemma LaterNeverEndsEarlierIff(hits: nat, ops: seq<SchedulerOp>, i: nat, j: nat)
    requires i < j < |ops| && IsLimit(ops[i]) && IsLimit(ops[j])
    ensures var a, b := HitsAfter(hits, ops[..i]) + 1, HitsAfter(hits, ops[..j]) + 1;
            && (BackoffEnd(hits, ops, i) <= BackoffEnd(hits, ops, j) <==> EndsNoEarlier(ops[i].now, a, ops[j].now, b))
            && ((forall t, t' :: t <= t' ==> EndsNoEarlier(t, a, t', b)) <==> a <= b || b >= 7)
  {
    var a, b := HitsAfter(hits, ops[..i]) + 1, HitsAfter(hits, ops[..j]) + 1;
    DelayOrder(a, b);
    hide BackoffDelay, HitsAfter;
    assert EndsNoEarlier(0, a, 0, b) <==> BackoffDelay(a) <= BackoffDelay(b);
  }

  /** A success in between can: the rejection after it sets a shorter back-off than the one before. */
  lemma SuccessShortensBackoff()
    ensures var r := Rejection(OrderCalls, 10006, 0);
            var ops := [r, r, Succeeded, r];
            BackoffEnd(0, ops, 1) == 1000 && BackoffEnd(0, ops, 3) == 500
  {
    var r := Rejection(OrderCalls, 10006, 0);
    var ops := [r, r, Succeeded, r];
    assert ops[..1] == [r];
    assert ops[..3] == [r, r, Succeeded];
    assert HitsAfter(0, [r]) == HitsAfter(1, [r][1..]) == 1;
    assert [r, r, Succeeded][1..] == [r, Succeeded] && [r, Succeeded][1..] == [Succeeded] && [Succeeded][1..] == [];
    assert HitsAfter(0, ops[..3]) == HitsAfter(1, [r, Succeeded]) == HitsAfter(2, [Succeeded]) == HitsAfter(0, []) == 0;
    assert Pow2(0) == 1 && Pow2(1) == 2;
  }

  /** Other categories keep their own back-off and tokens. */
  lemma CategoriesAreIndependent(configs: map<Category, BucketConfig>, s: SchedulerState, op: SchedulerOp,
                                 category: Category)
    requires Configured(configs, s) && !op.Succeeded? && op.category != category
    ensures var s1 := Step(configs, s, op);
            s1.buckets[category] == s.buckets[category]
                && Until(s1.backoffUntil, category) == Until(s.backoffUntil, category)
  {}
}

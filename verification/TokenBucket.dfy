/** The token bucket behind every rate-limited category. */
module TokenBuckets {
  import opened Results
  import opened Reals

  datatype BucketConfig = BucketConfig(refillPerSecond: real, capacity: real)

  datatype Bucket = Bucket(tokens: real, lastRefill: int)

  /** Tokens earned over a number of milliseconds. */
  function Earned(cfg: BucketConfig, elapsedMs: int): real {
    elapsedMs as real / 1000.0 * cfg.refillPerSecond
  }

  function Refill(cfg: BucketConfig, b: Bucket, now: int): Bucket {
    var elapsed := if now - b.lastRefill > 0 then now - b.lastRefill else 0;
    Bucket(MinReal(cfg.capacity, b.tokens + Earned(cfg, elapsed)), now)
  }

  function TryTake(cfg: BucketConfig, b: Bucket, now: int, count: real): (Bucket, bool) {
    var b1 := Refill(cfg, b, now);
    if b1.tokens < count then (b1, false) else (b1.(tokens := b1.tokens - count), true)
  }

  /** Milliseconds until the deficit is earned, rounded up. */
  function WaitFor(cfg: BucketConfig, tokens: real, count: real): int
    requires tokens < count ==> cfg.refillPerSecond != 0.0
  {
    if tokens >= count then 0 else Ceiling((count - tokens) / cfg.refillPerSecond * 1000.0)
  }

  /** Without any refill a deficit divides by zero: the wait is infinite. */
  function WaitAnswer(cfg: BucketConfig, tokens: real, count: real): Option<int> {
    if tokens < count && cfg.refillPerSecond == 0.0 then None
    else Some(WaitFor(cfg, tokens, count))
  }

  function SyncFromHeader(b: Bucket, remaining: real): Bucket {
    b.(tokens := MinReal(b.tokens, MaxReal(0.0, remaining)))
  }

  class TokenBucket {
    const config: BucketConfig
    var tokens: real
    var lastRefill: int

    ghost function State(): Bucket
      reads this
    {
      Bucket(tokens, lastRefill)
    }

    constructor (config: BucketConfig, now: int)
      ensures this.config == config && State() == Bucket(config.capacity, now)
    {
      this.config := config;
      tokens, lastRefill := config.capacity, now;
    }

    method RefillTo(now: int)
      modifies this
      ensures State() == Refill(config, old(State()), now)
    {
      var elapsed := if now - lastRefill > 0 then now - lastRefill else 0;
      tokens := MinReal(config.capacity, tokens + Earned(config, elapsed));
      lastRefill := now;
    }

    method Take(now: int, count: real) returns (ok: bool)
      modifies this
      ensures (State(), ok) == TryTake(config, old(State()), now, count)
    {
      RefillTo(now);
      if tokens < count { return false; }
      tokens := tokens - count;
      ok := true;
    }

    /** None stands for an infinite wait. */
    method WaitMs(now: int, count: real) returns (ms: Option<int>)
      modifies this
      ensures State() == Refill(config, old(State()), now)
      ensures ms == WaitAnswer(config, tokens, count)
    {
      RefillTo(now);
      if tokens >= count { return Some(0); }
      if config.refillPerSecond == 0.0 { return None; }
      var deficit := count - tokens;
      ms := Some(Ceiling(deficit / config.refillPerSecond * 1000.0));
    }

    method Sync(remaining: real)
      modifies this
      ensures State() == SyncFromHeader(old(State()), remaining)
      ensures lastRefill == old(lastRefill)
      ensures tokens == if old(tokens) <= remaining then old(tokens) else if remaining >= 0.0 then remaining
                        else if old(tokens) <= 0.0 then old(tokens) else 0.0
    {
      tokens := MinReal(tokens, MaxReal(0.0, remaining));
    }
  }

  // ------------------------------------------------------------------- runs

  datatype BucketOp = TakeOp(now: int, count: real) | WaitOp(now: int, count: real) | SyncOp(remaining: real)

  function StepBucket(cfg: BucketConfig, b: Bucket, op: BucketOp): Bucket {
    match op
    case TakeOp(now, count) => TryTake(cfg, b, now, count).0
    case WaitOp(now, _) => Refill(cfg, b, now)
    case SyncOp(remaining) => SyncFromHeader(b, remaining)
  }

  function RunBucket(cfg: BucketConfig, b: Bucket, ops: seq<BucketOp>): Bucket
    decreases |ops|
  {
    if ops == [] then b else RunBucket(cfg, StepBucket(cfg, b, ops[0]), ops[1..])
  }

  function GrantedBy(cfg: BucketConfig, b: Bucket, op: BucketOp): real {
    if op.TakeOp? && TryTake(cfg, b, op.now, op.count).1 then op.count else 0.0
  }

  /** Tokens granted along a run. */
  function Granted(cfg: BucketConfig, b: Bucket, ops: seq<BucketOp>): real
    decreases |ops|
  {
    if ops == [] then 0.0 else GrantedBy(cfg, b, ops[0]) + Granted(cfg, StepBucket(cfg, b, ops[0]), ops[1..])
  }

  predicate SaneConfig(cfg: BucketConfig) {
    cfg.refillPerSecond > 0.0 && cfg.capacity >= 0.0
  }

  /** Times never go back, start no earlier than `from`, and takes ask for no negative count. */
  predicate Forward(from: int, ops: seq<BucketOp>)
    decreases |ops|
  {
    ops == []
    || (match ops[0]
        case TakeOp(now, count) => now >= from && count >= 0.0 && Forward(now, ops[1..])
        case WaitOp(now, _) => now >= from && Forward(now, ops[1..])
        case SyncOp(_) => Forward(from, ops[1..]))
  }

  predicate Within(ops: seq<BucketOp>, lo: int, hi: int) {
    forall i :: 0 <= i < |ops| && !ops[i].SyncOp? ==> lo <= ops[i].now <= hi
  }

  lemma EarnedAdds(cfg: BucketConfig, a: int, b: int)
    ensures Earned(cfg, a + b) == Earned(cfg, a) + Earned(cfg, b)
  {
    var x, y, r := a as real / 1000.0, b as real / 1000.0, cfg.refillPerSecond;
    assert (a + b) as real / 1000.0 == x + y;
    assert (x + y) * r == x * r + y * r;
  }

  lemma EarnedGrows(cfg: BucketConfig, a: int, b: int)
    requires cfg.refillPerSecond > 0.0 && a <= b
    ensures Earned(cfg, a) <= Earned(cfg, b)
    ensures a >= 0 ==> Earned(cfg, a) >= 0.0
  {
    EarnedAdds(cfg, a, b - a);
    assert (b - a) as real / 1000.0 * cfg.refillPerSecond >= 0.0;
    if a >= 0 { assert a as real / 1000.0 * cfg.refillPerSecond >= 0.0; }
  }

  /** From a state of known tokens, no run grants more than those plus what time earns. */
  lemma {:induction false} GrantedFromTokens(cfg: BucketConfig, b: Bucket, ops: seq<BucketOp>, hi: int)
    requires SaneConfig(cfg) && Forward(b.lastRefill, ops) && Within(ops, b.lastRefill, hi) && b.lastRefill <= hi
    requires 0.0 <= b.tokens <= cfg.capacity
    ensures Granted(cfg, b, ops) <= b.tokens + Earned(cfg, hi - b.lastRefill)
    decreases |ops|
  {
    hide Earned;
    EarnedGrows(cfg, 0, hi - b.lastRefill);
    EarnedAdds(cfg, 0, 0);
    if ops != [] {
      var b1, rest := StepBucket(cfg, b, ops[0]), ops[1..];
      assert forall i :: 0 <= i < |rest| ==> rest[i] == ops[i + 1];
      if !ops[0].SyncOp? {
        var now := ops[0].now;
        EarnedAdds(cfg, now - b.lastRefill, hi - now);
        EarnedGrows(cfg, 0, now - b.lastRefill);
        ForwardStays(now, rest);
      } else {
        ForwardStays(b.lastRefill, rest);
      }
      GrantedFromTokens(cfg, b1, rest, hi);
    }
  }

  lemma {:induction false} ForwardStays(from: int, ops: seq<BucketOp>)
    requires Forward(from, ops)
    ensures forall i :: 0 <= i < |ops| && !ops[i].SyncOp? ==> ops[i].now >= from
    decreases |ops|
  {
    if ops != [] {
      var rest := ops[1..];
      ForwardStays(if ops[0].SyncOp? then from else ops[0].now, rest);
      assert forall i :: 1 <= i < |ops| ==> ops[i] == rest[i - 1];
    }
  }

  /** In any stretch of a run whose calls fall in [lo, hi], no more than the capacity plus what
      the interval earns is granted, whatever the calls and header syncs. */
  lemma {:induction false} GrantedInWindow(cfg: BucketConfig, b: Bucket, ops: seq<BucketOp>, lo: int, hi: int)
    requires SaneConfig(cfg) && Forward(b.lastRefill, ops) && Within(ops, lo, hi) && lo <= hi
    requires 0.0 <= b.tokens <= cfg.capacity
    ensures Granted(cfg, b, ops) <= cfg.capacity + Earned(cfg, hi - lo)
    decreases |ops|
  {
    hide Earned;
    EarnedGrows(cfg, 0, hi - lo);
    EarnedAdds(cfg, 0, 0);
    if ops != [] {
      var b1, rest := StepBucket(cfg, b, ops[0]), ops[1..];
      assert forall i :: 0 <= i < |rest| ==> rest[i] == ops[i + 1];
      if ops[0].SyncOp? {
        GrantedInWindow(cfg, b1, rest, lo, hi);
      } else {
        var now := ops[0].now;
        EarnedGrows(cfg, 0, now - b.lastRefill);
        EarnedGrows(cfg, hi - now, hi - lo);
        ForwardStays(now, rest);
        GrantedFromTokens(cfg, b1, rest, hi);
      }
    }
  }

  lemma {:induction false} TokensStayInRange(cfg: BucketConfig, b: Bucket, ops: seq<BucketOp>)
    requires SaneConfig(cfg) && Forward(b.lastRefill, ops) && 0.0 <= b.tokens <= cfg.capacity
    ensures 0.0 <= RunBucket(cfg, b, ops).tokens <= cfg.capacity
    decreases |ops|
  {
    hide Earned;
    if ops != [] {
      if !ops[0].SyncOp? { EarnedGrows(cfg, 0, ops[0].now - b.lastRefill); EarnedAdds(cfg, 0, 0); }
      TokensStayInRange(cfg, StepBucket(cfg, b, ops[0]), ops[1..]);
    }
  }

  /** Hence in every run of a new bucket: over any interval, whatever happened before it. */
  lemma WindowBound(cfg: BucketConfig, start: int, before: seq<BucketOp>, during: seq<BucketOp>, lo: int, hi: int)
    requires SaneConfig(cfg) && Forward(start, before + during) && Within(during, lo, hi) && lo <= hi
    ensures Granted(cfg, RunBucket(cfg, Bucket(cfg.capacity, start), before), during)
            <= cfg.capacity + (hi - lo) as real / 1000.0 * cfg.refillPerSecond
  {
    hide Forward, Granted, RunBucket;
    var b := Bucket(cfg.capacity, start);
    ForwardSplits(cfg, b, before, during);
    TokensStayInRange(cfg, b, before);
    GrantedInWindow(cfg, RunBucket(cfg, b, before), during, lo, hi);
  }

  lemma {:induction false} ForwardSplits(cfg: BucketConfig, b: Bucket, before: seq<BucketOp>, during: seq<BucketOp>)
    requires Forward(b.lastRefill, before + during)
    ensures Forward(b.lastRefill, before)
    ensures Forward(RunBucket(cfg, b, before).lastRefill, during)
    decreases |before|
  {
    if before == [] {
      assert before + during == during;
    } else {
      assert (before + during)[1..] == before[1..] + during;
      ForwardSplits(cfg, StepBucket(cfg, b, before[0]), before[1..], during);
    }
  }

  // ---------------------------------------------------------------- waiting

  /** Refilling twice is refilling once, at the later time. */
  lemma RefillTwice(cfg: BucketConfig, b: Bucket, t: int, u: int)
    requires cfg.refillPerSecond > 0.0 && b.lastRefill <= t <= u
    ensures Refill(cfg, Refill(cfg, b, t), u) == Refill(cfg, b, u)
  {
    EarnedAdds(cfg, t - b.lastRefill, u - t);
    EarnedGrows(cfg, 0, t - b.lastRefill);
    EarnedGrows(cfg, 0, u - t);
  }

  /** waitMs is the least whole number of milliseconds after which a take of `count` succeeds,
      for any count the bucket can hold; a larger count never succeeds. */
  lemma WaitIsLeast(cfg: BucketConfig, b: Bucket, now: int, count: real, k: nat)
    requires SaneConfig(cfg)
    ensures var b1 := Refill(cfg, b, now);
            var w := WaitFor(cfg, b1.tokens, count);
            && w >= 0
            && (count <= cfg.capacity ==> (TryTake(cfg, b1, now + k, count).1 <==> k >= w))
            && (count > cfg.capacity ==> !TryTake(cfg, b1, now + k, count).1)
  {
    var b1 := Refill(cfg, b, now);
    hide Refill;
    assert TryTake(cfg, b1, now + k, count).1 <==> MinReal(cfg.capacity, b1.tokens + Earned(cfg, k)) >= count by {
      RefillLater(cfg, b1, now, k, b);
    }
    hide TryTake;
    if b1.tokens >= count {
      EarnedGrows(cfg, 0, k);
    } else {
      EnoughEarned(cfg, count - b1.tokens, k);
    }
  }

  /** An infinite wait is the truth: without refill no later take of that count succeeds. */
  lemma InfiniteWaitNeverEnds(cfg: BucketConfig, b: Bucket, now: int, count: real, k: nat)
    requires cfg.refillPerSecond == 0.0
    ensures var b1 := Refill(cfg, b, now);
            WaitAnswer(cfg, b1.tokens, count).None? <==> b1.tokens < count
    ensures var b1 := Refill(cfg, b, now);
            b1.tokens < count ==> !TryTake(cfg, b1, now + k, count).1
  {
    var b1 := Refill(cfg, b, now);
    NothingEarned(cfg, if now + k > b1.lastRefill then now + k - b1.lastRefill else 0);
  }

  lemma NothingEarned(cfg: BucketConfig, elapsedMs: int)
    requires cfg.refillPerSecond == 0.0
    ensures Earned(cfg, elapsedMs) == 0.0
  {
    var x := elapsedMs as real / 1000.0;
    assert x * 0.0 == 0.0;
  }

  lemma RefillLater(cfg: BucketConfig, b1: Bucket, now: int, k: nat, b: Bucket)
    requires b1 == Refill(cfg, b, now)
    ensures Refill(cfg, b1, now + k).tokens == MinReal(cfg.capacity, b1.tokens + Earned(cfg, k))
  {}

  /** k milliseconds earn a deficit exactly when k reaches the rounded-up quotient. */
  lemma EnoughEarned(cfg: BucketConfig, deficit: real, k: nat)
    requires cfg.refillPerSecond > 0.0 && deficit > 0.0
    ensures Ceiling(deficit / cfg.refillPerSecond * 1000.0) >= 0
    ensures Earned(cfg, k) >= deficit <==> k >= Ceiling(deficit / cfg.refillPerSecond * 1000.0)
  {
    var r := cfg.refillPerSecond;
    var seconds := deficit / r;
    assert seconds * r == deficit;
    var s := k as real / 1000.0;
    if s >= seconds { assert (s - seconds) * r >= 0.0; } else { assert (seconds - s) * r > 0.0; }
    assert s >= seconds <==> k as real >= seconds * 1000.0;
    CeilIsLeast(seconds * 1000.0, k);
  }

  lemma CeilIsLeast(x: real, k: int)
    ensures k as real >= x <==> k >= Ceiling(x)
  {}

  /** The answers a run gives, take by take and wait by wait. */
  datatype Answer = Took(ok: bool) | Wait(ms: int)

  function Answers(cfg: BucketConfig, b: Bucket, ops: seq<BucketOp>): seq<Answer>
    requires cfg.refillPerSecond > 0.0
    decreases |ops|
  {
    if ops == [] then []
    else
      var rest := Answers(cfg, StepBucket(cfg, b, ops[0]), ops[1..]);
      match ops[0]
      case TakeOp(now, count) => [Took(TryTake(cfg, b, now, count).1)] + rest
      case WaitOp(now, count) => [Wait(WaitFor(cfg, Refill(cfg, b, now).tokens, count))] + rest
      case SyncOp(_) => rest
  }

  /** Asking how long to wait changes no later answer, as long as no header sync comes next. */
  lemma WaitsAreInvisible(cfg: BucketConfig, b: Bucket, now: int, count: real, later: seq<BucketOp>)
    requires SaneConfig(cfg) && Forward(b.lastRefill, [WaitOp(now, count)] + later)
    requires !SyncFirst(later)
    ensures Answers(cfg, StepBucket(cfg, b, WaitOp(now, count)), later) == Answers(cfg, b, later)
  {
    assert ([WaitOp(now, count)] + later)[1..] == later;
    if later != [] { RefillTwice(cfg, b, now, later[0].now); }
  }

  predicate SyncFirst(ops: seq<BucketOp>) {
    ops != [] && ops[0].SyncOp?
  }

  /** Syncs in a row are one sync to the smallest count. */
  /** A take either gets its whole count, if the bucket then holds it, or costs nothing: it is as if the caller had
      only asked how long to wait. */
  lemma TakesAllOrNothing(cfg: BucketConfig, b: Bucket, now: int, count: real)
    ensures var held, (b', ok) := Refill(cfg, b, now).tokens, TryTake(cfg, b, now, count);
            && (ok <==> held >= count) && b'.lastRefill == now
            && b'.tokens == if held >= count then held - count else held
    ensures !TryTake(cfg, b, now, count).1
            ==> StepBucket(cfg, b, TakeOp(now, count)) == StepBucket(cfg, b, WaitOp(now, count))
  {}

  /** Refilled, a bucket holds what it held and what it earned since, up to its capacity; time that runs backwards
      earns nothing. */
  lemma RefillEarns(cfg: BucketConfig, b: Bucket, now: int)
    ensures var r := Refill(cfg, b, now);
            var earned := (if now > b.lastRefill then now - b.lastRefill else 0) as real * cfg.refillPerSecond / 1000.0;
            && r.lastRefill == now
            && r.tokens == if b.tokens + earned <= cfg.capacity then b.tokens + earned else cfg.capacity
  {
    var elapsed := (if now > b.lastRefill then now - b.lastRefill else 0) as real;
    assert elapsed / 1000.0 * cfg.refillPerSecond == elapsed * cfg.refillPerSecond / 1000.0;
  }

  lemma SyncsCollapse(b: Bucket, r: real, r': real)
    ensures SyncFromHeader(SyncFromHeader(b, r), r') == SyncFromHeader(b, MinReal(r, r'))
  {}

  /** From here on the two buckets answer alike, whatever is asked at `now` or later. */
  ghost predicate AnswerAlike(cfg: BucketConfig, b: Bucket, b': Bucket, now: int)
    requires cfg.refillPerSecond > 0.0
  {
    forall later: seq<BucketOp> :: Forward(now, later) && !SyncFirst(later)
        ==> Answers(cfg, b, later) == Answers(cfg, b', later)
  }

  /** The refill a wait performs before a sync to `r` leaves no trace: no time had passed, or the
      sync does not bite, or there was nothing to hold. */
  predicate SyncHidesWait(cfg: BucketConfig, b: Bucket, now: int, r: real) {
    var refilled := Refill(cfg, b, now).tokens;
    now == b.lastRefill || r >= refilled || refilled == 0.0
  }

  /** With a sync next, the wait stays invisible exactly when the sync hides it. */
  lemma WaitBeforeSyncIff(cfg: BucketConfig, b: Bucket, now: int, r: real)
    requires SaneConfig(cfg) && 0.0 <= b.tokens <= cfg.capacity && b.lastRefill <= now
    ensures AnswerAlike(cfg, SyncFromHeader(Refill(cfg, b, now), r), SyncFromHeader(b, r), now)
            <==> SyncHidesWait(cfg, b, now, r)
  {
    var waited, plain := SyncFromHeader(Refill(cfg, b, now), r), SyncFromHeader(b, r);
    EarnedGrows(cfg, 0, now - b.lastRefill);
    if SyncHidesWait(cfg, b, now, r) {
      HiddenWait(cfg, b, now, r);
    } else {
      var count := Refill(cfg, plain, now).tokens;
      SeenWait(cfg, b, now, r);
      var later := [TakeOp(now, count)];
      assert later[1..] == [] && !SyncFirst(later);
      assert count >= 0.0;
      assert Forward(now, later);
      assert Answers(cfg, waited, later) == [Took(false)] + [] && Answers(cfg, plain, later) == [Took(true)] + [];
      assert Answers(cfg, waited, later)[0] != Answers(cfg, plain, later)[0];
    }
  }

  lemma HiddenWait(cfg: BucketConfig, b: Bucket, now: int, r: real)
    requires SaneConfig(cfg) && 0.0 <= b.tokens <= cfg.capacity && b.lastRefill <= now && SyncHidesWait(cfg, b, now, r)
    ensures AnswerAlike(cfg, SyncFromHeader(Refill(cfg, b, now), r), SyncFromHeader(b, r), now)
  {
    var waited, plain := SyncFromHeader(Refill(cfg, b, now), r), SyncFromHeader(b, r);
    EarnedAdds(cfg, 0, 0);
    if now > b.lastRefill { EarnedSome(cfg, now - b.lastRefill); }
    assert waited == Refill(cfg, plain, now);
    forall later: seq<BucketOp> | Forward(now, later) && !SyncFirst(later)
      ensures Answers(cfg, waited, later) == Answers(cfg, plain, later)
    {
      if later != [] { RefillTwice(cfg, plain, now, later[0].now); }
    }
  }

  lemma EarnedSome(cfg: BucketConfig, elapsedMs: int)
    requires cfg.refillPerSecond > 0.0 && elapsedMs > 0
    ensures Earned(cfg, elapsedMs) > 0.0
  {
    var x, r := elapsedMs as real / 1000.0, cfg.refillPerSecond;
    assert x > 0.0;
    assert x * r > 0.0;
  }

  lemma SeenWait(cfg: BucketConfig, b: Bucket, now: int, r: real)
    requires SaneConfig(cfg) && 0.0 <= b.tokens <= cfg.capacity && b.lastRefill <= now && !SyncHidesWait(cfg, b, now, r)
    ensures var waited, plain := SyncFromHeader(Refill(cfg, b, now), r), SyncFromHeader(b, r);
            && Refill(cfg, waited, now) == waited
            && 0.0 <= waited.tokens < Refill(cfg, plain, now).tokens
  {
    hide Earned;
    EarnedAdds(cfg, 0, 0);
    EarnedSome(cfg, now - b.lastRefill);
  }

  /** Concretely: the wait has already turned elapsed time into tokens, which the sync takes away. */
  lemma WaitBeforeSyncCounterexample()
    ensures var cfg, b := BucketConfig(10.0, 10.0), Bucket(0.0, 0);
            var later := [SyncOp(0.0), TakeOp(1000, 1.0)];
            && Answers(cfg, b, later) == [Took(true)]
            && Answers(cfg, StepBucket(cfg, b, WaitOp(1000, 1.0)), later) == [Took(false)]
  {
    var cfg, b := BucketConfig(10.0, 10.0), Bucket(0.0, 0);
    var sync, take := SyncOp(0.0), TakeOp(1000, 1.0);
    assert [sync, take][1..] == [take] && [take][1..] == [];
    assert Earned(cfg, 1000) == 10.0 && Earned(cfg, 0) == 0.0;
    assert Answers(cfg, Bucket(0.0, 0), [take]) == [Took(true)] + [];
    assert Answers(cfg, Bucket(0.0, 1000), [take]) == [Took(false)] + [];
  }
}

/** Incremental rolling features, and the windows of values they stand for. */
module Features {
  import opened Results

  // ------------------------------------------------------------ windows

  /** The last n values, or all of them when there are fewer. */
  function LastN(values: seq<real>, n: nat): seq<real> {
    if |values| <= n then values else values[|values| - n..]
  }

  function Sum(values: seq<real>): real {
    if values == [] then 0.0 else Sum(values[..|values| - 1]) + values[|values| - 1]
  }

  lemma {:induction false} SumPrepend(x: real, values: seq<real>)
    ensures Sum([x] + values) == x + Sum(values)
  {
    var all := [x] + values;
    if values == [] {
      assert all[..0] == [];
    } else {
      SumPrepend(x, values[..|values| - 1]);
      assert all[..|all| - 1] == [x] + values[..|values| - 1];
    }
  }

  /** Feeding one more value to a window: the oldest falls out once the window is full. */
  lemma LastNStep(values: seq<real>, n: nat, x: real)
    requires n > 0
    ensures var w := LastN(values, n);
            |w| <= n && LastN(values + [x], n) == (if |w| < n then w else w[1..]) + [x]
  {}

  lemma SumStep(w: seq<real>, x: real)
    ensures Sum(w + [x]) == Sum(w) + x
    ensures w != [] ==> Sum(w[1..] + [x]) == Sum(w) - w[0] + x
  {
    assert (w + [x])[..|w|] == w;
    if w != [] {
      assert w == [w[0]] + w[1..];
      SumPrepend(w[0], w[1..]);
      assert (w[1..] + [x])[..|w| - 1] == w[1..];
    }
  }

  // -------------------------------------------------------- the ring buffer

  lemma Wrap(i: nat, n: nat)
    requires i < n
    ensures (i + 1) % n == (if i + 1 == n then 0 else i + 1) && (i + n) % n == i && i % n == i
  {
    SmallRemainder(i, n);
    if i + 1 < n { SmallRemainder(i + 1, n); } else { OneTurn(0, n); }
    OneTurn(i, n);
  }

  lemma SmallRemainder(i: nat, n: nat)
    requires i < n
    ensures i % n == i
  {}

  lemma OneTurn(i: nat, n: nat)
    requires i < n
    ensures (i + n) % n == i
  {
    var q := (i + n) / n;
    assert i + n == q * n + (i + n) % n;
  }

  class RingBuffer {
    const capacity: nat
    const data: array<real>
    var head: nat
    var count: nat

    ghost predicate Valid()
      reads this, data
    {
      && capacity > 0 && data.Length == capacity
      && head < capacity && count <= capacity
      && (count < capacity ==> head == count)
    }

    /** The retained values, oldest first. */
    ghost function Contents(): seq<real>
      requires Valid()
      reads this, data
    {
      if count < capacity then data[..count] else data[head..] + data[..head]
    }

    constructor (capacity: nat)
      requires capacity > 0
      ensures Valid() && fresh(data) && this.capacity == capacity && Contents() == []
    {
      this.capacity := capacity;
      data := new real[capacity];
      head, count := 0, 0;
    }

    method Push(value: real) returns (evicted: Option<real>)
      requires Valid()
      modifies this, data
      ensures Valid()
      ensures Contents() == (if |old(Contents())| < capacity then old(Contents()) else old(Contents())[1..]) + [value]
      ensures count == |Contents()|
      ensures evicted == if |old(Contents())| == capacity then Some(old(Contents())[0]) else None
    {
      ghost var before := Contents();
      evicted := if count == capacity then Some(data[head]) else None;
      data[head] := value;
      Wrap(head, capacity);
      ghost var slot := head;
      head := (head + 1) % capacity;
      if count < capacity {
        count := count + 1;
        assert data[..count] == before + [value];
        if count == capacity { assert data[0..] + data[..0] == data[..count]; }
      } else {
        assert Contents() == before[1..] + [value] by {
          if head == 0 {
            assert data[0..] + data[..0] == data[..slot] + [value];
          } else {
            assert data[..head] == data[..slot] + [value];
          }
        }
      }
    }

    method Last() returns (value: Option<real>)
      requires Valid()
      ensures value == if Contents() == [] then None else Some(Contents()[|Contents()| - 1])
    {
      if count == 0 { return None; }
      Wrap(if head == 0 then capacity - 1 else head - 1, capacity);
      value := Some(data[(head - 1 + capacity) % capacity]);
    }

    method At(i: int) returns (value: Option<real>)
      requires Valid()
      ensures value == if 0 <= i < |Contents()| then Some(Contents()[i]) else None
    {
      if i < 0 || i >= count { return None; }
      var start := (head - count + capacity) % capacity;
      assert start == if count < capacity then 0 else head by {
        Wrap(head, capacity);
        Wrap(0, capacity);
      }
      assert (start + i) % capacity == if start + i < capacity then start + i else start + i - capacity by {
        if start + i < capacity { Wrap(start + i, capacity); } else { Wrap(start + i - capacity, capacity); }
      }
      value := Some(data[(start + i) % capacity]);
    }

    method Clear()
      requires Valid()
      modifies this
      ensures Valid() && Contents() == []
    {
      head, count := 0, 0;
    }
  }

  // ----------------------------------------------------------- rolling mean

  /** Mean of the last `period` values once there are that many. */
  function MeanOutput(values: seq<real>, period: nat): Option<real>
    requires period > 0
  {
    if |values| < period then None else Some(Sum(LastN(values, period)) / period as real)
  }

  class RollingMean {
    const period: nat
    const buffer: RingBuffer
    var sum: real
    ghost var fed: seq<real>

    ghost predicate Valid()
      reads this, buffer, buffer.data
    {
      && buffer.Valid() && buffer.capacity == period > 0
      && buffer.Contents() == LastN(fed, period)
      && sum == Sum(buffer.Contents())
    }

    constructor (period: nat)
      requires period > 0
      ensures Valid() && fed == [] && this.period == period && fresh(buffer) && fresh(buffer.data)
    {
      this.period := period;
      buffer := new RingBuffer(period);
      sum, fed := 0.0, [];
    }

    method Update(value: real) returns (r: Option<real>)
      requires Valid()
      modifies this, buffer, buffer.data
      ensures Valid() && fed == old(fed) + [value]
      ensures r == MeanOutput(fed, period)
    {
      hide Sum;
      ghost var w := buffer.Contents();
      var evicted := buffer.Push(value);
      LastNStep(fed, period, value);
      SumStep(w, value);
      sum := sum + value;
      if evicted.Some? { sum := sum - evicted.value; }
      fed := fed + [value];
      r := if buffer.count == period then Some(sum / buffer.count as real) else None;
    }

    method Reset()
      requires Valid()
      modifies this, buffer
      ensures Valid() && fed == []
    {
      buffer.Clear();
      sum, fed := 0.0, [];
    }
  }

  // -------------------------------------------------------------------- ema

  function Smoothing(period: nat): real {
    2.0 / (period as real + 1.0)
  }

  function Blend(value: real, previous: real, k: real): real {
    value * k + previous * (1.0 - k)
  }

  /** The average seeded with the mean of the first `period` values. */
  function EmaOutput(values: seq<real>, period: nat): (r: Option<real>)
    requires period > 0
    ensures r.Some? <==> |values| >= period
  {
    if |values| < period then None
    else if |values| == period then Some(Sum(values) / period as real)
    else
      var n := |values| - 1;
      Some(Blend(values[n], EmaOutput(values[..n], period).value, Smoothing(period)))
  }

  /** One more value: still warming up, just seeded, or blended. */
  lemma EmaStep(values: seq<real>, period: nat, x: real)
    requires period > 0
    ensures EmaOutput(values + [x], period)
            == if |values| < period then MeanOutput(values + [x], period)
               else Some(Blend(x, EmaOutput(values, period).value, Smoothing(period)))
  {
    assert (values + [x])[..|values|] == values;
  }

  // ---------------------------------------------- the average written out

  function Power(r: real, j: nat): real {
    if j == 0 then 1.0 else r * Power(r, j - 1)
  }

  /** What the value fed j steps ago contributes. */
  function Share(k: real, j: nat, x: real): real {
    k * Power(1.0 - k, j) * x
  }

  /** The last m values, each with its weight. */
  function WeightedSum(values: seq<real>, k: real, m: nat): real
    requires m <= |values|
  {
    if m == 0 then 0.0 else WeightedSum(values, k, m - 1) + Share(k, m - 1, values[|values| - m])
  }

  function Scaled(r: real, x: real): real {
    r * x
  }

  lemma ShareStep(k: real, j: nat, x: real)
    ensures Share(k, 0, x) == k * x && Share(k, j + 1, x) == Scaled(1.0 - k, Share(k, j, x))
  {
    var r, p := 1.0 - k, Power(1.0 - k, j);
    assert k * (r * p) * x == r * (k * p * x);
  }

  lemma ScaledAdds(r: real, x: real, y: real)
    ensures Scaled(r, x + y) == Scaled(r, x) + Scaled(r, y) && Scaled(r, 0.0) == 0.0
  {}

  /** Going back one value scales every weight. */
  lemma {:induction false} WeightedSumStep(values: seq<real>, k: real, m: nat)
    requires 1 <= m <= |values|
    ensures WeightedSum(values, k, m)
            == k * values[|values| - 1] + Scaled(1.0 - k, WeightedSum(values[..|values| - 1], k, m - 1))
  {
    var n, r := |values|, 1.0 - k;
    var front := values[..n - 1];
    ShareStep(k, 0, values[n - 1]);
    ScaledAdds(r, 0.0, 0.0);
    if m > 1 {
      WeightedSumStep(values, k, m - 1);
      ShareStep(k, m - 2, values[n - m]);
      ScaledAdds(r, WeightedSum(front, k, m - 2), Share(k, m - 2, values[n - m]));
    }
    hide Share, Scaled;
  }

  function Seed(first: seq<real>): real
    requires first != []
  {
    Sum(first) / |first| as real
  }

  /** The average is the seed and every value since, each weighted k(1 - k)^j by its age j, with
      k = 2 / (period + 1) and the seed weighted by what is left over. */
  lemma {:induction false} EmaIsWeighted(values: seq<real>, period: nat)
    requires period > 0 && |values| >= period
    ensures var k, m := 2.0 / (period + 1) as real, |values| - period;
            EmaOutput(values, period).value
            == Scaled(Power(1.0 - k, m), Seed(values[..period])) + WeightedSum(values, k, m)
  {
    var k, m := 2.0 / (period + 1) as real, |values| - period;
    if m == 0 {
      assert values[..period] == values;
    } else {
      EmaOneBack(values, period, k);
      hide EmaOutput, WeightedSum, Seed, Scaled, Power;
      var front := values[..|values| - 1];
      EmaIsWeighted(front, period);
      assert front[..period] == values[..period];
      WeightedSumStep(values, k, m);
      PowerStep(1.0 - k, m - 1, Seed(values[..period]));
      OneOlder(1.0 - k, k * values[|values| - 1], Scaled(Power(1.0 - k, m - 1), Seed(values[..period])),
               WeightedSum(front, k, m - 1));
    }
  }

  lemma PowerStep(r: real, j: nat, x: real)
    ensures Scaled(r, Scaled(Power(r, j), x)) == Scaled(Power(r, j + 1), x)
  {
    hide Scaled;
    ScaledProduct(r, Power(r, j), Power(r, j + 1), x);
  }

  lemma ScaledProduct(r: real, p: real, q: real, x: real)
    requires q == r * p
    ensures Scaled(r, Scaled(p, x)) == Scaled(q, x)
  {
    assert r * (p * x) == (r * p) * x;
  }

  lemma OneOlder(r: real, newest: real, seed: real, rest: real)
    ensures newest + Scaled(r, seed + rest) == Scaled(r, seed) + (newest + Scaled(r, rest))
  {
    ScaledAdds(r, seed, rest);
    hide Scaled;
  }

  lemma EmaOneBack(values: seq<real>, period: nat, k: real)
    requires period > 0 && |values| > period && k == 2.0 / (period + 1) as real
    ensures EmaOutput(values, period).value
            == k * values[|values| - 1] + Scaled(1.0 - k, EmaOutput(values[..|values| - 1], period).value)
  {
    assert (period + 1) as real == period as real + 1.0;
  }

  /** The weights, the seed's included, add up to one. */
  lemma {:induction false} WeightsAddUp(k: real, m: nat)
    ensures Power(1.0 - k, m) + WeightedSum(seq(m, i => 1.0), k, m) == 1.0
  {
    var ones := seq(m, i => 1.0);
    if m > 0 {
      WeightsAddUp(k, m - 1);
      assert ones[..m - 1] == seq(m - 1, i => 1.0);
      WeightedSumStep(ones, k, m);
      ScaledAdds(1.0 - k, Power(1.0 - k, m - 1), WeightedSum(ones[..m - 1], k, m - 1));
      hide WeightedSum;
    }
  }

  class Ema {
    const period: nat
    const k: real
    const seed: RollingMean
    var current: Option<real>
    ghost var fed: seq<real>

    ghost predicate Valid()
      reads this, seed, seed.buffer, seed.buffer.data
    {
      && seed.Valid() && seed.period == period && k == Smoothing(period)
      && current == EmaOutput(fed, period)
      && (current.None? ==> seed.fed == fed)
    }

    constructor (period: nat)
      requires period > 0
      ensures Valid() && fed == [] && this.period == period
      ensures fresh(seed) && fresh(seed.buffer) && fresh(seed.buffer.data)
    {
      this.period := period;
      k := 2.0 / (period as real + 1.0);
      seed := new RollingMean(period);
      current, fed := None, [];
      new;
      assert EmaOutput([], period) == None;
    }

    method Update(value: real) returns (r: Option<real>)
      requires Valid()
      modifies this, seed, seed.buffer, seed.buffer.data
      ensures Valid() && fed == old(fed) + [value]
      ensures r == EmaOutput(fed, period)
    {
      EmaStep(fed, period, value);
      hide Sum, EmaOutput, Blend, Smoothing;
      fed := fed + [value];
      if current.None? {
        var seeded := seed.Update(value);
        current := seeded;
        return current;
      }
      current := Some(Blend(value, current.value, k));
      r := current;
    }

    method Reset()
      requires Valid()
      modifies this, seed, seed.buffer
      ensures Valid() && fed == []
    {
      seed.Reset();
      current, fed := None, [];
      assert EmaOutput([], period) == None;
    }
  }

  // --------------------------------------------------------------- variance

  function Sq(x: real): (s: real)
    ensures s >= 0.0
  {
    x * x
  }

  /** Sum of squared deviations from mu. */
  function Deviations(values: seq<real>, mu: real): real {
    if values == [] then 0.0 else Deviations(values[..|values| - 1], mu) + Sq(values[|values| - 1] - mu)
  }

  function SumSquares(values: seq<real>): real {
    if values == [] then 0.0 else SumSquares(values[..|values| - 1]) + Sq(values[|values| - 1])
  }

  /** squares - 2 mu s + n mu^2 */
  function Expanded(squares: real, s: real, n: real, mu: real): real {
    squares - 2.0 * mu * s + n * Sq(mu)
  }

  lemma {:induction false} DeviationsExpand(values: seq<real>, mu: real)
    ensures Deviations(values, mu) == Expanded(SumSquares(values), Sum(values), |values| as real, mu)
  {
    hide Sq, Expanded;
    if values == [] {
      ExpandedNothing(mu);
    } else {
      var front, x := values[..|values| - 1], values[|values| - 1];
      DeviationsExpand(front, mu);
      ExpandedStep(SumSquares(front), Sum(front), |front| as real, mu, x);
    }
  }

  lemma ExpandedNothing(mu: real)
    ensures Expanded(0.0, 0.0, 0.0, mu) == 0.0
  {}

  lemma ExpandedStep(squares: real, s: real, n: real, mu: real, x: real)
    ensures Expanded(squares, s, n, mu) + Sq(x - mu) == Expanded(squares + Sq(x), s + x, n + 1.0, mu)
  {}

  lemma {:induction false} SumSquaresPrepend(x: real, values: seq<real>)
    ensures SumSquares([x] + values) == Sq(x) + SumSquares(values)
  {
    hide Sq;
    var all := [x] + values;
    if values == [] {
      assert all[..0] == [];
    } else {
      SumSquaresPrepend(x, values[..|values| - 1]);
      assert all[..|all| - 1] == [x] + values[..|values| - 1];
    }
  }

  lemma SumSquaresStep(w: seq<real>, x: real)
    ensures SumSquares(w + [x]) == SumSquares(w) + Sq(x)
    ensures w != [] ==> SumSquares(w[1..] + [x]) == SumSquares(w) - Sq(w[0]) + Sq(x)
  {
    hide Sq;
    assert (w + [x])[..|w|] == w;
    if w != [] {
      assert w == [w[0]] + w[1..];
      SumSquaresPrepend(w[0], w[1..]);
      assert (w[1..] + [x])[..|w| - 1] == w[1..];
    }
  }

  lemma {:induction false} NoNegativeDeviations(values: seq<real>, mu: real)
    ensures Deviations(values, mu) >= 0.0
  {
    hide Sq;
    if values != [] { NoNegativeDeviations(values[..|values| - 1], mu); }
  }

  lemma NonNegativeRatio(a: real, b: real)
    requires a >= 0.0 && b > 0.0
    ensures a / b >= 0.0
  {}

  /** With the true mean, squared deviations are the squares less n times the mean squared. */
  lemma DeviationsAtMean(w: seq<real>, mu: real)
    requires mu * |w| as real == Sum(w)
    ensures Deviations(w, mu) == SumSquares(w) - |w| as real * Sq(mu)
  {
    DeviationsExpand(w, mu);
    hide Sum, SumSquares, Deviations;
    ExpandedAtMean(SumSquares(w), Sum(w), |w| as real, mu);
  }

  lemma ExpandedAtMean(squares: real, s: real, n: real, mu: real)
    requires mu * n == s
    ensures Expanded(squares, s, n, mu) == squares - n * Sq(mu)
  {
    assert 2.0 * mu * (mu * n) == 2.0 * (n * (mu * mu));
  }

  /** Welford's update of a growing window. */
  lemma WelfordGrow(w: seq<real>, mu: real, m2: real, x: real, mu': real)
    requires mu * |w| as real == Sum(w) && m2 == Deviations(w, mu)
    requires (mu' - mu) * (|w| as real + 1.0) == x - mu
    ensures mu' * (|w| as real + 1.0) == Sum(w + [x])
    ensures m2 + (x - mu) * (x - mu') == Deviations(w + [x], mu')
  {
    hide Sum, SumSquares, Deviations, Sq;
    var n := |w| as real;
    SumStep(w, x);
    SumSquaresStep(w, x);
    DeviationsAtMean(w, mu);
    assert |w + [x]| as real == n + 1.0;
    DeviationsAtMean(w + [x], mu');
    GrowSquares(mu, mu', n, x);
  }

  lemma GrowSquares(mu: real, mu': real, n: real, x: real)
    requires mu' * (n + 1.0) == mu * n + x
    ensures (x - mu) * (x - mu') == Sq(x) - (n + 1.0) * Sq(mu') + n * Sq(mu)
  {
    calc {
      (x - mu) * (x - mu');
      x * x - x * mu' - mu * x + mu * mu';
      { assert x == mu' * (n + 1.0) - mu * n; }
      x * x - (mu' * (n + 1.0) - mu * n) * mu' - mu * (mu' * (n + 1.0) - mu * n) + mu * mu';
      x * x - (n + 1.0) * (mu' * mu') + n * (mu * mu);
    }
  }

  /** The update of a full window: its oldest value leaves, x enters. */
  lemma WelfordSlide(w: seq<real>, mu: real, m2: real, x: real, mu': real)
    requires w != [] && mu * |w| as real == Sum(w) && m2 == Deviations(w, mu)
    requires (mu' - mu) * |w| as real == x - w[0]
    ensures mu' * |w| as real == Sum(w[1..] + [x])
    ensures m2 + (x - w[0]) * (x - mu' + w[0] - mu) == Deviations(w[1..] + [x], mu')
  {
    hide Sum, SumSquares, Deviations, Sq;
    var n, out := |w| as real, w[0];
    SumStep(w, x);
    SumSquaresStep(w, x);
    DeviationsAtMean(w, mu);
    assert |w[1..] + [x]| == |w|;
    DeviationsAtMean(w[1..] + [x], mu');
    SlideSquares(mu, mu', n, x, out);
  }

  lemma SlideSquares(mu: real, mu': real, n: real, x: real, out: real)
    requires mu' * n == mu * n + (x - out)
    ensures (x - out) * (x - mu' + out - mu) == Sq(x) - Sq(out) - n * Sq(mu') + n * Sq(mu)
  {
    calc {
      (x - out) * (x - mu' + out - mu);
      (x - out) * (x + out) - (x - out) * (mu' + mu);
      { assert x - out == mu' * n - mu * n; }
      (x - out) * (x + out) - (mu' * n - mu * n) * (mu' + mu);
      x * x - out * out - n * (mu' * mu') + n * (mu * mu);
    }
  }

  /** A mean moved by a/n has moved n times by a. */
  lemma MovedMean(mu: real, a: real, n: real)
    requires n > 0.0
    ensures (mu + a / n - mu) * n == a
  {
    assert a / n * n == a;
  }

  ghost predicate IsMean(mu: real, w: seq<real>) {
    mu * |w| as real == Sum(w)
  }

  class RollingVariance {
    const period: nat
    const buffer: RingBuffer
    var mean: real
    var m2: real
    ghost var fed: seq<real>

    /** mean and m2 are those of exactly the last `period` values fed. */
    ghost predicate Valid()
      reads this, buffer, buffer.data
    {
      && buffer.Valid() && buffer.capacity == period > 0
      && buffer.Contents() == LastN(fed, period)
      && IsMean(mean, LastN(fed, period))
      && m2 == Deviations(LastN(fed, period), mean)
    }

    constructor (period: nat)
      requires period > 0
      ensures Valid() && fed == [] && this.period == period && fresh(buffer) && fresh(buffer.data)
    {
      this.period := period;
      buffer := new RingBuffer(period);
      mean, m2, fed := 0.0, 0.0, [];
    }

    method Update(value: real)
      requires Valid()
      modifies this, buffer, buffer.data
      ensures Valid() && fed == old(fed) + [value]
      ensures IsMean(mean, LastN(fed, period)) && m2 == Deviations(LastN(fed, period), mean)
    {
      hide Sum, Deviations, IsMean, LastN;
      ghost var w := LastN(fed, period);
      var evicted := buffer.Push(value);
      LastNStep(fed, period, value);
      fed := fed + [value];
      if evicted.None? {
        mean, m2 := GrowWindow(w, mean, m2, value, buffer.count);
      } else {
        mean, m2 := SlideWindow(w, mean, m2, value, evicted.value, buffer.count);
      }
    }

    static method GrowWindow(ghost w: seq<real>, mean: real, m2: real, value: real, n: nat)
      returns (mean': real, m2': real)
      requires n == |w| + 1 && IsMean(mean, w) && m2 == Deviations(w, mean)
      ensures IsMean(mean', w + [value]) && m2' == Deviations(w + [value], mean')
    {
      hide Sum, Deviations;
      var delta := value - mean;
      mean' := mean + delta / n as real;
      m2' := m2 + delta * (value - mean');
      MovedMean(mean, delta, n as real);
      WelfordGrow(w, mean, m2, value, mean');
    }

    /** The floor on m2 is in the code; the contract shows that it never changes the value. */
    static method SlideWindow(ghost w: seq<real>, mean: real, m2: real, value: real, evicted: real, n: nat)
      returns (mean': real, m2': real)
      requires n == |w| > 0 && evicted == w[0] && IsMean(mean, w) && m2 == Deviations(w, mean)
      ensures IsMean(mean', w[1..] + [value]) && m2' == Deviations(w[1..] + [value], mean')
    {
      hide Sum, Deviations;
      mean' := mean + (value - evicted) / n as real;
      m2' := m2 + (value - evicted) * (value - mean' + evicted - mean);
      MovedMean(mean, value - evicted, n as real);
      WelfordSlide(w, mean, m2, value, mean');
      NoNegativeDeviations(w[1..] + [value], mean');
      if m2' < 0.0 { m2' := 0.0; }
    }

    method Variance() returns (v: real)
      requires Valid()
      ensures var w := LastN(fed, period);
              v == if |w| < 2 then 0.0 else Deviations(w, mean) / (|w| as real - 1.0)
      ensures v >= 0.0
    {
      hide Sum, Deviations, SumSquares, Expanded;
      NoNegativeDeviations(LastN(fed, period), mean);
      if buffer.count >= 2 { NonNegativeRatio(m2, buffer.count as real - 1.0); }
      v := if buffer.count < 2 then 0.0 else m2 / (buffer.count as real - 1.0);
    }

    method Reset()
      requires Valid()
      modifies this, buffer
      ensures Valid() && fed == []
    {
      buffer.Clear();
      mean, m2, fed := 0.0, 0.0, [];
    }
  }
}

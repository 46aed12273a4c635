/** Batch indicators over a whole series, and their agreement with the incremental forms. */
module Indicators {
  import opened Results
  import opened Features

  function WindowMean(values: seq<real>, j: nat, period: nat): real
    requires period > 0 && j + period <= |values|
  {
    Sum(values[j..j + period]) / period as real
  }

  /** One mean per full window, aligned to the end of the input. */
  function SmaSeries(values: seq<real>, period: int): seq<real> {
    if period <= 0 || |values| < period then []
    else seq(|values| - period + 1, j requires 0 <= j <= |values| - period => WindowMean(values, j, period))
  }

  /** Sum of the last `period` values before position i. */
  function TailSum(values: seq<real>, i: nat, period: int): real
    requires period > 0 && i <= |values|
  {
    Sum(values[(if i < period then 0 else i - period)..i])
  }

  method Sma(values: seq<real>, period: int) returns (out: seq<real>)
    ensures out == SmaSeries(values, period)
  {
    if period <= 0 || |values| < period { return []; }
    out := [];
    var sum := 0.0;
    assert Sum([]) == 0.0 && values[0..0] == [];
    assert TailSum(values, 0, period) == 0.0;
    hide Sum, WindowMean, TailSum;
    for i := 0 to |values|
      invariant sum == TailSum(values, i, period)
      invariant |out| == if i < period then 0 else i - period + 1
      invariant forall j :: 0 <= j < |out| ==> out[j] == WindowMean(values, j, period)
    {
      RunningSum(values, period, i);
      sum := sum + values[i];
      if i >= period { sum := sum - values[i - period]; }
      if i >= period - 1 {
        out := out + [sum / period as real];
      }
    }
  }

  /** The running sum over the last `period` values, one value further. */
  lemma RunningSum(values: seq<real>, period: int, i: nat)
    requires 0 < period && i < |values|
    ensures TailSum(values, i + 1, period)
            == TailSum(values, i, period) + values[i] - (if i >= period then values[i - period] else 0.0)
  {
    hide Sum;
    var lo := if i < period then 0 else i - period;
    var w := values[lo..i];
    SumStep(w, values[i]);
    assert w + [values[i]] == values[lo..i + 1];
    if i >= period { assert w[1..] + [values[i]] == values[lo + 1..i + 1]; }
  }

  /** One average per prefix of at least `period` values. */
  function EmaSeries(values: seq<real>, period: int): seq<real> {
    if period <= 0 || |values| < period then []
    else seq(|values| - period + 1,
             j requires 0 <= j <= |values| - period => EmaOutput(values[..period + j], period).value)
  }

  method ComputeEma(values: seq<real>, period: int) returns (out: seq<real>)
    ensures out == EmaSeries(values, period)
  {
    if period <= 0 || |values| < period { return []; }
    var k := 2.0 / (period as real + 1.0);
    assert k == Smoothing(period);
    var total := SumOf(values[..period]);
    var prev := total / period as real;
    out := [prev];
    assert EmaOutput(values[..period], period) == Some(prev);
    hide EmaOutput, Blend, Smoothing, Sum;
    for i := period to |values|
      invariant EmaOutput(values[..i], period) == Some(prev)
      invariant |out| == i - period + 1
      invariant forall j :: 0 <= j < |out| ==> out[j] == EmaOutput(values[..period + j], period).value
    {
      EmaStep(values[..i], period, values[i]);
      assert values[..i] + [values[i]] == values[..i + 1];
      prev := Blend(values[i], prev, k);
      out := out + [prev];
    }
  }

  method SumOf(values: seq<real>) returns (sum: real)
    ensures sum == Sum(values)
  {
    sum := 0.0;
    for i := 0 to |values|
      invariant sum == Sum(values[..i])
    {
      SumStep(values[..i], values[i]);
      assert values[..i] + [values[i]] == values[..i + 1];
      sum := sum + values[i];
    }
    assert values[..|values|] == values;
  }

  // ------------------------------------------ incremental equals batch

  lemma OutputIsWindowMean(values: seq<real>, i: nat, period: nat)
    requires period > 0 && i < |values|
    ensures MeanOutput(values[..i + 1], period)
            == if i + 1 < period then None else Some(WindowMean(values, i + 1 - period, period))
  {
    if i + 1 >= period { assert LastN(values[..i + 1], period) == values[i + 1 - period..i + 1]; }
  }

  /** Feeding a series through RollingMean yields exactly the batch moving average. */
  method StreamMean(values: seq<real>, period: nat) returns (out: seq<real>)
    requires period > 0
    ensures out == SmaSeries(values, period)
  {
    hide Sum, LastN, MeanOutput, WindowMean;
    var mean := new RollingMean(period);
    out := [];
    for i := 0 to |values|
      invariant mean.Valid() && mean.period == period && mean.fed == values[..i]
      invariant fresh(mean) && fresh(mean.buffer) && fresh(mean.buffer.data)
      invariant |out| == if i < period then 0 else i - period + 1
      invariant forall j :: 0 <= j < |out| ==> out[j] == WindowMean(values, j, period)
    {
      var r := mean.Update(values[i]);
      assert values[..i] + [values[i]] == values[..i + 1];
      OutputIsWindowMean(values, i, period);
      if r.Some? { out := out + [r.value]; }
    }
  }

  /** Feeding a series through Ema yields exactly the batch exponential average. */
  method StreamEma(values: seq<real>, period: nat) returns (out: seq<real>)
    requires period > 0
    ensures out == EmaSeries(values, period)
  {
    hide EmaOutput, Sum, LastN, MeanOutput, Blend, Smoothing;
    var ema := new Ema(period);
    out := [];
    for i := 0 to |values|
      invariant ema.Valid() && ema.period == period && ema.fed == values[..i]
      invariant fresh(ema) && fresh(ema.seed) && fresh(ema.seed.buffer) && fresh(ema.seed.buffer.data)
      invariant |out| == if i < period then 0 else i - period + 1
      invariant forall j :: 0 <= j < |out| ==> out[j] == EmaOutput(values[..period + j], period).value
    {
      var r := ema.Update(values[i]);
      assert values[..i] + [values[i]] == values[..i + 1];
      EmaStep(values[..i + 1], period, 0.0);
      if r.Some? { out := out + [r.value]; }
    }
  }
}

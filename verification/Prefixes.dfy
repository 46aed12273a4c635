/** What holds all along a run, step by step. */
module Prefixes {
  /** A property that starts out true, and that each step keeps exactly when it is harmless, holds of
      every prefix of a run exactly when every step of it is harmless. */
  lemma {:induction false} HoldsAllAlongIff<T>(run: seq<T>, holds: seq<T> -> bool, harmless: (seq<T>, T) -> bool)
    requires holds([])
    requires forall i :: 0 <= i < |run| && holds(run[..i]) ==> (holds(run[..i + 1]) <==> harmless(run[..i], run[i]))
    ensures (forall k :: 0 <= k <= |run| ==> holds(run[..k]))
            <==> (forall i :: 0 <= i < |run| ==> harmless(run[..i], run[i]))
  {
    if forall i :: 0 <= i < |run| ==> harmless(run[..i], run[i]) {
      var k := 0;
      while k < |run|
        invariant 0 <= k <= |run|
        invariant forall j :: 0 <= j <= k ==> holds(run[..j])
      {
        assert holds(run[..k]) && harmless(run[..k], run[k]);
        k := k + 1;
      }
    } else {
      var i :| 0 <= i < |run| && !harmless(run[..i], run[i]);
      assert holds(run[..i]) ==> !holds(run[..i + 1]);
    }
  }

  /** A property that starts out true and that a step restores never and keeps exactly when it is
      harmless holds at the end of a run exactly when every step of it is harmless. */
  lemma {:induction false} HoldsAtTheEndIff<T>(run: seq<T>, holds: seq<T> -> bool, harmless: (seq<T>, T) -> bool)
    requires holds([])
    requires forall i :: 0 <= i < |run| ==> (holds(run[..i + 1]) <==> holds(run[..i]) && harmless(run[..i], run[i]))
    ensures holds(run) <==> (forall i :: 0 <= i < |run| ==> harmless(run[..i], run[i]))
  {
    HoldsAllAlongIff(run, holds, harmless);
    assert run[..|run|] == run;
    var k := |run|;
    while k > 0
      invariant 0 <= k <= |run|
      invariant holds(run) ==> forall j :: k <= j <= |run| ==> holds(run[..j])
    {
      k := k - 1;
      assert holds(run[..k + 1]) ==> holds(run[..k]);
    }
  }
}

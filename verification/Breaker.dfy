/** The circuit breaker: escalation is automatic, recovery is an explicit reset. */
module Breakers {
  import opened Results

  datatype BreakerState = NORMAL | DEGRADED | HALT

  datatype BreakerTransition = BreakerTransition(from: BreakerState, to: BreakerState, reason: string, at: int)

  datatype Breaker = Breaker(current: BreakerState, reason: Option<string>, history: seq<BreakerTransition>)

  datatype BreakerOp = EscalateOp(to: BreakerState, why: string, at: int) | ResetOp(why: string, at: int)

  const CLOSED_BREAKER := Breaker(NORMAL, None, [])

  function Severity(s: BreakerState): nat {
    match s
    case NORMAL => 0
    case DEGRADED => 1
    case HALT => 2
  }

  predicate BlocksNewRisk(s: BreakerState) {
    s != NORMAL
  }

  function Moved(b: Breaker, to: BreakerState, why: string, at: int): Breaker {
    Breaker(to, if to == NORMAL then None else Some(why), b.history + [BreakerTransition(b.current, to, why, at)])
  }

  function Escalated(b: Breaker, to: BreakerState, why: string, at: int): Breaker {
    if Severity(to) <= Severity(b.current) then b else Moved(b, to, why, at)
  }

  function ResetBreaker(b: Breaker, why: string, at: int): Breaker {
    if b.current == NORMAL then b else Moved(b, NORMAL, why, at)
  }

  class CircuitBreaker {
    var current: BreakerState
    var currentReason: Option<string>
    var history: seq<BreakerTransition>

    ghost function State(): Breaker
      reads this
    {
      Breaker(current, currentReason, history)
    }

    constructor ()
      ensures State() == CLOSED_BREAKER
    {
      current, currentReason, history := NORMAL, None, [];
    }

    method Escalate(to: BreakerState, why: string, at: int) returns (moved: bool)
      modifies this
      ensures State() == Escalated(old(State()), to, why, at)
      ensures moved == (State() != old(State()))
      ensures moved <==> to == HALT != old(current) || (to == DEGRADED && old(current) == NORMAL)
      ensures moved ==> current == to && currentReason == Some(why)
                        && history == old(history) + [BreakerTransition(old(current), to, why, at)]
    {
      if Severity(to) <= Severity(current) { return false; }
      moved := Apply(to, why, at);
    }

    method Reset(why: string, at: int) returns (moved: bool)
      modifies this
      ensures State() == ResetBreaker(old(State()), why, at)
      ensures moved == (State() != old(State())) == (old(current) != NORMAL)
      ensures current == NORMAL
      ensures moved ==> currentReason == None && history == old(history)
                                                  + [BreakerTransition(old(current), NORMAL, why, at)]
    {
      if current == NORMAL { return false; }
      moved := Apply(NORMAL, why, at);
    }

    method Apply(to: BreakerState, why: string, at: int) returns (moved: bool)
      modifies this
      ensures State() == Moved(old(State()), to, why, at) && State() != old(State()) && moved
    {
      history := history + [BreakerTransition(current, to, why, at)];
      assert |history| == |old(history)| + 1;
      current := to;
      currentReason := if to == NORMAL then None else Some(why);
      moved := true;
    }
  }

  function StepBreaker(b: Breaker, op: BreakerOp): Breaker {
    match op
    case EscalateOp(to, why, at) => Escalated(b, to, why, at)
    case ResetOp(why, at) => ResetBreaker(b, why, at)
  }

  function RunBreaker(b: Breaker, ops: seq<BreakerOp>): Breaker {
    if ops == [] then b else StepBreaker(RunBreaker(b, ops[..|ops| - 1]), ops[|ops| - 1])
  }

  /** The most severe state asked for since the last reset. */
  function WorstSinceReset(ops: seq<BreakerOp>): BreakerState {
    if ops == [] then NORMAL
    else
      match ops[|ops| - 1]
      case ResetOp(_, _) => NORMAL
      case EscalateOp(to, _, _) =>
        var before := WorstSinceReset(ops[..|ops| - 1]);
        if Severity(to) > Severity(before) then to else before
  }

  /** The state a trail had reached after its first `n` transitions. */
  function StateAfter(history: seq<BreakerTransition>, n: nat): BreakerState
    requires n <= |history|
  {
    if n == 0 then NORMAL else history[n - 1].to
  }

  /** A transition continues from a state, either upwards in severity or by a reset. */
  predicate LeadsOn(t: BreakerTransition, from: BreakerState) {
    t.from == from && (Severity(t.to) > Severity(from) || (t.to == NORMAL && from != NORMAL))
  }

  /** The audit trail is one unbroken path from NORMAL to the current state, and every step of it
      either raises the severity or is a reset to NORMAL. */
  predicate AuditedPath(b: Breaker) {
    && (forall n :: 0 <= n < |b.history| ==> LeadsOn(b.history[n], StateAfter(b.history, n)))
    && b.current == StateAfter(b.history, |b.history|)
    && (b.reason.None? <==> b.current == NORMAL)
  }

  lemma MoveKeepsPath(b: Breaker, to: BreakerState, why: string, at: int)
    requires AuditedPath(b) && (Severity(to) > Severity(b.current) || (to == NORMAL && b.current != NORMAL))
    ensures AuditedPath(Moved(b, to, why, at))
  {
    var h, h' := b.history, Moved(b, to, why, at).history;
    forall n | 0 <= n < |h'|
      ensures LeadsOn(h'[n], StateAfter(h', n))
    {
      assert StateAfter(h', n) == StateAfter(h, n);
      if n < |h| { assert h'[n] == h[n]; } else { assert LeadsOn(h'[n], b.current); }
    }
  }

  lemma StepKeepsPath(b: Breaker, op: BreakerOp)
    requires AuditedPath(b)
    ensures AuditedPath(StepBreaker(b, op))
  {
    match op
    case EscalateOp(to, why, at) => if Severity(to) > Severity(b.current) { MoveKeepsPath(b, to, why, at); }
    case ResetOp(why, at) => if b.current != NORMAL { MoveKeepsPath(b, NORMAL, why, at); }
  }

  /** The breaker sits at the worst state asked for since the last reset, so it never recovers by
      itself, and its audit trail accounts for how it got there. */
  lemma {:induction false} BreakerIsWorstSinceReset(ops: seq<BreakerOp>)
    ensures var b := RunBreaker(CLOSED_BREAKER, ops);
            b.current == WorstSinceReset(ops) && AuditedPath(b)
  {
    if ops != [] {
      BreakerIsWorstSinceReset(ops[..|ops| - 1]);
      StepKeepsPath(RunBreaker(CLOSED_BREAKER, ops[..|ops| - 1]), ops[|ops| - 1]);
    }
  }
}

/**
 * The damping-factor rule of the solver step: after each step the factor c
 * is divided by ten when the reprojection error went down and multiplied by
 * ten otherwise.
 */
module Damping {

  /** The damping factor after a step whose error went from prevError to newError. */
  function NextDamping(prevError: real, newError: real, c: real): (r: real)
    ensures r == c / 10.0 || r == c * 10.0
    ensures c > 0.0 ==> r > 0.0
    ensures c > 0.0 ==> (r < c <==> newError < prevError)
    ensures c != 0.0 ==> r != c
  {
    if prevError - newError > 0.0 then c / 10.0 else c * 10.0
  }

  /** c times ten to the power e, for an integer e of either sign. */
  function Rescaled(c: real, e: int): real
    decreases if e < 0 then -e else e
  {
    if e == 0 then c
    else if e > 0 then Rescaled(c, e - 1) * 10.0
    else Rescaled(c, e + 1) / 10.0
  }

  lemma RescaledDown(c: real, e: int)
    ensures Rescaled(c, e - 1) == Rescaled(c, e) / 10.0
  {
  }

  lemma RescaledUp(c: real, e: int)
    ensures Rescaled(c, e + 1) == Rescaled(c, e) * 10.0
  {
  }

  /** The error the solver has cached after the given steps: the last one, or the initial one. */
  function LastError(e0: real, errors: seq<real>): real {
    if errors == [] then e0 else errors[|errors| - 1]
  }

  /**
   * The damping factor after a run of steps that started with error e0 and
   * factor c0 and produced the given errors, one per step.
   */
  function DampingAfter(e0: real, errors: seq<real>, c0: real): real {
    if errors == [] then c0
    else
      var before := errors[..|errors| - 1];
      NextDamping(LastError(e0, before), errors[|errors| - 1], DampingAfter(e0, before, c0))
  }

  /** The number of steps in the run whose error was strictly below the one before it. */
  function Improvements(e0: real, errors: seq<real>): (n: nat)
    ensures n <= |errors|
  {
    if errors == [] then 0
    else
      var before := errors[..|errors| - 1];
      Improvements(e0, before) + (if LastError(e0, before) - errors[|errors| - 1] > 0.0 then 1 else 0)
  }

  /**
   * Over a run, c has been divided by ten once per improving step and
   * multiplied by ten once per other step, and nothing else has happened to it.
   */
  lemma {:induction false} DampingAfterRun(e0: real, errors: seq<real>, c0: real)
    ensures DampingAfter(e0, errors, c0)
         == Rescaled(c0, (|errors| - Improvements(e0, errors)) - Improvements(e0, errors))
  {
    if errors != [] {
      var before := errors[..|errors| - 1];
      DampingAfterRun(e0, before, c0);
      var e := (|before| - Improvements(e0, before)) - Improvements(e0, before);
      if LastError(e0, before) - errors[|errors| - 1] > 0.0 {
        RescaledDown(c0, e);
      } else {
        RescaledUp(c0, e);
      }
    }
  }

  /** Starting from a positive factor, c stays positive over any run. */
  lemma {:induction false} DampingStaysPositive(e0: real, errors: seq<real>, c0: real)
    requires c0 > 0.0
    ensures DampingAfter(e0, errors, c0) > 0.0
  {
    if errors != [] {
      DampingStaysPositive(e0, errors[..|errors| - 1], c0);
    }
  }
}

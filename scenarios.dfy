/** Concrete forms and what the solver makes of them, with the trigonometric
    functions left abstract except where a scenario fixes one value. */
module SlopeScenarios {
  import opened Slope
  import SlopeProperties

  /** Nothing given, or one value given: refused. */
  lemma TooFewValues(m: Math)
    ensures Solve(m, Params(0.0, 0.0, 0.0, 0.0)) == Err(InsufficientInputs)
    ensures Solve(m, Params(3.0, 0.0, 0.0, 0.0)) == Err(InsufficientInputs)
    ensures Solve(m, Params(0.0, 0.0, 0.0, 50.0)) == Err(InsufficientInputs)
  {
  }

  /** Run 3 and rise 4: slope 400/3 percent, angle atan(4/3) in degrees. */
  lemma RunAndRise(m: Math)
    ensures Solve(m, Params(3.0, 4.0, 0.0, 0.0)) == Ok(Params(3.0, 4.0, AtanDeg(m, 4.0 / 3.0), 400.0 / 3.0))
  {
  }

  /** Run 3 at 45 degrees, with tan(45 degrees) = 1: rise 3, slope 100. */
  lemma RunAndAngle(m: Math)
    requires TanDeg(m, 45.0) == 1.0
    ensures Solve(m, Params(3.0, 0.0, 45.0, 0.0)) == Ok(Params(3.0, 3.0, 45.0, 100.0))
  {
  }

  /** Rise 4 at a slope of 50 percent: run 8. */
  lemma RiseAndSlope(m: Math)
    ensures Solve(m, Params(0.0, 4.0, 0.0, 50.0)) == Ok(Params(8.0, 4.0, AtanDeg(m, 0.5), 50.0))
  {
  }

  /** All four given: x and y decide, the given angle and slope are replaced. */
  lemma AllFourGiven(m: Math)
    ensures Solve(m, Params(3.0, 4.0, 45.0, 50.0)) == Solve(m, Params(3.0, 4.0, 0.0, 0.0))
  {
  }

  /** A given rise with an angle whose tangent is 0, as tan(180 degrees) is
      over exact reals (floating-point tan gives a tiny nonzero value there):
      the division fails and the view yields an error instead of values. */
  lemma RiseAndFlatAngle(m: Math)
    requires TanDeg(m, 180.0) == 0.0
    ensures Solve(m, Params(0.0, 4.0, 180.0, 0.0)) == Err(DivisionByZero)
  {
  }
}

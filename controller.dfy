/** The controller's two actions: the data view that runs the solver on the
    form's fields, and the reset button that clears them. */
module Controller {
  import opened Slope

  /** reset_params: every field back to 0, that is "not given". */
  function ResetParams(): (p: Params)
    ensures Unset(p) == 4
  {
    Params(0.0, 0.0, 0.0, 0.0)
  }

  // One lemma per branch: the values the branch's statements leave in the
  // local variables are the ones the branch's function derives.

  lemma XYStep(m: Math, q: Params, angle: real, slope: real)
    requires q.x != 0.0 && q.y != 0.0
    requires slope == (q.y / q.x) * 100.0 && angle == AtanDeg(m, q.y / q.x)
    ensures Ok(Params(q.x, q.y, angle, slope)) == Derive(m, XY, q)
  {
  }

  lemma XAngleStep(m: Math, q: Params, y: real, slope: real)
    requires q.x != 0.0 && q.angle != 0.0
    requires y == q.x * TanDeg(m, q.angle) && slope == (y / q.x) * 100.0
    ensures Ok(Params(q.x, y, q.angle, slope)) == Derive(m, XAngle, q)
  {
  }

  lemma XSlopeStep(m: Math, q: Params, y: real, angle: real)
    requires q.x != 0.0 && q.slope != 0.0
    requires y == (q.slope / 100.0) * q.x && angle == AtanDeg(m, y / q.x)
    ensures Ok(Params(q.x, y, angle, q.slope)) == Derive(m, XSlope, q)
  {
  }

  lemma YAngleStep(m: Math, q: Params, x: real, slope: real)
    requires q.y != 0.0 && q.angle != 0.0 && TanDeg(m, q.angle) != 0.0
    requires x == q.y / TanDeg(m, q.angle) && x != 0.0 && slope == (q.y / x) * 100.0
    ensures Ok(Params(x, q.y, q.angle, slope)) == Derive(m, YAngle, q)
  {
  }

  lemma YSlopeStep(m: Math, q: Params, x: real, angle: real)
    requires q.y != 0.0 && q.slope != 0.0
    requires x == q.y / (q.slope / 100.0) && x != 0.0 && angle == AtanDeg(m, q.y / x)
    ensures Ok(Params(x, q.y, angle, q.slope)) == Derive(m, YSlope, q)
  {
  }

  lemma AngleSlopeStep(m: Math, q: Params, x: real, y: real)
    requires q.angle != 0.0 && q.slope != 0.0 && 100.0 * TanDeg(m, q.angle) != 0.0
    requires x == q.slope / (100.0 * TanDeg(m, q.angle)) && y == (q.slope / 100.0) * x
    ensures Ok(Params(x, y, q.angle, q.slope)) == Derive(m, AngleSlope, q)
  {
  }

  /** get_data_view, statement by statement: the zero count with its early
      return, then the if/elif chain that overwrites the local copies of the
      fields, where a division by a zero tangent and the fallback raise end
      in an error item instead of the four values. */
  method GetDataView(m: Math, params: Params) returns (result: Outcome)
    ensures result == Solve(m, params)
  {
    var x, y, angle, slope := params.x, params.y, params.angle, params.slope;

    var providedValues := CountZeros([x, y, angle, slope]);
    assert providedValues == Unset(params);
    if providedValues > 2 {
      return Err(InsufficientInputs);
    }

    if x != 0.0 && y != 0.0 {
      FirstMatchIs(params, XY);
      slope := (y / x) * 100.0;
      angle := AtanDeg(m, y / x);
      XYStep(m, params, angle, slope);
    } else if x != 0.0 && angle != 0.0 {
      FirstMatchIs(params, XAngle);
      y := x * TanDeg(m, angle);
      slope := (y / x) * 100.0;
      XAngleStep(m, params, y, slope);
    } else if x != 0.0 && slope != 0.0 {
      FirstMatchIs(params, XSlope);
      y := (slope / 100.0) * x;
      angle := AtanDeg(m, y / x);
      XSlopeStep(m, params, y, angle);
    } else if y != 0.0 && angle != 0.0 {
      FirstMatchIs(params, YAngle);
      var t := TanDeg(m, angle);
      if t == 0.0 {
        return Err(DivisionByZero);
      }
      x := y / t;
      QuotientNonzero(y, t);
      slope := (y / x) * 100.0;
      YAngleStep(m, params, x, slope);
    } else if y != 0.0 && slope != 0.0 {
      FirstMatchIs(params, YSlope);
      var d := slope / 100.0;
      x := y / d;
      QuotientNonzero(y, d);
      angle := AtanDeg(m, y / x);
      YSlopeStep(m, params, x, angle);
    } else if angle != 0.0 && slope != 0.0 {
      FirstMatchIs(params, AngleSlope);
      var d := 100.0 * TanDeg(m, angle);
      if d == 0.0 {
        return Err(DivisionByZero);
      }
      x := slope / d;
      y := (slope / 100.0) * x;
      AngleSlopeStep(m, params, x, y);
    } else {
      return Err(InvalidCombination);
    }
    result := Ok(Params(x, y, angle, slope));
  }
}

/** What the solver guarantees: when it refuses, which branch decides, what a
    branch keeps and what it derives, and when a derivation divides by 0. */
module SlopeProperties {
  import opened Slope
  import Controller

  /** At most two fields are "not given" exactly when some pair is given, so
      the zero-count check and the if/elif chain agree. */
  lemma UnsetBoundIffSomePair(q: Params)
    ensures Unset(q) <= 2 <==> exists p: Pair :: Known(q, p)
  {
    var s := [q.x, q.y, q.angle, q.slope];
    assert s[1..][1..][1..][1..] == [];
    assert CountZeros(s[1..][1..][1..]) == CountIfZero(q.slope);
    assert CountZeros(s[1..][1..]) == CountIfZero(q.angle) + CountIfZero(q.slope);
    assert CountZeros(s[1..]) == CountIfZero(q.y) + CountIfZero(q.angle) + CountIfZero(q.slope);
    assert Unset(q) == CountIfZero(q.x) + CountIfZero(q.y) + CountIfZero(q.angle) + CountIfZero(q.slope);
    if Unset(q) <= 2 {
      if q.x != 0.0 && q.y != 0.0 { assert Known(q, XY); }
      else if q.x != 0.0 && q.angle != 0.0 { assert Known(q, XAngle); }
      else if q.x != 0.0 && q.slope != 0.0 { assert Known(q, XSlope); }
      else if q.y != 0.0 && q.angle != 0.0 { assert Known(q, YAngle); }
      else if q.y != 0.0 && q.slope != 0.0 { assert Known(q, YSlope); }
      else { assert Known(q, AngleSlope); }
    }
  }

  /** The "at least two values" error comes exactly from more than two unset
      fields, and then no pair is given, so no derivation runs. */
  lemma InsufficientIff(m: Math, q: Params)
    ensures Solve(m, q) == Err(InsufficientInputs) <==> Unset(q) > 2
    ensures Unset(q) > 2 ==> FirstMatch(q) == None
  {
    UnsetBoundIffSomePair(q);
  }

  /** Once the zero-count check passes, some pair is given: the "invalid
      combination" fallback can never be reached. */
  lemma FallbackUnreachable(m: Math, q: Params)
    ensures Solve(m, q) != Err(InvalidCombination)
  {
    UnsetBoundIffSomePair(q);
  }

  /** The first given pair in the order of priority decides the outcome. */
  lemma FirstGivenPairDecides(m: Math, q: Params, p: Pair)
    requires Known(q, p)
    requires forall p': Pair :: Rank(p') < Rank(p) ==> !Known(q, p')
    ensures Solve(m, q) == Derive(m, p, q)
  {
    FirstMatchIs(q, p);
    UnsetBoundIffSomePair(q);
  }

  /** q with every field outside the pair p cleared to "not given". */
  function Only(q: Params, p: Pair): (r: Params)
    ensures forall f: Field :: Get(r, f) == if f == First(p) || f == Second(p) then Get(q, f) else 0.0
  {
    var keep := (f: Field) => f == First(p) || f == Second(p);
    Params(if keep(X) then q.x else 0.0, if keep(Y) then q.y else 0.0,
           if keep(Angle) then q.angle else 0.0, if keep(Slope) then q.slope else 0.0)
  }

  /** Branch priority over consistency: the values of the two fields that the
      deciding pair does not name are ignored; the result is the same as if
      only that pair had been given. */
  lemma OtherFieldsIgnored(m: Math, q: Params, p: Pair)
    requires FirstMatch(q) == Some(p)
    ensures Solve(m, q) == Solve(m, Only(q, p))
  {
    var r := Only(q, p);
    assert Get(r, First(p)) == Get(q, First(p)) && Get(r, Second(p)) == Get(q, Second(p));
    forall p': Pair | Rank(p') < Rank(p) ensures !Known(r, p') {
      assert !Known(q, p');
      assert Get(r, First(p')) == 0.0 || Get(r, First(p')) == Get(q, First(p'));
      assert Get(r, Second(p')) == 0.0 || Get(r, Second(p')) == Get(q, Second(p'));
    }
    FirstGivenPairDecides(m, q, p);
    FirstGivenPairDecides(m, r, p);
    DeriveReadsOnlyPair(m, p, q, r);
  }

  /** A branch reads only the two fields of its pair: the fields it keeps and
      the ones it overwrites are all determined by them. */
  lemma DeriveReadsOnlyPair(m: Math, p: Pair, q: Params, r: Params)
    requires Known(q, p)
    requires Get(r, First(p)) == Get(q, First(p)) && Get(r, Second(p)) == Get(q, Second(p))
    ensures Known(r, p) && Derive(m, p, q) == Derive(m, p, r)
  {
  }

  /** With x and y both given the result keeps them and is what x and y alone
      give, whatever angle and slope say. */
  lemma XAndYWin(m: Math, x: real, y: real, angle: real, slope: real)
    requires x != 0.0 && y != 0.0
    ensures Solve(m, Params(x, y, angle, slope)) == Solve(m, Params(x, y, 0.0, 0.0))
    ensures Solve(m, Params(x, y, angle, slope)).Ok?
    ensures Solve(m, Params(x, y, angle, slope)).value.x == x
    ensures Solve(m, Params(x, y, angle, slope)).value.y == y
  {
    var q := Params(x, y, angle, slope);
    FirstGivenPairDecides(m, q, XY);
    FirstGivenPairDecides(m, Params(x, y, 0.0, 0.0), XY);
  }

  /** A successful outcome keeps the two fields of the deciding pair and
      changes only the other two. */
  lemma KeepsDecidingPair(m: Math, q: Params, o: Params)
    requires Solve(m, q) == Ok(o)
    ensures FirstMatch(q).Some?
    ensures Get(o, First(FirstMatch(q).value)) == Get(q, First(FirstMatch(q).value))
    ensures Get(o, Second(FirstMatch(q).value)) == Get(q, Second(FirstMatch(q).value))
  {
  }

  /** Only the two branches that divide by a tangent can fail, and they fail
      exactly when that tangent is 0; every other given pair yields values. */
  lemma DivisionByZeroIff(m: Math, q: Params)
    ensures Solve(m, q) == Err(DivisionByZero) <==>
      (FirstMatch(q) == Some(YAngle) || FirstMatch(q) == Some(AngleSlope)) && TanDeg(m, q.angle) == 0.0
    ensures Solve(m, q).Ok? <==> (Unset(q) <= 2 &&
      !((FirstMatch(q) == Some(YAngle) || FirstMatch(q) == Some(AngleSlope)) && TanDeg(m, q.angle) == 0.0))
  {
    UnsetBoundIffSomePair(q);
  }

  /** Every successful outcome has a nonzero run x and a slope of y / x * 100,
      whichever branch produced it. */
  lemma SlopeConsistent(m: Math, q: Params, o: Params)
    requires Solve(m, q) == Ok(o)
    ensures o.x != 0.0
    ensures o.slope == (o.y / o.x) * 100.0
  {
  }

  /** Branch 6 fixes the scale of an angle-and-slope triangle: when the two
      agree (tan = slope / 100) the derived run is 1 and the rise is the
      tangent, so y / x = tan holds as in branches 2 and 4. */
  lemma AngleSlopeUnitRun(m: Math, angle: real, slope: real)
    requires angle != 0.0 && slope != 0.0 && TanDeg(m, angle) == slope / 100.0
    ensures FromAngleSlope(m, angle, slope).Ok?
    ensures FromAngleSlope(m, angle, slope).value.x == 1.0
    ensures FromAngleSlope(m, angle, slope).value.y == TanDeg(m, angle)
  {
  }

  /** How a successful outcome's angle relates to its rise and run: branches
      1, 3 and 5 compute it as atan(y / x) in degrees; branches 2 and 4 keep
      the given angle and derive y / x = tan(angle); branch 6 keeps it. */
  lemma AngleConsistent(m: Math, q: Params, o: Params)
    requires Solve(m, q) == Ok(o)
    ensures FirstMatch(q) in {Some(XY), Some(XSlope), Some(YSlope)} ==> o.angle == AtanDeg(m, o.y / o.x)
    ensures FirstMatch(q) in {Some(XAngle), Some(YAngle)} ==> o.angle == q.angle && o.y / o.x == TanDeg(m, o.angle)
    ensures FirstMatch(q) == Some(AngleSlope) ==> o.angle == q.angle && o.slope == q.slope
  {
  }

  /** A successful outcome has a zero rise (and then a zero slope) only in
      branch 2 with a zero tangent; every other branch yields y != 0. */
  lemma RiseZeroIff(m: Math, q: Params, o: Params)
    requires Solve(m, q) == Ok(o)
    ensures o.y == 0.0 <==> FirstMatch(q) == Some(XAngle) && TanDeg(m, q.angle) == 0.0
    ensures o.slope == 0.0 <==> o.y == 0.0
  {
  }

  /** Feeding a solved rise and run back in alone runs branch 1 and gives the
      same slope, and the same angle when it was computed by atan, so solving
      is idempotent on those outcomes. */
  lemma RoundTripThroughXY(m: Math, q: Params, o: Params)
    requires Solve(m, q) == Ok(o) && o.y != 0.0
    ensures Solve(m, Params(o.x, o.y, 0.0, 0.0)) == Ok(o.(angle := AtanDeg(m, o.y / o.x)))
    ensures FirstMatch(q) in {Some(XY), Some(XSlope), Some(YSlope)} ==>
      Solve(m, Params(o.x, o.y, 0.0, 0.0)) == Ok(o)
  {
    SlopeConsistent(m, q, o);
    XAndYWin(m, o.x, o.y, 0.0, 0.0);
    FirstGivenPairDecides(m, Params(o.x, o.y, 0.0, 0.0), XY);
  }

  /** Where atan undoes tan at the given angle, the round trip also gives
      back the angle that branches 2 and 4 kept. */
  lemma RoundTripWithInverse(m: Math, q: Params, o: Params)
    requires Solve(m, q) == Ok(o) && o.y != 0.0
    requires FirstMatch(q) in {Some(XAngle), Some(YAngle)}
    requires m.atan(TanDeg(m, q.angle)) == q.angle * m.pi / 180.0
    ensures Solve(m, Params(o.x, o.y, 0.0, 0.0)) == Ok(o)
  {
    RoundTripThroughXY(m, q, o);
    AngleConsistent(m, q, o);
    DegreesRoundTrip(q.angle, m.pi);
  }

  /** Branch 6 with an angle and a slope that describe the same triangle
      (tan = slope / 100), where atan undoes tan at that angle: solving the
      derived rise and run alone gives the whole result back. */
  lemma RoundTripAngleSlope(m: Math, q: Params, o: Params)
    requires Solve(m, q) == Ok(o)
    requires FirstMatch(q) == Some(AngleSlope)
    requires TanDeg(m, q.angle) == q.slope / 100.0
    requires m.atan(TanDeg(m, q.angle)) == q.angle * m.pi / 180.0
    ensures Solve(m, Params(o.x, o.y, 0.0, 0.0)) == Ok(o)
  {
    AngleSlopeUnitRun(m, q.angle, q.slope);
    RoundTripThroughXY(m, q, o);
    DegreesRoundTrip(q.angle, m.pi);
  }

  lemma DegreesRoundTrip(a: real, pi: real)
    requires pi > 0.0
    ensures (a * pi / 180.0) * (180.0 / pi) == a
  {
  }

  /** The reset button leaves a form that the solver refuses with the "at
      least two values" message. */
  lemma ResetThenSolve(m: Math)
    ensures Solve(m, Controller.ResetParams()) == Err(InsufficientInputs)
    ensures Message(Solve(m, Controller.ResetParams()).error) == Some(InsufficientText)
  {
  }
}

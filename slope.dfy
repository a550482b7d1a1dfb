/** The quantities of the slope ("Gefälle") calculator and the solver that
    derives the two missing ones from two given ones.

    A field whose value is 0 counts as "not given".  The trigonometric
    functions of the host language are not modelled: they arrive as a
    parameter of type Math, about which nothing but pi > 0 is known. */
module Slope {

  datatype Option<T> = None | Some(value: T)

  /** The four input fields of the form, in the order x, y, angle, slope. */
  datatype Params = Params(x: real, y: real, angle: real, slope: real)

  datatype Field = X | Y | Angle | Slope

  function Get(q: Params, f: Field): real {
    match f
    case X => q.x
    case Y => q.y
    case Angle => q.angle
    case Slope => q.slope
  }

  /** tan, atan and pi as the solver sees them; only pi > 0 is assumed. */
  datatype MathLib = MathLib(tan: real -> real, atan: real -> real, pi: real)
  type Math = m: MathLib | m.pi > 0.0 witness MathLib(t => t, t => t, 3.0)

  /** The tangent of an angle given in degrees: tan(angle * pi / 180). */
  function TanDeg(m: Math, angle: real): real {
    m.tan(angle * m.pi / 180.0)
  }

  /** An arc tangent converted to degrees: atan(r) * (180 / pi). */
  function AtanDeg(m: Math, r: real): real {
    m.atan(r) * (180.0 / m.pi)
  }

  /** 1 for a "not given" value, 0 otherwise. */
  function CountIfZero(v: real): nat {
    if v == 0.0 then 1 else 0
  }

  /** The number of elements of s equal to 0, as a list's count(0) gives it. */
  function CountZeros(s: seq<real>): (n: nat)
    ensures n <= |s|
  {
    if s == [] then 0
    else CountIfZero(s[0]) + CountZeros(s[1..])
  }

  /** CountZeros counts exactly the occurrences of 0 in s. */
  lemma {:induction false} CountZerosIsMultiplicity(s: seq<real>)
    ensures CountZeros(s) == multiset(s)[0.0]
  {
    if s != [] {
      assert s == [s[0]] + s[1..];
      CountZerosIsMultiplicity(s[1..]);
    }
  }

  /** The number of fields of q that are "not given". */
  function Unset(q: Params): nat {
    CountZeros([q.x, q.y, q.angle, q.slope])
  }

  /** A pair of given fields that selects one way of deriving the other two. */
  datatype Pair = XY | XAngle | XSlope | YAngle | YSlope | AngleSlope

  function First(p: Pair): Field {
    match p
    case XY | XAngle | XSlope => X
    case YAngle | YSlope => Y
    case AngleSlope => Angle
  }

  function Second(p: Pair): Field {
    match p
    case XY => Y
    case XAngle | YAngle => Angle
    case XSlope | YSlope | AngleSlope => Slope
  }

  /** Both fields of the pair are given. */
  predicate Known(q: Params, p: Pair) {
    Get(q, First(p)) != 0.0 && Get(q, Second(p)) != 0.0
  }

  /** The order in which the solver tries the pairs. */
  const Priority: seq<Pair> := [XY, XAngle, XSlope, YAngle, YSlope, AngleSlope]

  /** The position of p in the order of priority. */
  function Rank(p: Pair): (i: nat)
    ensures i < |Priority| && Priority[i] == p
  {
    match p
    case XY => 0
    case XAngle => 1
    case XSlope => 2
    case YAngle => 3
    case YSlope => 4
    case AngleSlope => 5
  }

  /** The index in ps of the first pair whose fields are both given, or |ps|. */
  function FirstKnown(q: Params, ps: seq<Pair>): (k: nat)
    ensures k <= |ps|
    ensures forall j :: 0 <= j < k ==> !Known(q, ps[j])
    ensures k < |ps| ==> Known(q, ps[k])
  {
    if ps == [] then 0
    else if Known(q, ps[0]) then 0
    else 1 + FirstKnown(q, ps[1..])
  }

  /** The pair that decides how q is solved, if any pair is given. */
  function FirstMatch(q: Params): (r: Option<Pair>)
    ensures r.Some? ==> Known(q, r.value)
    ensures r.Some? ==> forall p: Pair :: Rank(p) < Rank(r.value) ==> !Known(q, p)
    ensures r.None? <==> forall p: Pair :: !Known(q, p)
  {
    var k := FirstKnown(q, Priority);
    if k < |Priority| then
      assert Rank(Priority[k]) == k;
      Some(Priority[k])
    else
      assert forall p: Pair :: !Known(q, p) by {
        forall p: Pair ensures !Known(q, p) {
          assert Priority[Rank(p)] == p;
        }
      }
      None
  }

  /** The if/elif order: a given pair preceded only by pairs that are not
      given is the one that decides. */
  lemma FirstMatchIs(q: Params, p: Pair)
    requires Known(q, p)
    requires forall p': Pair :: Rank(p') < Rank(p) ==> !Known(q, p')
    ensures FirstMatch(q) == Some(p)
  {
  }

  /** The two messages the view writes itself. */
  const InsufficientText := "Bitte geben Sie mindestens zwei Werte ein."
  const InvalidText := "Ungültige Kombination von Inputs"

  /** Too few given fields, the fallback raise, and the division error that
      the view's except clause catches. */
  datatype Error = InsufficientInputs | InvalidCombination | DivisionByZero

  datatype Outcome = Ok(value: Params) | Err(error: Error)

  /** The text shown under "Fehler"; None where it is the interpreter's text. */
  function Message(e: Error): (s: Option<string>)
    ensures s.Some? <==> e != DivisionByZero
  {
    match e
    case InsufficientInputs => Some(InsufficientText)
    case InvalidCombination => Some(InvalidText)
    case DivisionByZero => None
  }

  // Facts of real division that the branches rely on.

  lemma ProductQuotient(a: real, b: real)
    requires b != 0.0
    ensures (a * b) / b == a
  {
  }

  lemma QuotientOfQuotient(a: real, b: real)
    requires a != 0.0 && b != 0.0
    ensures a / (a / b) == b
  {
  }

  /** A quotient of nonzero reals is nonzero, so the branches that divide by
      a derived run never divide by 0. */
  lemma QuotientNonzero(a: real, b: real)
    requires a != 0.0 && b != 0.0
    ensures a / b != 0.0
  {
  }

  /** Branch 1, x and y given: slope and angle from the ratio y / x. */
  function FromXY(m: Math, x: real, y: real): (r: Params)
    requires x != 0.0 && y != 0.0
    ensures r.x == x && r.y == y
    ensures r.slope == (r.y / r.x) * 100.0 && r.angle == AtanDeg(m, r.y / r.x)
  {
    Params(x, y, AtanDeg(m, y / x), (y / x) * 100.0)
  }

  /** Branch 2, x and angle given: the rise y = x * tan, then the slope. */
  function FromXAngle(m: Math, x: real, angle: real): (r: Params)
    requires x != 0.0 && angle != 0.0
    ensures r.x == x && r.angle == angle
    ensures r.y / r.x == TanDeg(m, angle)
    ensures r.slope == (r.y / r.x) * 100.0
  {
    var y := x * TanDeg(m, angle);
    ProductQuotient(TanDeg(m, angle), x);
    Params(x, y, angle, (y / x) * 100.0)
  }

  /** Branch 3, x and slope given: the rise y = slope / 100 * x, then the angle. */
  function FromXSlope(m: Math, x: real, slope: real): (r: Params)
    requires x != 0.0 && slope != 0.0
    ensures r.x == x && r.slope == slope
    ensures r.y != 0.0 && r.slope == (r.y / r.x) * 100.0
    ensures r.angle == AtanDeg(m, r.y / r.x)
  {
    var y := (slope / 100.0) * x;
    ProductQuotient(slope / 100.0, x);
    Params(x, y, AtanDeg(m, y / x), slope)
  }

  /** Branch 4, y and angle given: the run x = y / tan, which fails when the
      tangent is 0, then the slope. */
  function FromYAngle(m: Math, y: real, angle: real): (r: Outcome)
    requires y != 0.0 && angle != 0.0
    ensures r.Err? <==> TanDeg(m, angle) == 0.0
    ensures r.Err? ==> r.error == DivisionByZero
    ensures r.Ok? ==> r.value.y == y && r.value.angle == angle
    ensures r.Ok? ==> r.value.x != 0.0 && r.value.y / r.value.x == TanDeg(m, angle)
    ensures r.Ok? ==> r.value.slope == (r.value.y / r.value.x) * 100.0
  {
    var t := TanDeg(m, angle);
    if t == 0.0 then Err(DivisionByZero)
    else
      var x := y / t;
      QuotientNonzero(y, t);
      QuotientOfQuotient(y, t);
      Ok(Params(x, y, angle, (y / x) * 100.0))
  }

  /** Branch 5, y and slope given: the run x = y / (slope / 100), then the angle. */
  function FromYSlope(m: Math, y: real, slope: real): (r: Params)
    requires y != 0.0 && slope != 0.0
    ensures r.y == y && r.slope == slope
    ensures r.x != 0.0 && r.slope == (r.y / r.x) * 100.0
    ensures r.angle == AtanDeg(m, r.y / r.x)
  {
    var d := slope / 100.0;
    var x := y / d;
    QuotientNonzero(y, d);
    QuotientOfQuotient(y, d);
    Params(x, y, AtanDeg(m, y / x), slope)
  }

  /** Branch 6, angle and slope given: the run x = slope / (100 * tan), which
      fails when the tangent is 0, then the rise y = slope / 100 * x. */
  function FromAngleSlope(m: Math, angle: real, slope: real): (r: Outcome)
    requires angle != 0.0 && slope != 0.0
    ensures r.Err? <==> TanDeg(m, angle) == 0.0
    ensures r.Err? ==> r.error == DivisionByZero
    ensures r.Ok? ==> r.value.angle == angle && r.value.slope == slope
    ensures r.Ok? ==> r.value.x != 0.0 && r.value.y != 0.0
    ensures r.Ok? ==> r.value.slope == (r.value.y / r.value.x) * 100.0
    ensures r.Ok? ==> r.value.x * (100.0 * TanDeg(m, angle)) == slope
  {
    var d := 100.0 * TanDeg(m, angle);
    if d == 0.0 then Err(DivisionByZero)
    else
      var x := slope / d;
      QuotientNonzero(slope, d);
      ProductQuotient(slope / 100.0, x);
      Ok(Params(x, (slope / 100.0) * x, angle, slope))
  }

  /** The branch that the pair p selects, fed with the two values of p. */
  function Derive(m: Math, p: Pair, q: Params): (r: Outcome)
    requires Known(q, p)
    ensures r.Err? ==> r.error == DivisionByZero
    ensures r.Ok? ==> Get(r.value, First(p)) == Get(q, First(p)) && Get(r.value, Second(p)) == Get(q, Second(p))
  {
    match p
    case XY => Ok(FromXY(m, q.x, q.y))
    case XAngle => Ok(FromXAngle(m, q.x, q.angle))
    case XSlope => Ok(FromXSlope(m, q.x, q.slope))
    case YAngle => FromYAngle(m, q.y, q.angle)
    case YSlope => Ok(FromYSlope(m, q.y, q.slope))
    case AngleSlope => FromAngleSlope(m, q.angle, q.slope)
  }

  /** The solver: too few given fields, the first given pair's derivation, or
      the fallback error when no pair is given. */
  function Solve(m: Math, q: Params): (r: Outcome)
    ensures r == Err(InsufficientInputs) <==> Unset(q) > 2
  {
    if Unset(q) > 2 then Err(InsufficientInputs)
    else
      match FirstMatch(q)
      case None => Err(InvalidCombination)
      case Some(p) => Derive(m, p, q)
  }
}

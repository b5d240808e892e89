/**
 * The lucky-sector pipeline: three scaled odds are looked up as angles,
 * the turn direction of the three points on the unit circle is classified,
 * the angles are rotated in the counterclockwise case, an arc midpoint is
 * taken and the smaller arc between it and the third angle is described.
 *
 * Angles are exact: an `Angle` counts quarter-degrees, so a whole turn is
 * `Turn` == 1440. Inputs are whole degrees, a midpoint halves a whole-degree
 * difference and the final midpoint halves a half-degree difference, so
 * every value the source computes is a whole number of quarter-degrees.
 */
module LuckySector {
  import opened Wrappers
  import Text
  import Prediction

  type Angle = int

  const Turn: int := 1440
  const HalfTurn: int := 720

  /** The angle of `d` whole degrees. */
  function Degrees(d: int): Angle
  {
    4 * d
  }

  /** `x` and `y` name the same point of the circle: they differ by whole turns. */
  predicate Congruent(x: int, y: int)
  {
    (x - y) % Turn == 0
  }

  lemma CongruentByQuotient(x: int, y: int, k: int)
    requires x - y == k * Turn
    ensures Congruent(x, y) && Congruent(y, x)
  {
  }

  lemma CongruentQuotient(x: int, y: int) returns (k: int)
    requires Congruent(x, y)
    ensures x - y == k * Turn
  {
    k := (x - y) / Turn;
  }

  lemma CongruentSymm(x: int, y: int)
    requires Congruent(x, y)
    ensures Congruent(y, x)
  {
    var k := CongruentQuotient(x, y);
    CongruentByQuotient(x, y, k);
  }

  lemma CongruentTrans(x: int, y: int, z: int)
    requires Congruent(x, y) && Congruent(y, z)
    ensures Congruent(x, z)
  {
    var i := CongruentQuotient(x, y);
    var j := CongruentQuotient(y, z);
    CongruentByQuotient(x, z, i + j);
  }

  /** Whole turns are whole degrees, so congruence keeps an angle on the whole-degree grid. */
  lemma CongruentKeepsWholeDegrees(x: int, y: int)
    requires Congruent(x, y) && y % 4 == 0
    ensures x % 4 == 0
  {
    var k := CongruentQuotient(x, y);
    assert x == 4 * (y / 4 + 360 * k);
  }

  lemma WholeDegreesSumDiff(x: int, y: int)
    requires x % 4 == 0 && y % 4 == 0
    ensures (x + y) % 4 == 0 && (x - y) % 4 == 0
  {
    assert x + y == 4 * (x / 4 + y / 4);
    assert x - y == 4 * (x / 4 - y / 4);
  }

  lemma WholeDegreesAreHalfDegrees(x: int)
    requires x % 4 == 0
    ensures x % 2 == 0
  {
    assert x == 2 * (2 * (x / 4));
  }

  /** Whole turns are whole half-degrees too. */
  lemma CongruentKeepsHalfDegrees(x: int, y: int)
    requires Congruent(x, y) && y % 2 == 0
    ensures x % 2 == 0
  {
    var k := CongruentQuotient(x, y);
    var h := y / 2;
    assert y == 2 * h;
    EvenByHalf(x, h + 720 * k);
  }

  lemma EvenByHalf(x: int, h: int)
    requires x == 2 * h
    ensures x % 2 == 0
  {
  }

  /** JavaScript `x % 360` on an angle: the remainder truncates, so it takes the sign of `x`. */
  function JsRemTurn(x: int): (r: Angle)
    ensures x >= 0 ==> 0 <= r < Turn
    ensures x < 0 ==> -Turn < r <= 0
    ensures Congruent(r, x)
  {
    if x >= 0 then x % Turn else -((-x) % Turn)
  }

  // ---------------------------------------------------------------------------
  // The input-to-angle table

  /**
   * `inputToAngleMapping` with `?? input`: the base angle, in degrees, of a
   * table key, one row of the table per base angle.
   */
  function TableAngle(input: int): (r: Option<int>)
    ensures r.Some? <==> InTableDomain(input)
    ensures r.Some? ==> r.value in BaseDegrees
  {
    if input in {0, 4, 14, 360, 40, 50} then Some(0)
    else if input in {1, 2, 7, 8, 10, 11, 13, 16, 37, 38, 43, 44, 46, 47, 49} then Some(45)
    else if input in {19, 22, 25, 26, 29, 31, 34, 35} then Some(135)
    else if input in {23, 27, 28, 32} then Some(180)
    else if input in {18, 20, 21, 24, 30, 33, 36} then Some(225)
    else if input in {3, 5, 6, 9, 12, 15, 17, 39, 41, 42, 45, 48} then Some(315)
    else None
  }

  /** The six angles, in degrees, that the table hands out. */
  const BaseDegrees: set<int> := {0, 45, 135, 180, 225, 315}

  predicate InTableDomain(input: int)
  {
    0 <= input <= 50 || input == 360
  }

  /** `convertUserInputToAngle`: a table key maps to its base angle, anything else passes through. */
  function ConvertUserInputToAngle(input: int): (r: Angle)
    ensures r % 4 == 0
    ensures InTableDomain(input) ==> r / 4 in BaseDegrees
    ensures !InTableDomain(input) ==> r == Degrees(input)
    ensures input >= 0 ==> r >= 0
  {
    match TableAngle(input)
    case Some(d) => Degrees(d)
    case None => Degrees(input)
  }

  // ---------------------------------------------------------------------------
  // Orientation

  datatype Orientation = Clockwise | Counterclockwise | Collinear

  /**
   * `Math.cos` and `Math.sin` of an angle (the source converts degrees to
   * radians first). They are left uninterpreted: every property below holds
   * for whatever cosine and sine the runtime supplies.
   */
  datatype Trig = Trig(cos: Angle -> real, sin: Angle -> real)

  /** The cross product of B - A and C - A for the points of the three angles on the circle. */
  function CrossProduct(a: Angle, b: Angle, c: Angle, trig: Trig): real
  {
    var xA, xB, xC := trig.cos(a), trig.cos(b), trig.cos(c);
    var yA, yB, yC := trig.sin(a), trig.sin(b), trig.sin(c);
    (xB - xA) * (yC - yA) - (xC - xA) * (yB - yA)
  }

  /** `calculateOrientation`: the three outcomes split the sign of the cross product. */
  function CalculateOrientation(a: Angle, b: Angle, c: Angle, trig: Trig): (o: Orientation)
    ensures o == Counterclockwise <==> CrossProduct(a, b, c, trig) > 0.0
    ensures o == Clockwise <==> CrossProduct(a, b, c, trig) < 0.0
    ensures o == Collinear <==> CrossProduct(a, b, c, trig) == 0.0
  {
    var v := CrossProduct(a, b, c, trig);
    if v > 0.0 then Counterclockwise else if v < 0.0 then Clockwise else Collinear
  }

  /** Two coinciding points make the cross product exactly zero, whatever cosine and sine are. */
  lemma RepeatedAngleIsCollinear(a: Angle, b: Angle, c: Angle, trig: Trig)
    requires a == b || b == c || a == c
    ensures CrossProduct(a, b, c, trig) == 0.0
    ensures CalculateOrientation(a, b, c, trig) == Collinear
  {
  }

  // ---------------------------------------------------------------------------
  // Normalisation and the shift

  /** `normalizeAngle`: `(angle + 360) % 360` with JavaScript's truncating `%`. */
  function NormalizeAngle(x: Angle): (r: Angle)
    ensures x >= -Turn ==> 0 <= r < Turn
    ensures x < -Turn ==> -Turn < r <= 0 && (r == 0 <==> x % Turn == 0)
    ensures Congruent(r, x)
  {
    var r := JsRemTurn(x + Turn);
    CongruentByQuotient(x + Turn, x, 1);
    CongruentTrans(r, x + Turn, x);
    r
  }

  /** On inputs of at least minus one turn normalising twice changes nothing, and a normal angle is kept. */
  lemma NormalizeIdempotent(x: Angle)
    requires x >= -Turn
    ensures NormalizeAngle(NormalizeAngle(x)) == NormalizeAngle(x)
    ensures 0 <= x < Turn ==> NormalizeAngle(x) == x
  {
  }

  /** Below minus one turn the truncating remainder leaves normalisation negative. */
  lemma NormalizeNegativeBelowOneTurn(x: Angle)
    requires x < -Turn && x % Turn != 0
    ensures NormalizeAngle(x) < 0
  {
  }

  datatype Triple = Triple(a: Angle, b: Angle, c: Angle)

  /**
   * The rotation `calculateShift` applies in the counterclockwise case: all
   * three angles move by the same `normalizeAngle(A - C)`.
   */
  function RotateOntoA(a: Angle, b: Angle, c: Angle): (r: Triple)
    ensures var shift := NormalizeAngle(a - c);
      Congruent(r.a, a + shift) && Congruent(r.b, b + shift) && Congruent(r.c, c + shift)
  {
    var shift := NormalizeAngle(a - c);
    Triple(NormalizeAngle(a + shift), NormalizeAngle(b + shift), NormalizeAngle(c + shift))
  }

  /**
   * `calculateShift`: in the counterclockwise case the three angles rotate by
   * the same amount; otherwise they are returned as they are.
   */
  function CalculateShift(a: Angle, b: Angle, c: Angle, trig: Trig): (r: Triple)
    ensures CalculateOrientation(a, b, c, trig) != Counterclockwise ==> r == Triple(a, b, c)
    ensures CalculateOrientation(a, b, c, trig) == Counterclockwise ==>
      var shift := NormalizeAngle(a - c);
      Congruent(r.a, a + shift) && Congruent(r.b, b + shift) && Congruent(r.c, c + shift)
  {
    if CalculateOrientation(a, b, c, trig) == Counterclockwise then RotateOntoA(a, b, c) else Triple(a, b, c)
  }

  /** The rotation moves C onto A: the new C is the same point of the circle as the old A. */
  lemma RotationBringsCOntoA(a: Angle, b: Angle, c: Angle)
    ensures Congruent(RotateOntoA(a, b, c).c, a)
  {
    var shift := NormalizeAngle(a - c);
    var k := CongruentQuotient(shift, a - c);
    CongruentByQuotient(c + shift, a, k);
    CongruentTrans(RotateOntoA(a, b, c).c, c + shift, a);
  }

  /** The rotation keeps whole-degree angles on whole degrees. */
  lemma RotationKeepsWholeDegrees(a: Angle, b: Angle, c: Angle)
    requires a % 4 == 0 && b % 4 == 0 && c % 4 == 0
    ensures var r := RotateOntoA(a, b, c); r.a % 4 == 0 && r.b % 4 == 0 && r.c % 4 == 0
  {
    var shift := NormalizeAngle(a - c);
    var r := RotateOntoA(a, b, c);
    WholeDegreesSumDiff(a, c);
    CongruentKeepsWholeDegrees(shift, a - c);
    WholeDegreesSumDiff(a, shift);
    WholeDegreesSumDiff(b, shift);
    WholeDegreesSumDiff(c, shift);
    CongruentKeepsWholeDegrees(r.a, a + shift);
    CongruentKeepsWholeDegrees(r.b, b + shift);
    CongruentKeepsWholeDegrees(r.c, c + shift);
  }

  /** Shifting, in whichever case, keeps whole-degree angles on whole degrees. */
  lemma ShiftKeepsWholeDegrees(a: Angle, b: Angle, c: Angle, trig: Trig)
    requires a % 4 == 0 && b % 4 == 0 && c % 4 == 0
    ensures var r := CalculateShift(a, b, c, trig); r.a % 4 == 0 && r.b % 4 == 0 && r.c % 4 == 0
  {
    RotationKeepsWholeDegrees(a, b, c);
  }

  /** On non-negative angles the rotation lands every angle in [0, 360) and C exactly on A's normal form. */
  lemma RotationOfNonNegativeAngles(a: Angle, b: Angle, c: Angle)
    requires a >= 0 && b >= 0 && c >= 0
    ensures var r := RotateOntoA(a, b, c);
      0 <= r.a < Turn && 0 <= r.b < Turn && 0 <= r.c < Turn && r.c == NormalizeAngle(a)
  {
    var shift := NormalizeAngle(a - c);
    assert -Turn < shift;
    var r := RotateOntoA(a, b, c);
    assert r == Triple(NormalizeAngle(a + shift), NormalizeAngle(b + shift), NormalizeAngle(c + shift));
    assert a + shift >= -Turn && b + shift >= -Turn && c + shift >= -Turn;
    assert 0 <= r.a < Turn && 0 <= r.b < Turn && 0 <= r.c < Turn;
    RotationBringsCOntoA(a, b, c);
    CongruentSymm(NormalizeAngle(a), a);
    CongruentTrans(r.c, a, NormalizeAngle(a));
    CongruentNormalFormsAreEqual(r.c, NormalizeAngle(a));
  }

  /** Two angles in [0, 360) that name the same point are equal. */
  lemma CongruentNormalFormsAreEqual(x: Angle, y: Angle)
    requires 0 <= x < Turn && 0 <= y < Turn && Congruent(x, y)
    ensures x == y
  {
    var k := CongruentQuotient(x, y);
  }

  // ---------------------------------------------------------------------------
  // Midpoints

  /** The `+= 360` fix-up applied to a negative arc difference. */
  function FixUp(d: int): int
  {
    if d < 0 then d + Turn else d
  }

  /** How far one must turn from `from`, increasing the angle, to reach `to`. */
  function ForwardDistance(from: Angle, to: Angle): (r: Angle)
    ensures 0 <= r < Turn
  {
    (to - from) % Turn
  }

  /** Between two normal angles the fixed-up differences are arc lengths that add up to a full turn, or are both 0. */
  lemma FixedUpDifferences(x: Angle, y: Angle)
    requires 0 <= x < Turn && 0 <= y < Turn
    ensures 0 <= FixUp(x - y) < Turn && 0 <= FixUp(y - x) < Turn
    ensures FixUp(x - y) == ForwardDistance(y, x)
    ensures x == y ==> FixUp(x - y) == 0 && FixUp(y - x) == 0
    ensures x != y ==> FixUp(x - y) + FixUp(y - x) == Turn
  {
  }

  /** Angles on the half-degree grid, where halving a difference of two of them is exact. */
  predicate OnHalfDegreeGrid(x: Angle)
  {
    x % 2 == 0
  }

  datatype Midpoints = Midpoints(clockwise: Angle, counterclockwise: Angle)

  /** `calculateMidpointAngle` */
  function CalculateMidpointAngle(a: Angle, b: Angle): (m: Midpoints)
    requires OnHalfDegreeGrid(a) && OnHalfDegreeGrid(b)
    ensures a >= -Turn && b >= -Turn ==> 0 <= m.clockwise < Turn && 0 <= m.counterclockwise < Turn
  {
    var a', b' := NormalizeAngle(a), NormalizeAngle(b);
    var clockwiseDifference := FixUp(a' - b');
    var counterclockwiseDifference := FixUp(b' - a');
    Midpoints(JsRemTurn(b' + clockwiseDifference / 2), JsRemTurn(a' + counterclockwiseDifference / 2))
  }

  /** Whole-degree endpoints have midpoints on the half-degree grid. */
  lemma MidpointOnHalfDegreeGrid(a: Angle, b: Angle)
    requires a % 4 == 0 && b % 4 == 0 && OnHalfDegreeGrid(a) && OnHalfDegreeGrid(b)
    ensures var m := CalculateMidpointAngle(a, b);
      OnHalfDegreeGrid(m.clockwise) && OnHalfDegreeGrid(m.counterclockwise)
  {
    var a', b' := NormalizeAngle(a), NormalizeAngle(b);
    CongruentKeepsWholeDegrees(a', a);
    CongruentKeepsWholeDegrees(b', b);
    HalfArcOnGrid(a', b');
    HalfArcOnGrid(b', a');
    CongruentKeepsHalfDegrees(JsRemTurn(b' + FixUp(a' - b') / 2), b' + FixUp(a' - b') / 2);
    CongruentKeepsHalfDegrees(JsRemTurn(a' + FixUp(b' - a') / 2), a' + FixUp(b' - a') / 2);
  }

  /** Half of a whole-degree arc is a whole number of half-degrees. */
  lemma HalfArcOnGrid(x: Angle, y: Angle)
    requires x % 4 == 0 && y % 4 == 0
    ensures (y + FixUp(x - y) / 2) % 2 == 0
  {
    var i, j := x / 4, y / 4;
    assert x == 4 * i && y == 4 * j;
    var k := if x - y < 0 then i - j + 360 else i - j;
    var d := FixUp(x - y);
    assert d == 4 * k;
    assert d / 2 == 2 * k;
    EvenByHalf(y + d / 2, 2 * j + k);
  }

  /** Moving either end by whole turns does not change a forward distance. */
  lemma ForwardDistanceCongruent(x: Angle, x': Angle, y: Angle, y': Angle)
    requires Congruent(x, x') && Congruent(y, y')
    ensures ForwardDistance(x, y) == ForwardDistance(x', y')
  {
    var i := CongruentQuotient(x, x');
    var j := CongruentQuotient(y, y');
    assert y - x == (y' - x') + (j - i) * Turn;
  }

  /** A forward step shorter than a turn is its own forward distance. */
  lemma ForwardDistanceOfShortStep(x: Angle, y: Angle)
    requires 0 <= y - x < Turn
    ensures ForwardDistance(x, y) == y - x
  {
  }

  /** Halving the forward arc from `from` to `to`, the halfway point is equally far from both ends. */
  lemma HalfwayPoint(from: Angle, to: Angle, m: Angle)
    requires 0 <= from < Turn && 0 <= to < Turn && from % 2 == 0 && to % 2 == 0
    requires Congruent(m, from + FixUp(to - from) / 2)
    ensures 2 * ForwardDistance(from, m) == ForwardDistance(from, to)
    ensures ForwardDistance(from, m) == ForwardDistance(m, to)
  {
    var d := FixUp(to - from);
    FixedUpDifferences(to, from);
    var w := if to - from < 0 then to / 2 - from / 2 + 720 else to / 2 - from / 2;
    assert d == 2 * w;
    var h := d / 2;
    assert h == w;
    ForwardDistanceOfShortStep(from, from + h);
    ForwardDistanceCongruent(from, from, m, from + h);
    ForwardDistanceOfShortStep(from + h, from + d);
    CongruentByQuotient(to, from + d, if to - from < 0 then -1 else 0);
    ForwardDistanceCongruent(m, from + h, to, from + d);
  }

  /**
   * The clockwise midpoint halves the arc that runs from B up to A, the
   * counterclockwise midpoint the arc that runs from A up to B.
   */
  lemma MidpointBisectsArc(a: Angle, b: Angle)
    requires OnHalfDegreeGrid(a) && OnHalfDegreeGrid(b)
    requires a >= -Turn && b >= -Turn
    ensures var a', b', m := NormalizeAngle(a), NormalizeAngle(b), CalculateMidpointAngle(a, b);
      && 2 * ForwardDistance(b', m.clockwise) == ForwardDistance(b', a')
      && ForwardDistance(b', m.clockwise) == ForwardDistance(m.clockwise, a')
      && 2 * ForwardDistance(a', m.counterclockwise) == ForwardDistance(a', b')
      && ForwardDistance(a', m.counterclockwise) == ForwardDistance(m.counterclockwise, b')
  {
    var a', b' := NormalizeAngle(a), NormalizeAngle(b);
    CongruentKeepsHalfDegrees(a', a);
    CongruentKeepsHalfDegrees(b', b);
    HalfwayPoint(b', a', CalculateMidpointAngle(a, b).clockwise);
    HalfwayPoint(a', b', CalculateMidpointAngle(a, b).counterclockwise);
  }

  /** Swapping the arguments swaps the two midpoints. */
  lemma MidpointSwapSymmetry(a: Angle, b: Angle)
    requires OnHalfDegreeGrid(a) && OnHalfDegreeGrid(b)
    ensures CalculateMidpointAngle(a, b).clockwise == CalculateMidpointAngle(b, a).counterclockwise
    ensures CalculateMidpointAngle(a, b).counterclockwise == CalculateMidpointAngle(b, a).clockwise
  {
  }

  datatype FinalMidpoints = FinalMidpoints(finalClockwise: Angle, finalCounterclockwise: Angle)

  /** `calculateFinalMidpoint`, written out separately in the source with the same arithmetic. */
  function CalculateFinalMidpoint(midpoint: Angle, c: Angle): (f: FinalMidpoints)
    requires OnHalfDegreeGrid(midpoint) && OnHalfDegreeGrid(c)
    ensures midpoint >= -Turn && c >= -Turn ==>
      0 <= f.finalClockwise < Turn && 0 <= f.finalCounterclockwise < Turn
  {
    var angle1, angle2 := NormalizeAngle(midpoint), NormalizeAngle(c);
    var clockwiseDifference := FixUp(angle1 - angle2);
    var counterclockwiseDifference := FixUp(angle2 - angle1);
    FinalMidpoints(JsRemTurn(angle2 + clockwiseDifference / 2), JsRemTurn(angle1 + counterclockwiseDifference / 2))
  }

  /** The final midpoint is the ordinary midpoint under other field names. */
  lemma FinalMidpointIsMidpoint(midpoint: Angle, c: Angle)
    requires OnHalfDegreeGrid(midpoint) && OnHalfDegreeGrid(c)
    ensures var m := CalculateMidpointAngle(midpoint, c);
      CalculateFinalMidpoint(midpoint, c) == FinalMidpoints(m.clockwise, m.counterclockwise)
  {
  }

  // ---------------------------------------------------------------------------
  // The smallest sector

  datatype Arc = ClockwiseArc | CounterclockwiseArc

  datatype Sector = Sector(arc: Arc, start: Angle, end: Angle, angle: Angle)

  /**
   * `calculateSmallestSector`: the shorter of the two arcs between the
   * normalised endpoints, running from `start` up by `angle` to `end`; a tie
   * (two half turns, or coinciding endpoints) goes to the clockwise arc.
   */
  function CalculateSmallestSector(start: Angle, end: Angle): (s: Sector)
    ensures s.angle <= HalfTurn
    ensures (s.start + s.angle - s.end) % Turn == 0
    ensures s.arc == ClockwiseArc ==> s.start == NormalizeAngle(start) && s.end == NormalizeAngle(end)
    ensures s.arc == CounterclockwiseArc ==>
      s.start == NormalizeAngle(end) && s.end == NormalizeAngle(start) && s.angle < HalfTurn
    ensures NormalizeAngle(start) == NormalizeAngle(end) ==> s.arc == ClockwiseArc && s.angle == 0
  {
    var start', end' := NormalizeAngle(start), NormalizeAngle(end);
    var clockwiseDistance := FixUp(end' - start');
    var counterclockwiseDistance := FixUp(start' - end');
    if clockwiseDistance <= counterclockwiseDistance then
      Sector(ClockwiseArc, start', end', clockwiseDistance)
    else
      Sector(CounterclockwiseArc, end', start', counterclockwiseDistance)
  }

  /** For endpoints of at least minus one turn the reported arc is the shorter of the two arcs. */
  lemma SmallestSectorIsShorterArc(start: Angle, end: Angle)
    requires start >= -Turn && end >= -Turn
    ensures var s, start', end' := CalculateSmallestSector(start, end), NormalizeAngle(start), NormalizeAngle(end);
      && 0 <= s.start < Turn && 0 <= s.end < Turn
      && s.angle == ForwardDistance(s.start, s.end)
      && s.angle <= ForwardDistance(start', end')
      && s.angle <= ForwardDistance(end', start')
  {
    FixedUpDifferences(NormalizeAngle(end), NormalizeAngle(start));
    FixedUpDifferences(NormalizeAngle(start), NormalizeAngle(end));
  }

  // ---------------------------------------------------------------------------
  // The whole pipeline

  /** Lines 139-146: the caller shifts only when it finds the counterclockwise orientation. */
  function ShiftedAngles(a: Angle, b: Angle, c: Angle, trig: Trig): Triple
  {
    if CalculateOrientation(a, b, c, trig) == Counterclockwise then CalculateShift(a, b, c, trig) else Triple(a, b, c)
  }

  /** The caller's guard repeats the one inside `calculateShift`, so it changes nothing. */
  lemma CallerGuardIsRedundant(a: Angle, b: Angle, c: Angle, trig: Trig)
    ensures ShiftedAngles(a, b, c, trig) == CalculateShift(a, b, c, trig)
  {
  }

  /** Every value `calculateLuckySector` computes on its way to the string. */
  datatype Stages = Stages(
    angles: Triple,
    orientation: Orientation,
    shifted: Triple,
    midpoints: Midpoints,
    chosen: Angle,
    finalMidpoints: FinalMidpoints,
    sector: Sector)

  /**
   * Lines 134-152, from the scaled odds `a`, `b`, `c` (`Math.round(odds * 10)`)
   * to the smallest sector between the shifted C and the midpoint of the
   * shifted A and B that the orientation selects.
   */
  function LuckySectorStages(a: int, b: int, c: int, trig: Trig): (st: Stages)
    ensures st.chosen == if st.orientation == Counterclockwise then st.midpoints.counterclockwise else st.midpoints.clockwise
    ensures st.sector == CalculateSmallestSector(st.shifted.c, st.chosen)
  {
    var angles := Triple(ConvertUserInputToAngle(a), ConvertUserInputToAngle(b), ConvertUserInputToAngle(c));
    var orientation := CalculateOrientation(angles.a, angles.b, angles.c, trig);
    var shifted := ShiftedAngles(angles.a, angles.b, angles.c, trig);
    CallerGuardIsRedundant(angles.a, angles.b, angles.c, trig);
    ShiftKeepsWholeDegrees(angles.a, angles.b, angles.c, trig);
    WholeDegreesAreHalfDegrees(shifted.a);
    WholeDegreesAreHalfDegrees(shifted.b);
    WholeDegreesAreHalfDegrees(shifted.c);
    MidpointOnHalfDegreeGrid(shifted.a, shifted.b);
    var midpoints := CalculateMidpointAngle(shifted.a, shifted.b);
    var chosen := if orientation == Counterclockwise then midpoints.counterclockwise else midpoints.clockwise;
    var finalMidpoints := CalculateFinalMidpoint(chosen, shifted.c);
    var sector := CalculateSmallestSector(shifted.c, chosen);
    Stages(angles, orientation, shifted, midpoints, chosen, finalMidpoints, sector)
  }

  /**
   * For non-negative scaled odds (what `Math.round(odds * 10)` gives for
   * positive odds) every stage stays within one turn and the sector is at most
   * half a turn; in the counterclockwise case the sector starts or ends at A.
   */
  lemma LuckySectorInRange(a: int, b: int, c: int, trig: Trig)
    requires a >= 0 && b >= 0 && c >= 0
    ensures var st := LuckySectorStages(a, b, c, trig);
      && 0 <= st.chosen < Turn
      && 0 <= st.sector.start < Turn && 0 <= st.sector.end < Turn
      && 0 <= st.sector.angle <= HalfTurn
      && (st.orientation == Counterclockwise ==> st.shifted.c == NormalizeAngle(st.angles.a))
      && (st.orientation != Counterclockwise ==> st.shifted == st.angles)
  {
    var st := LuckySectorStages(a, b, c, trig);
    var A, B, C := st.angles.a, st.angles.b, st.angles.c;
    assert A >= 0 && B >= 0 && C >= 0;
    if st.orientation == Counterclockwise {
      RotationOfNonNegativeAngles(A, B, C);
    }
    SmallestSectorIsShorterArc(st.shifted.c, st.chosen);
  }

  /** With two equal looked-up angles nothing is shifted and the clockwise midpoint is used. */
  lemma RepeatedAngleUsesClockwiseMidpoint(a: int, b: int, c: int, trig: Trig)
    requires var A, B, C := ConvertUserInputToAngle(a), ConvertUserInputToAngle(b), ConvertUserInputToAngle(c);
      A == B || B == C || A == C
    ensures var st := LuckySectorStages(a, b, c, trig);
      st.orientation == Collinear && st.shifted == st.angles && st.chosen == st.midpoints.clockwise
  {
    var st := LuckySectorStages(a, b, c, trig);
    RepeatedAngleIsCollinear(st.angles.a, st.angles.b, st.angles.c, trig);
  }

  // ---------------------------------------------------------------------------
  // Formatting

  /** `Math.round`-free rounding of `toFixed(0)` on a magnitude: to the nearest degree, halves up. */
  function RoundToDegree(q: nat): (n: nat)
    ensures -2 <= q - 4 * n < 2
  {
    (q + 2) / 4
  }

  /** `toFixed(0)` of the angle in degrees: a minus sign below zero, then the rounded magnitude. */
  function ToFixed0(x: Angle): string
  {
    if x < 0 then "-" + Text.DecimalString(RoundToDegree(-x)) else Text.DecimalString(RoundToDegree(x))
  }

  /** A non-negative angle prints as the digits of its nearest whole degree. */
  lemma ToFixed0OfNonNegative(x: Angle)
    requires x >= 0
    ensures var t := ToFixed0(x);
      && (forall i :: 0 <= i < |t| ==> '0' <= t[i] <= '9')
      && -2 <= x - 4 * Text.DecimalValue(t) < 2
  {
    Text.DecimalRoundTrip(RoundToDegree(x));
  }

  function ArcName(arc: Arc): string
  {
    match arc
    case ClockwiseArc => "clockwise"
    case CounterclockwiseArc => "counterclockwise"
  }

  /** The template of line 154. */
  function RenderSector(s: Sector): string
  {
    ArcName(s.arc) + " from " + ToFixed0(s.start) + "° to " + ToFixed0(s.end) + "° with angle " + ToFixed0(s.angle) + "°"
  }

  /** Lines 130-132, `Math.round(odds * 10)` on exact reals: positive odds give a non-negative table input. */
  function ScaleOdds(odds: real): (n: int)
    ensures odds * 10.0 - 0.5 < n as real <= odds * 10.0 + 0.5
    ensures odds > 0.0 ==> n >= 0
  {
    Prediction.MathRound(odds * 10.0)
  }

  /**
   * `calculateLuckySector`: the odds are scaled and run through the stages;
   * only the smallest sector reaches the string, the final midpoints do not.
   */
  function CalculateLuckySector(homeOdds: real, drawOdds: real, awayOdds: real, trig: Trig): string
  {
    RenderSector(LuckySectorStages(ScaleOdds(homeOdds), ScaleOdds(drawOdds), ScaleOdds(awayOdds), trig).sector)
  }

  /**
   * `t` is what `toFixed(0)` prints for the angle `x`: decimal digits whose
   * value is `x` rounded to a whole degree, and at most `most`.
   */
  predicate PrintsDegrees(t: string, x: Angle, most: nat)
  {
    && (forall i :: 0 <= i < |t| ==> '0' <= t[i] <= '9')
    && Text.DecimalValue(t) <= most
    && -2 <= x - 4 * Text.DecimalValue(t) < 2
  }

  /** A non-negative angle of at most `4 * most + 1` quarter-degrees prints as at most `most` whole degrees. */
  lemma PrintsBoundedDegrees(x: Angle, most: nat)
    requires 0 <= x <= 4 * most + 1
    ensures PrintsDegrees(ToFixed0(x), x, most)
  {
    ToFixed0OfNonNegative(x);
    Text.DecimalRoundTrip(RoundToDegree(x));
  }

  /**
   * End to end, for positive odds: the text names the arc, then prints the
   * start and the end as whole degrees from 0 to 360 and the angle as whole
   * degrees from 0 to 180, each the rounded value of the sector's own. In the
   * counterclockwise case the sector begins or ends at the direction of A.
   */
  lemma LuckySectorText(homeOdds: real, drawOdds: real, awayOdds: real, trig: Trig)
    requires homeOdds > 0.0 && drawOdds > 0.0 && awayOdds > 0.0
    ensures var st := LuckySectorStages(ScaleOdds(homeOdds), ScaleOdds(drawOdds), ScaleOdds(awayOdds), trig);
      var s := st.sector;
      && CalculateLuckySector(homeOdds, drawOdds, awayOdds, trig)
           == ArcName(s.arc) + " from " + ToFixed0(s.start) + "° to " + ToFixed0(s.end) + "° with angle " + ToFixed0(s.angle) + "°"
      && PrintsDegrees(ToFixed0(s.start), s.start, 360)
      && PrintsDegrees(ToFixed0(s.end), s.end, 360)
      && PrintsDegrees(ToFixed0(s.angle), s.angle, 180)
      && (st.orientation == Counterclockwise ==>
            (if s.arc == ClockwiseArc then s.start else s.end) == NormalizeAngle(st.angles.a))
  {
    var a, b, c := ScaleOdds(homeOdds), ScaleOdds(drawOdds), ScaleOdds(awayOdds);
    var st := LuckySectorStages(a, b, c, trig);
    LuckySectorInRange(a, b, c, trig);
    PrintsBoundedDegrees(st.sector.start, 360);
    PrintsBoundedDegrees(st.sector.end, 360);
    PrintsBoundedDegrees(st.sector.angle, 180);
    if st.orientation == Counterclockwise {
      NormalizeIdempotent(st.shifted.c);
    }
  }

  /**
   * Odds beyond the table (here 100.0, scaled to 1000) look up to more than
   * a turn, so `normalizeAngle(A - C)` gets an argument below minus one turn
   * and the shift comes out negative.
   */
  lemma LongOddsGiveNegativeShift()
    ensures ScaleOdds(4.5) == 45 && ScaleOdds(100.0) == 1000
    ensures NormalizeAngle(ConvertUserInputToAngle(ScaleOdds(4.5)) - ConvertUserInputToAngle(ScaleOdds(100.0))) < 0
  {
    assert ConvertUserInputToAngle(45) == Degrees(315);
    assert ConvertUserInputToAngle(1000) == Degrees(1000);
    NormalizeNegativeBelowOneTurn(Degrees(315) - Degrees(1000));
  }

  /** The string names the arc it describes: it starts with "clockwise" exactly for the clockwise arc. */
  lemma RenderedArcIsRecoverable(s: Sector)
    ensures Text.StartsWith(RenderSector(s), "clockwise") <==> s.arc == ClockwiseArc
  {
    var rest := " from " + ToFixed0(s.start) + "° to " + ToFixed0(s.end) + "° with angle " + ToFixed0(s.angle) + "°";
    assert RenderSector(s) == ArcName(s.arc) + rest;
    if s.arc == ClockwiseArc {
      assert RenderSector(s)[..9] == "clockwise";
    } else {
      assert RenderSector(s)[1] == 'o';
    }
  }

  /** The digits of a three-digit number, one division at a time. */
  lemma DecimalDigits(n: nat)
    requires 100 <= n < 1000
    ensures Text.DecimalString(n) == [Text.DigitChar(n / 100), Text.DigitChar(n / 10 % 10), Text.DigitChar(n % 10)]
  {
    assert Text.DecimalString(n / 100) == [Text.DigitChar(n / 100)];
    assert Text.DecimalString(n / 10) == [Text.DigitChar(n / 100), Text.DigitChar(n / 10 % 10)];
  }

  /** The clockwise midpoint of 135 and 180 degrees is 337.5 degrees. */
  lemma MidpointOf135And180()
    ensures CalculateMidpointAngle(540, 720).clockwise == 1350
  {
    NormalizeIdempotent(540);
    NormalizeIdempotent(720);
  }

  /** From 180 to 337.5 degrees the clockwise arc, 157.5 degrees, is the shorter one. */
  lemma SectorFrom180To337()
    ensures CalculateSmallestSector(720, 1350) == Sector(ClockwiseArc, 720, 1350, 630)
  {
    NormalizeIdempotent(720);
    NormalizeIdempotent(1350);
  }

  /** The stages for scaled inputs 25, 32, 28: the clockwise midpoint of 135 and 180 degrees. */
  lemma ManchesterUnitedChelseaSector(trig: Trig)
    ensures LuckySectorStages(25, 32, 28, trig).sector == Sector(ClockwiseArc, 720, 1350, 630)
  {
    assert ConvertUserInputToAngle(25) == 540;
    assert ConvertUserInputToAngle(32) == 720;
    assert ConvertUserInputToAngle(28) == 720;
    RepeatedAngleUsesClockwiseMidpoint(25, 32, 28, trig);
    MidpointOf135And180();
    SectorFrom180To337();
  }

  /** The sector of 180 to 338 degrees as the user sees it. */
  lemma ManchesterUnitedChelseaText()
    ensures RenderSector(Sector(ClockwiseArc, 720, 1350, 630)) == "clockwise" + " from " + "180" + "° to " + "338" + "° with angle " + "158" + "°"
  {
    Prints180();
    Prints338();
    Prints158();
  }

  lemma Prints180()
    ensures ToFixed0(720) == "180"
  {
    DecimalDigits(180);
  }

  lemma Prints338()
    ensures ToFixed0(1350) == "338"
  {
    DecimalDigits(338);
  }

  lemma Prints158()
    ensures ToFixed0(630) == "158"
  {
    DecimalDigits(158);
  }

  /** Odds 2.5, 3.2, 2.8 scale to 25, 32, 28, look up to 135, 180, 180 degrees, and are collinear. */
  lemma ExampleManchesterUnitedChelsea(trig: Trig)
    ensures CalculateLuckySector(2.5, 3.2, 2.8, trig) == "clockwise" + " from " + "180" + "° to " + "338" + "° with angle " + "158" + "°"
  {
    assert ScaleOdds(2.5) == 25 && ScaleOdds(3.2) == 32 && ScaleOdds(2.8) == 28;
    ManchesterUnitedChelseaSector(trig);
    ManchesterUnitedChelseaText();
  }

  /** The clockwise midpoint of 45 and 0 degrees is 22.5 degrees. */
  lemma MidpointOf45And0()
    ensures CalculateMidpointAngle(180, 0).clockwise == 90
  {
    NormalizeIdempotent(180);
    NormalizeIdempotent(0);
  }

  /** From 0 to 22.5 degrees the clockwise arc is the shorter one. */
  lemma SectorFrom0To22()
    ensures CalculateSmallestSector(0, 90) == Sector(ClockwiseArc, 0, 90, 90)
  {
    NormalizeIdempotent(0);
    NormalizeIdempotent(90);
  }

  /** The stages for scaled inputs 1, 4, 14: the clockwise midpoint of 45 and 0 degrees. */
  lemma CollinearSectorStages(trig: Trig)
    ensures LuckySectorStages(1, 4, 14, trig).sector == Sector(ClockwiseArc, 0, 90, 90)
  {
    assert ConvertUserInputToAngle(1) == 180;
    assert ConvertUserInputToAngle(4) == 0;
    assert ConvertUserInputToAngle(14) == 0;
    RepeatedAngleUsesClockwiseMidpoint(1, 4, 14, trig);
    MidpointOf45And0();
    SectorFrom0To22();
  }

  /** The sector of 0 to 23 degrees as the user sees it. */
  lemma CollinearSectorText()
    ensures RenderSector(Sector(ClockwiseArc, 0, 90, 90)) == "clockwise" + " from " + "0" + "° to " + "23" + "° with angle " + "23" + "°"
  {
    assert Text.DecimalString(23) == "23";
  }

  /** Odds 0.1, 0.4, 1.4 scale to 1, 4, 14 and look up to 45, 0, 0 degrees: collinear, yet the sector is not empty. */
  lemma ExampleCollinearSector(trig: Trig)
    ensures CalculateLuckySector(0.1, 0.4, 1.4, trig) == "clockwise" + " from " + "0" + "° to " + "23" + "° with angle " + "23" + "°"
  {
    assert ScaleOdds(0.1) == 1 && ScaleOdds(0.4) == 4 && ScaleOdds(1.4) == 14;
    CollinearSectorStages(trig);
    CollinearSectorText();
  }

  // ---------------------------------------------------------------------------
  // Helpers the source defines but never calls

  /** `roundUpToNextTens`: `Math.ceil(angle / 10) * 10`. */
  function RoundUpToNextTens(x: Angle): (r: Angle)
    ensures r % Degrees(10) == 0
    ensures x <= r < x + Degrees(10)
  {
    -((-x) / Degrees(10)) * Degrees(10)
  }

  /** `angleToLuckyValueMapping`, keyed by whole degrees. */
  function LuckyValueOfDegrees(d: int): Option<int>
  {
    match d
    case 0 => Some(0)     case 10 => Some(26)   case 20 => Some(3)    case 30 => Some(35)
    case 40 => Some(12)   case 50 => Some(28)   case 60 => Some(7)    case 70 => Some(29)
    case 80 => Some(18)   case 90 => Some(22)   case 100 => Some(9)   case 110 => Some(31)
    case 120 => Some(14)  case 130 => Some(20)  case 140 => Some(1)   case 150 => Some(33)
    case 160 => Some(16)  case 170 => Some(24)  case 180 => Some(5)   case 190 => Some(10)
    case 200 => Some(23)  case 210 => Some(8)   case 220 => Some(30)  case 230 => Some(11)
    case 240 => Some(36)  case 250 => Some(13)  case 260 => Some(27)  case 270 => Some(6)
    case 280 => Some(34)  case 290 => Some(17)  case 300 => Some(25)  case 310 => Some(2)
    case 320 => Some(21)  case 330 => Some(4)   case 340 => Some(19)  case 350 => Some(15)
    case 360 => Some(32)
    case _ => None
  }

  /** Looking up an angle: only whole degrees can be keys. */
  function LuckyValue(x: Angle): Option<int>
  {
    if x % 4 == 0 then LuckyValueOfDegrees(x / 4) else None
  }

  /** The degree of each lucky value 0..36: the table read backwards. */
  const LuckyDegrees: seq<int> := [
    0, 140, 310, 20, 330, 180, 270, 60, 210, 100, 190, 230, 40, 250, 120, 350, 160, 290, 80,
    340, 130, 320, 90, 200, 170, 300, 10, 260, 50, 70, 220, 110, 360, 150, 280, 30, 240]

  /** The keys are exactly the 37 multiples of ten from 0 to 360. */
  lemma LuckyTableKeys(d: int)
    ensures LuckyValueOfDegrees(d).Some? <==> 0 <= d <= 360 && d % 10 == 0
  {
    if 0 <= d <= 360 && d % 10 == 0 {
      var k := d / 10;
      assert d == 10 * k && 0 <= k <= 36;
    }
  }

  /** Each key's value is a wheel number whose entry in the inverse table is that key. */
  lemma LuckyTableInverse(d: int)
    ensures LuckyValueOfDegrees(d).Some? ==>
      0 <= LuckyValueOfDegrees(d).value <= 36 && LuckyDegrees[LuckyValueOfDegrees(d).value] == d
  {
  }

  /** Every wheel number 0..36 is the value of exactly one key: the table is one-to-one and onto. */
  lemma LuckyTableOnto(v: int)
    requires 0 <= v <= 36
    ensures LuckyValueOfDegrees(LuckyDegrees[v]) == Some(v)
  {
  }
}

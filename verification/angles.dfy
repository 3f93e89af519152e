/** Angle units: `TRadians`, `TDegrees`, `TAngle` and the literal proxies
    `RadiansProxy` / `DegreesProxy`.

    Each unit type wraps one scalar `Value`.  Radians become degrees through
    the factor 180/pi and degrees become radians through pi/180, with pi the
    library constant `Constants::PI`.  `TAngle` keeps only radians: built
    from degrees it converts once, and it reads degrees back by converting
    again.  Over the reals the two conversions are exact inverses, so every
    comparison below means "the same angle", whichever unit each side uses. */
module Angles {
  import opened Elementwise

  /** `Constants::PI`: the 32-digit literal the library converts to each precision. */
  const Pi: real := 3.1415926535897932384626433832795

  // The free scalar conversions.

  /** `ToRadians(value)`: degrees to radians, by the factor pi/180. */
  function ScalarToRadians(degrees: real): (radians: real)
    ensures radians * 180.0 == degrees * Pi
  {
    degrees * (Pi / 180.0)
  }

  /** `ToDegrees(value)`: radians to degrees, by the factor 180/pi. */
  function ScalarToDegrees(radians: real): (degrees: real)
    ensures degrees * Pi == radians * 180.0
  {
    radians * (180.0 / Pi)
  }

  /** The two conversions are inverse bijections of the reals: a value in
      degrees and a value in radians name the same angle exactly when either
      conversion maps one onto the other. */
  lemma ConversionsAreInverse(degrees: real, radians: real)
    ensures ScalarToRadians(degrees) == radians <==> ScalarToDegrees(radians) == degrees
    ensures ScalarToDegrees(ScalarToRadians(degrees)) == degrees
    ensures ScalarToRadians(ScalarToDegrees(radians)) == radians
  {
    var up, down := 180.0 / Pi, Pi / 180.0;
    assert up * down == 1.0;
    assert ScalarToDegrees(ScalarToRadians(degrees)) == degrees * (down * up);
    assert ScalarToRadians(ScalarToDegrees(radians)) == radians * (up * down);
  }

  /** Both conversions are linear: they commute with sums, differences and
      integer scaling. */
  lemma ConversionsAreLinear(x: real, y: real, k: int)
    ensures ScalarToRadians(x + y) == ScalarToRadians(x) + ScalarToRadians(y)
    ensures ScalarToRadians(x - y) == ScalarToRadians(x) - ScalarToRadians(y)
    ensures ScalarToRadians(x * k as real) == ScalarToRadians(x) * k as real
    ensures ScalarToDegrees(x + y) == ScalarToDegrees(x) + ScalarToDegrees(y)
    ensures ScalarToDegrees(x - y) == ScalarToDegrees(x) - ScalarToDegrees(y)
    ensures ScalarToDegrees(x * k as real) == ScalarToDegrees(x) * k as real
  {
  }

  /** 180 degrees is pi and 2 pi radians is 360 degrees, exactly. */
  lemma ScalarConversionFixtures()
    ensures ScalarToRadians(180.0) == Pi
    ensures ScalarToDegrees(2.0 * Pi) == 360.0
  {
  }

  // The unit types.

  /** `TRadians<T>`: the `Value` is an angle in radians. */
  datatype Radians = Radians(value: real)

  /** `TDegrees<T>`: the `Value` is an angle in degrees. */
  datatype Degrees = Degrees(value: real)

  /** `TAngle<T>`: an angle kept in radians, whatever unit built it. */
  datatype Angle = Angle(stored: Radians)

  /** The default constructors hold zero. */
  function DefaultRadians(): (r: Radians)
    ensures r.value == 0.0
  {
    Radians(0.0)
  }

  function DefaultDegrees(): (d: Degrees)
    ensures d.value == 0.0
  {
    Degrees(0.0)
  }

  /** `TRadians::ToDegrees`. */
  function ToDegrees(r: Radians): (d: Degrees)
    ensures d.value * Pi == r.value * 180.0
  {
    Degrees(ScalarToDegrees(r.value))
  }

  /** `TDegrees::ToRadians`. */
  function ToRadians(d: Degrees): (r: Radians)
    ensures r.value * 180.0 == d.value * Pi
  {
    Radians(ScalarToRadians(d.value))
  }

  /** Converting to the other unit and back gives the original value. */
  lemma UnitRoundTrips(r: Radians, d: Degrees)
    ensures ToRadians(ToDegrees(r)) == r
    ensures ToDegrees(ToRadians(d)) == d
  {
    ConversionsAreInverse(d.value, r.value);
  }

  /** The default `TAngle` is zero in both units. */
  function DefaultAngle(): (a: Angle)
    ensures AngleToRadians(a).value == 0.0 && AngleToDegrees(a).value == 0.0
  {
    Angle(DefaultRadians())
  }

  /** `TAngle(TRadians)`: keeps the radians as given. */
  function AngleFromRadians(r: Radians): (a: Angle)
    ensures AngleToRadians(a) == r
  {
    Angle(r)
  }

  /** `TAngle(TDegrees)`: stores `degrees.ToRadians()`; reading the degrees
      back gives the value it was built from. */
  function AngleFromDegrees(d: Degrees): (a: Angle)
    ensures AngleToRadians(a) == ToRadians(d)
    ensures AngleToDegrees(a) == d
  {
    UnitRoundTrips(Radians(0.0), d);
    Angle(ToRadians(d))
  }

  /** `TAngle::ToRadians`: the stored value. */
  function AngleToRadians(a: Angle): Radians {
    a.stored
  }

  /** `TAngle::ToDegrees`: recomputed from the stored radians. */
  function AngleToDegrees(a: Angle): (d: Degrees)
    ensures ToRadians(d) == AngleToRadians(a)
  {
    UnitRoundTrips(a.stored, Degrees(0.0));
    ToDegrees(a.stored)
  }

  // Comparisons.  Every unit type declares `==` and `!=` against all three.

  /** One operand of a comparison: a value of any of the three unit types. */
  datatype Operand = OfRadians(r: Radians) | OfDegrees(d: Degrees) | OfAngle(a: Angle)

  /** The operand in radians: the conversion a radians-side comparison applies. */
  function InRadians(x: Operand): real {
    match x
    case OfRadians(r) => r.value
    case OfDegrees(d) => ToRadians(d).value
    case OfAngle(a) => AngleToRadians(a).value
  }

  /** The operand in degrees: the conversion a degrees-side comparison applies. */
  function InDegrees(x: Operand): (v: real)
    ensures v == ScalarToDegrees(InRadians(x))
  {
    match x
    case OfRadians(r) => ToDegrees(r).value
    case OfDegrees(d) =>
      ConversionsAreInverse(d.value, 0.0);
      d.value
    case OfAngle(a) => AngleToDegrees(a).value
  }

  /** `lhs == rhs`.  A `TRadians` or `TAngle` left operand compares its
      radians with the right operand converted to radians; a `TDegrees` left
      operand compares degrees.  Either way the comparison holds exactly when
      both sides are the same angle, measured in either unit. */
  function Equal(lhs: Operand, rhs: Operand): (b: bool)
    ensures b <==> InRadians(lhs) == InRadians(rhs)
    ensures b <==> InDegrees(lhs) == InDegrees(rhs)
  {
    ConversionsAreInverse(InDegrees(lhs), InRadians(lhs));
    ConversionsAreInverse(InDegrees(rhs), InRadians(rhs));
    match lhs
    case OfRadians(r) => r.value == InRadians(rhs)
    case OfDegrees(d) => d.value == InDegrees(rhs)
    case OfAngle(a) => a.stored.value == InRadians(rhs)
  }

  /** `lhs != rhs`: each overload is the negation of the matching `==`. */
  function NotEqual(lhs: Operand, rhs: Operand): (b: bool)
    ensures b <==> !Equal(lhs, rhs)
  {
    match lhs
    case OfRadians(r) => r.value != InRadians(rhs)
    case OfDegrees(d) => d.value != InDegrees(rhs)
    case OfAngle(a) => a.stored.value != InRadians(rhs)
  }

  /** Equality across the three unit types is an equivalence: it does not
      depend on which side is written first, and it chains. */
  lemma EqualIsAnEquivalence(x: Operand, y: Operand, z: Operand)
    ensures Equal(x, x)
    ensures Equal(x, y) == Equal(y, x)
    ensures Equal(x, y) && Equal(y, z) ==> Equal(x, z)
  {
  }

  /** Two `TAngle`s are equal exactly when they are the same value, and an
      angle built from degrees equals those degrees and their radians. */
  lemma AngleEquality(a: Angle, b: Angle, d: Degrees)
    ensures Equal(OfAngle(a), OfAngle(b)) <==> a == b
    ensures Equal(OfAngle(AngleFromDegrees(d)), OfDegrees(d))
    ensures Equal(OfAngle(AngleFromDegrees(d)), OfRadians(ToRadians(d)))
  {
  }

  // Arithmetic.  `+ - * /` (and their compound forms) combine the values of
  // two operands of the same unit.

  function RadiansArithmetic(op: Op, a: Radians, b: Radians): Radians
    requires Defined(op, b.value)
  {
    Radians(Apply(op, a.value, b.value))
  }

  function DegreesArithmetic(op: Op, a: Degrees, b: Degrees): Degrees
    requires Defined(op, b.value)
  {
    Degrees(Apply(op, a.value, b.value))
  }

  /** Sums and differences do not depend on the unit they are taken in, and a
      quotient of two angles is the same number in either unit. */
  lemma ArithmeticAgreesAcrossUnits(a: Radians, b: Radians)
    ensures ToDegrees(RadiansArithmetic(Plus, a, b)) == DegreesArithmetic(Plus, ToDegrees(a), ToDegrees(b))
    ensures ToDegrees(RadiansArithmetic(Minus, a, b)) == DegreesArithmetic(Minus, ToDegrees(a), ToDegrees(b))
    ensures b.value != 0.0 ==>
      DegreesArithmetic(Over, ToDegrees(a), ToDegrees(b)).value == RadiansArithmetic(Over, a, b).value
  {
    ConversionsAreLinear(a.value, b.value, 0);
    if b.value != 0.0 {
      var f := 180.0 / Pi;
      assert ToDegrees(b).value == b.value * f;
      QuotientIgnoresCommonFactor(a.value, b.value, f);
    }
  }

  lemma QuotientIgnoresCommonFactor(x: real, y: real, f: real)
    requires y != 0.0 && f != 0.0
    ensures (x * f) / (y * f) == x / y
  {
  }

  // The literal proxies.

  /** Which unit a proxy's value is in: `_rad` or `_deg`. */
  datatype Unit = InRadiansUnit | InDegreesUnit

  /** `RadiansProxy` and `DegreesProxy`: the raw literal value, before it
      becomes a unit type. */
  datatype Proxy = Proxy(unit: Unit, value: real)

  /** `operator""_rad` and `operator""_deg`, for floating literals. */
  function Literal(unit: Unit, value: real): (p: Proxy)
    ensures p.unit == unit && p.value == value
  {
    Proxy(unit, value)
  }

  /** The integer-literal forms: the digits are read as a floating value. */
  function IntegerLiteral(unit: Unit, value: nat): (p: Proxy)
    ensures p == Literal(unit, value as real)
  {
    Proxy(unit, value as real)
  }

  /** Proxy `+` and `-`: declared only between proxies of the same unit. */
  function AddProxies(p: Proxy, q: Proxy): (r: Proxy)
    requires p.unit == q.unit
    ensures r.unit == p.unit
  {
    Proxy(p.unit, p.value + q.value)
  }

  function SubtractProxies(p: Proxy, q: Proxy): (r: Proxy)
    requires p.unit == q.unit
    ensures r.unit == p.unit
  {
    Proxy(p.unit, p.value - q.value)
  }

  /** Proxy `*` and `/` by an integer scale the value; the unit is kept. */
  function ScaleProxy(p: Proxy, k: int): (r: Proxy)
    ensures r.unit == p.unit
  {
    Proxy(p.unit, p.value * k as real)
  }

  function DivideProxy(p: Proxy, k: int): (r: Proxy)
    requires k != 0
    ensures r.unit == p.unit
  {
    Proxy(p.unit, p.value / k as real)
  }

  /** `operator Radians()` of a radians proxy and `operator Degrees()` of a
      degrees proxy. */
  function ProxyToRadians(p: Proxy): Radians
    requires p.unit == InRadiansUnit
  {
    Radians(p.value)
  }

  function ProxyToDegrees(p: Proxy): Degrees
    requires p.unit == InDegreesUnit
  {
    Degrees(p.value)
  }

  /** `operator Angle()`: through the proxy's own unit type. */
  function ProxyToAngle(p: Proxy): (a: Angle)
    ensures p.unit == InRadiansUnit ==> AngleToRadians(a).value == p.value
    ensures p.unit == InDegreesUnit ==> AngleToDegrees(a).value == p.value
  {
    match p.unit
    case InRadiansUnit => AngleFromRadians(ProxyToRadians(p))
    case InDegreesUnit => AngleFromDegrees(ProxyToDegrees(p))
  }

  /** Adding or subtracting proxies and then converting is the same as
      converting and then using the unit type's own `+` or `-`. */
  lemma ProxyArithmeticMatchesUnitArithmetic(p: Proxy, q: Proxy)
    requires p.unit == q.unit == InRadiansUnit
    ensures ProxyToRadians(AddProxies(p, q)) == RadiansArithmetic(Plus, ProxyToRadians(p), ProxyToRadians(q))
    ensures ProxyToRadians(SubtractProxies(p, q)) == RadiansArithmetic(Minus, ProxyToRadians(p), ProxyToRadians(q))
  {
  }

  /** Dividing by the integer a proxy was scaled by restores it, and
      subtracting what was added restores it. */
  lemma ProxyScalingInverts(p: Proxy, q: Proxy, k: int)
    requires k != 0 && p.unit == q.unit
    ensures DivideProxy(ScaleProxy(p, k), k) == p
    ensures SubtractProxies(AddProxies(p, q), q) == p
  {
    assert p.value * k as real / k as real == p.value;
  }

  /** An angle written in degrees and one written in radians compare equal
      exactly when the degrees literal converts to the radians literal. */
  lemma ProxyAnglesCompareAcrossUnits(x: real, y: real)
    ensures Equal(OfAngle(ProxyToAngle(Literal(InDegreesUnit, x))), OfAngle(ProxyToAngle(Literal(InRadiansUnit, y))))
      <==> ScalarToRadians(x) == y
  {
  }

  // The checked values.

  predicate Approximately(x: real, y: real) {
    -0.001 < x - y < 0.001
  }

  lemma DefaultFixtures()
    ensures DefaultRadians().value == 0.0 && DefaultDegrees().value == 0.0
    ensures AngleToRadians(DefaultAngle()).value == 0.0 && AngleToDegrees(DefaultAngle()).value == 0.0
  {
  }

  lemma ProxyFixtures()
    ensures ProxyToRadians(AddProxies(IntegerLiteral(InRadiansUnit, 45), IntegerLiteral(InRadiansUnit, 3))).value == 48.0
    ensures ProxyToRadians(SubtractProxies(IntegerLiteral(InRadiansUnit, 45), IntegerLiteral(InRadiansUnit, 3))).value == 42.0
    ensures ProxyToRadians(ScaleProxy(IntegerLiteral(InRadiansUnit, 45), 3)).value == 135.0
    ensures ProxyToRadians(DivideProxy(IntegerLiteral(InRadiansUnit, 45), 3)).value == 15.0
    ensures RadiansArithmetic(Times, Radians(45.0), Radians(3.0)).value == 135.0
    ensures RadiansArithmetic(Over, Radians(45.0), Radians(3.0)).value == 15.0
  {
  }

  lemma AngleFixtures()
    ensures AngleToRadians(ProxyToAngle(Literal(InRadiansUnit, 45.0))).value == 45.0
    ensures AngleToDegrees(ProxyToAngle(IntegerLiteral(InDegreesUnit, 45))).value == 45.0
    ensures Equal(OfAngle(ProxyToAngle(IntegerLiteral(InDegreesUnit, 45))), OfAngle(ProxyToAngle(IntegerLiteral(InDegreesUnit, 45))))
    ensures NotEqual(OfAngle(ProxyToAngle(IntegerLiteral(InDegreesUnit, 45))), OfAngle(ProxyToAngle(IntegerLiteral(InDegreesUnit, 90))))
  {
  }

  /** The conversion values the tests compare within 0.001. */
  lemma ConversionFixtures()
    ensures Approximately(ToDegrees(Radians(45.0)).value, 2578.3100781)
    ensures Approximately(ToDegrees(Radians(1.0)).value, 57.2957795131)
    ensures Approximately(ToRadians(Degrees(90.32)).value, 1.5763813804)
    ensures Approximately(ToRadians(Degrees(360.0)).value, 6.2831853072)
  {
  }
}

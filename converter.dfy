/**
 * The ellipsoidal forward and inverse transform of `latlng2minecraft/converter.py`, over the
 * reals. Trigonometry comes in as a `Math` value, so every property proved here holds whatever
 * values `sin`, `cos`, `sqrt` and `pow` return, as long as they obey `MathLib.Sound`.
 */
module Converter {
  import opened Outcomes
  import opened PyMath
  import opened Types

  /** WGS84 equatorial radius, in metres. */
  const EquatorialRadius: real := 6378137.0
  /** WGS84 first eccentricity squared. */
  const EccentricitySquared: real := 0.00669437999014
  /** The flat-earth length of one degree of latitude used by the inverse solve, in metres. */
  const MetresPerDegree: real := 111320.0
  /** The fixed number of corrections the inverse latitude solve applies. */
  const Iterations: nat := 3

  /** `1 - e² sin²φ`, the quantity under the root in both radii of curvature. */
  function Radicand(m: Math, phi: real): (r: real)
    ensures r >= 1.0 - EccentricitySquared
  {
    var s := m.sin(phi);
    assert s * s <= 1.0;
    assert EccentricitySquared * (s * s) <= EccentricitySquared;
    1.0 - EccentricitySquared * s * s
  }

  /** The meridional radius of curvature `a(1 - e²) / (1 - e² sin²φ)^1.5`: always positive. */
  function MeridionalRadius(m: Math, phi: real): (rho: real)
    ensures rho > 0.0
  {
    var q := Radicand(m, phi);
    var p := m.pow15(q);
    assert p > 0.0;
    EquatorialRadius * (1.0 - EccentricitySquared) / p
  }

  /**
   * `_meridional_arc_length`: the midpoint-curvature arc between a base latitude and a
   * latitude `delta` radians away. It is the positive radius times `delta`, so it has
   * exactly the sign of `delta`.
   */
  function MeridionalArcLength(m: Math, deltaLatRad: real, baseLatRad: real): (arc: real)
    ensures arc == MeridionalRadius(m, baseLatRad + deltaLatRad / 2.0) * deltaLatRad
    ensures arc == 0.0 <==> deltaLatRad == 0.0
    ensures arc > 0.0 <==> deltaLatRad > 0.0
    ensures arc < 0.0 <==> deltaLatRad < 0.0
  {
    var avgLatRad := baseLatRad + deltaLatRad / 2.0;
    var rho := MeridionalRadius(m, avgLatRad);
    PositiveTimes(rho, deltaLatRad);
    rho * deltaLatRad
  }

  /** Multiplying by a positive factor keeps the sign. */
  lemma PositiveTimes(k: real, d: real)
    requires k > 0.0
    ensures k * d == 0.0 <==> d == 0.0
    ensures k * d > 0.0 <==> d > 0.0
    ensures k * d < 0.0 <==> d < 0.0
  {
    if d > 0.0 {
      assert k * d > 0.0;
    } else if d < 0.0 {
      assert k * d < 0.0;
    }
  }

  /** Multiplying by a positive factor keeps the order. */
  lemma PositiveTimesMonotone(k: real, a: real, b: real)
    requires k > 0.0 && a <= b
    ensures k * a <= k * b
  {
    PositiveTimes(k, b - a);
    assert k * b - k * a == k * (b - a);
  }

  /**
   * `_parallel_radius`: `a cos φ / sqrt(1 - e² sin²φ)`. The root is always of a positive number,
   * so the radius has exactly the sign of `cos φ`.
   */
  function ParallelRadius(m: Math, latRad: real): (r: real)
    ensures r == 0.0 <==> m.cos(latRad) == 0.0
    ensures r > 0.0 <==> m.cos(latRad) > 0.0
    ensures r < 0.0 <==> m.cos(latRad) < 0.0
  {
    var root := m.sqrt(Radicand(m, latRad));
    assert root > 0.0;
    var c := m.cos(latRad);
    PositiveTimes(EquatorialRadius / root, c);
    assert EquatorialRadius * c / root == (EquatorialRadius / root) * c;
    EquatorialRadius * c / root
  }

  /** The unrounded northward distance of `latlng` from `base`: it has the sign of the latitude difference. */
  function NorthDistance(m: Math, latlng: LatLngPoint, base: LatLngPoint): (d: real)
    ensures d == 0.0 <==> latlng.latitude == base.latitude
    ensures d > 0.0 <==> latlng.latitude > base.latitude
  {
    var latRad := Radians(latlng.latitude);
    var baseLatRad := Radians(base.latitude);
    var deltaLatRad := latRad - baseLatRad;
    RadiansSign(latlng.latitude - base.latitude);
    MeridionalArcLength(m, deltaLatRad, baseLatRad)
  }

  /** The unrounded eastward distance of `latlng` from `base`, measured on the base parallel. */
  function EastDistance(m: Math, latlng: LatLngPoint, base: LatLngPoint): (d: real)
    ensures latlng.longitude == base.longitude ==> d == 0.0
  {
    var parallelRadius := ParallelRadius(m, Radians(base.latitude));
    var deltaLonRad := Radians(latlng.longitude - base.longitude);
    parallelRadius * deltaLonRad
  }

  /** `latlng_to_minecraft`: the planar offset, in whole metres, of `latlng` from `base`. */
  function LatLngToMinecraft(m: Math, latlng: LatLngPoint, base: LatLngPoint): (p: MinecraftPoint)
    ensures latlng.longitude == base.longitude ==> p.x == 0
    ensures latlng.latitude == base.latitude ==> p.y == 0
    ensures latlng.latitude >= base.latitude ==> p.y >= 0
    ensures latlng.latitude <= base.latitude ==> p.y <= 0
  {
    var latDistance := NorthDistance(m, latlng, base);
    var lonDistance := EastDistance(m, latlng, base);
    RoundSign(latDistance);
    RoundOfInteger(0);
    MinecraftPoint(Round(lonDistance), Round(latDistance))
  }

  /** The first latitude estimate: the offset read on a flat earth. */
  function Seed(meters: real, baseLat: real): real {
    baseLat + meters / MetresPerDegree
  }

  /** One correction of `_meters_to_latitude`: add the arc-length residual at the flat-earth scale. */
  function Correct(m: Math, meters: real, baseLat: real, currentLat: real): real {
    var deltaLatRad := Radians(currentLat) - Radians(baseLat);
    var calculatedDistance := MeridionalArcLength(m, deltaLatRad, Radians(baseLat));
    var error := meters - calculatedDistance;
    currentLat + error / MetresPerDegree
  }

  /** The estimate after `k` corrections of the seed, with no early exit. */
  function Estimate(m: Math, meters: real, baseLat: real, k: nat): real {
    if k == 0 then Seed(meters, baseLat)
    else Correct(m, meters, baseLat, Estimate(m, meters, baseLat, k - 1))
  }

  /** The latitude `_meters_to_latitude` returns: the estimate after exactly three corrections. */
  function SolvedLatitude(m: Math, meters: real, baseLat: real): real {
    Estimate(m, meters, baseLat, Iterations)
  }

  /** `_meters_to_latitude`: the seed, then a fixed loop of three corrections. */
  method MetersToLatitude(m: Math, meters: real, baseLat: real) returns (currentLat: real)
    ensures currentLat == SolvedLatitude(m, meters, baseLat)
  {
    var baseLatRad := Radians(baseLat);
    var initialDeltaLat := meters / MetresPerDegree;
    currentLat := baseLat + initialDeltaLat;
    for i := 0 to Iterations
      invariant currentLat == Estimate(m, meters, baseLat, i)
    {
      var currentLatRad := Radians(currentLat);
      var deltaLatRad := currentLatRad - baseLatRad;
      var calculatedDistance := MeridionalArcLength(m, deltaLatRad, baseLatRad);
      var error := meters - calculatedDistance;
      var latCorrection := error / MetresPerDegree;
      currentLat := currentLat + latCorrection;
    }
  }

  /** The solved latitude is the seed followed by exactly three corrections. */
  lemma SolvedIsThreeCorrections(m: Math, meters: real, baseLat: real)
    ensures SolvedLatitude(m, meters, baseLat)
         == Correct(m, meters, baseLat, Correct(m, meters, baseLat, Correct(m, meters, baseLat, Seed(meters, baseLat))))
  {
    var seed := Seed(meters, baseLat);
    assert Estimate(m, meters, baseLat, 1) == Correct(m, meters, baseLat, seed);
    assert Estimate(m, meters, baseLat, 2) == Correct(m, meters, baseLat, Estimate(m, meters, baseLat, 1));
    assert Estimate(m, meters, baseLat, 3) == Correct(m, meters, baseLat, Estimate(m, meters, baseLat, 2));
  }

  /** A seed the corrections leave fixed survives every number of corrections. */
  lemma {:induction false} FixedSeedStays(m: Math, meters: real, baseLat: real, k: nat)
    requires Correct(m, meters, baseLat, Seed(meters, baseLat)) == Seed(meters, baseLat)
    ensures Estimate(m, meters, baseLat, k) == Seed(meters, baseLat)
  {
    if k > 0 {
      FixedSeedStays(m, meters, baseLat, k - 1);
    }
  }

  /** With no northward offset every residual and every correction is 0: the base latitude comes back exactly. */
  lemma ZeroMetersSolvesToBase(m: Math, baseLat: real)
    ensures SolvedLatitude(m, 0.0, baseLat) == baseLat
  {
    assert Seed(0.0, baseLat) == baseLat;
    assert MeridionalArcLength(m, Radians(baseLat) - Radians(baseLat), Radians(baseLat)) == 0.0;
    FixedSeedStays(m, 0.0, baseLat, Iterations);
  }

  /**
   * `minecraft_to_latlng`: the geographic point at planar offset `minecraft` from `base`.
   * Longitude divides by the parallel radius at the solved latitude, which raises
   * ZeroDivisionError when that radius is 0.
   */
  function MinecraftToLatLng(m: Math, minecraft: MinecraftPoint, base: LatLngPoint): (r: Result<LatLngPoint>)
    ensures var newLat := SolvedLatitude(m, minecraft.y as real, base.latitude);
      && (r.Err? <==> ParallelRadius(m, Radians(newLat)) == 0.0)
      && (r.Err? ==> r.failure == ZeroDivisionError)
      && (r.Ok? ==> r.value.latitude == newLat)
      && (r.Ok? && minecraft.x == 0 ==> r.value.longitude == base.longitude)
  {
    var latDistance := minecraft.y;
    var newLat := SolvedLatitude(m, latDistance as real, base.latitude);
    var parallelRadius := ParallelRadius(m, Radians(newLat));
    if parallelRadius == 0.0 then
      Err(ZeroDivisionError)
    else
      var deltaLonRad := minecraft.x as real / parallelRadius;
      var newLon := base.longitude + Degrees(deltaLonRad);
      Ok(LatLngPoint(newLat, newLon))
  }

  /** Converting a point against itself gives the planar origin exactly. */
  lemma SamePointIsOrigin(m: Math, p: LatLngPoint)
    ensures LatLngToMinecraft(m, p, p) == MinecraftPoint(0, 0)
  {
  }

  /** A larger longitude never gives a smaller `x` where the base parallel has positive radius. */
  lemma EastwardMonotone(m: Math, p1: LatLngPoint, p2: LatLngPoint, base: LatLngPoint)
    requires p1.longitude <= p2.longitude
    requires m.cos(Radians(base.latitude)) > 0.0
    ensures LatLngToMinecraft(m, p1, base).x <= LatLngToMinecraft(m, p2, base).x
  {
    var r := ParallelRadius(m, Radians(base.latitude));
    var a1 := Radians(p1.longitude - base.longitude);
    var a2 := Radians(p2.longitude - base.longitude);
    RadiansMonotone(p1.longitude - base.longitude, p2.longitude - base.longitude);
    ScaledRoundMonotone(r, a1, a2);
    assert EastDistance(m, p1, base) == r * a1;
    assert EastDistance(m, p2, base) == r * a2;
  }

  lemma RadiansMonotone(a: real, b: real)
    requires a <= b
    ensures Radians(a) <= Radians(b)
  {
  }

  lemma ScaledRoundMonotone(k: real, a: real, b: real)
    requires k > 0.0 && a <= b
    ensures Round(k * a) <= Round(k * b)
  {
    PositiveTimesMonotone(k, a, b);
    RoundMonotone(k * a, k * b);
  }

  /** The planar origin converts back to the base point, unless the base parallel has radius 0. */
  lemma OriginIsBase(m: Math, base: LatLngPoint)
    ensures MinecraftToLatLng(m, MinecraftPoint(0, 0), base)
         == if ParallelRadius(m, Radians(base.latitude)) == 0.0 then Err(ZeroDivisionError) else Ok(base)
  {
    ZeroMetersSolvesToBase(m, base.latitude);
  }

  /**
   * The solved latitude depends on the northward offset and the base only: two offsets
   * with the same `y` succeed or fail together and share their latitude.
   */
  lemma LatitudeIgnoresEast(m: Math, o1: MinecraftPoint, o2: MinecraftPoint, base: LatLngPoint)
    requires o1.y == o2.y
    ensures MinecraftToLatLng(m, o1, base).Ok? <==> MinecraftToLatLng(m, o2, base).Ok?
    ensures MinecraftToLatLng(m, o1, base).Ok? ==>
              MinecraftToLatLng(m, o1, base).value.latitude == MinecraftToLatLng(m, o2, base).value.latitude
  {
  }

  /**
   * Moving further east along the same northward offset strictly increases the longitude
   * wherever the solved parallel has positive radius.
   */
  lemma EastOffsetIncreasesLongitude(m: Math, o1: MinecraftPoint, o2: MinecraftPoint, base: LatLngPoint)
    requires o1.y == o2.y && o1.x < o2.x
    requires m.cos(Radians(SolvedLatitude(m, o1.y as real, base.latitude))) > 0.0
    ensures MinecraftToLatLng(m, o1, base).Ok? && MinecraftToLatLng(m, o2, base).Ok?
    ensures MinecraftToLatLng(m, o1, base).value.longitude < MinecraftToLatLng(m, o2, base).value.longitude
  {
    var newLat := SolvedLatitude(m, o1.y as real, base.latitude);
    var r := ParallelRadius(m, Radians(newLat));
    assert r > 0.0;
    var q1 := o1.x as real / r;
    var q2 := o2.x as real / r;
    assert q1 < q2 by {
      assert q2 - q1 == (o2.x as real - o1.x as real) / r;
    }
    DegreesSign(q2 - q1);
    assert Degrees(q2) - Degrees(q1) == Degrees(q2 - q1);
  }

  /** A westward offset gives a longitude west of the base wherever the solved parallel has positive radius. */
  lemma WestOffsetDecreasesLongitude(m: Math, o: MinecraftPoint, base: LatLngPoint)
    requires o.x < 0
    requires m.cos(Radians(SolvedLatitude(m, o.y as real, base.latitude))) > 0.0
    ensures MinecraftToLatLng(m, o, base).Ok?
    ensures MinecraftToLatLng(m, o, base).value.longitude < base.longitude
  {
    EastOffsetIncreasesLongitude(m, o, MinecraftPoint(0, o.y), base);
  }
}

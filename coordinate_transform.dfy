/** Conversions between the three coordinate systems used on Chinese maps:
    WGS-84 (GPS), GCJ-02 (the national offset system) and BD-09 (Baidu's
    offset on top of GCJ-02), as the object `CoordinateTransformUtil`
    performs them.

    Doubles are modelled as `real`; `Math.sin`, `Math.cos`, `Math.atan2` and
    `Math.sqrt` are the fields of the parameter `m` (see module JavaMath).
 */
module CoordinateTransformUtil {
  import opened JavaMath

  /** A location; the first constructor argument is the latitude. */
  datatype LatLng = LatLng(latitude: real, longitude: real)

  /** `x_pi`: π · 3000 / 180, the angular scale of the BD-09 warp. */
  const XPi: real := 3.14159265358979324 * 3000.0 / 180.0
  /** `pi`. */
  const Pi: real := 3.1415926535897932384626
  /** `a`: semi-major axis of the Krasovsky 1940 ellipsoid, in metres. */
  const SemiMajorAxis: real := 6378245.0
  /** `ee`: eccentricity squared of that ellipsoid. */
  const EccentricitySquared: real := 0.00669342162296594323

  /** Edges of the rectangle inside which the GCJ-02 offset applies. */
  const WestEdge: real := 72.004
  const EastEdge: real := 137.8347
  const SouthEdge: real := 0.8293
  const NorthEdge: real := 55.8271

  /** Biases BD-09 adds to the warped GCJ-02 point. */
  const BdLatitudeBias: real := 0.006
  const BdLongitudeBias: real := 0.0065

  /** Largest radial change the BD-09 warp makes: the 0.00002 factor on the sine term. */
  const RadialWarp: real := 0.00002

  /** Bound on `transformlat` over the recentred rectangle. */
  const MaxTransformLat: real := 800.0
  /** Bound, in degrees, on the latitude change WGS-84 <-> GCJ-02 makes anywhere (about 810 m). */
  const MaxLatitudeShift: real := 0.0073

  // ---------------------------------------------------------------------
  // The rectangle test

  /** The closed rectangle of locations the GCJ-02 offset applies to: points on its edges are in. */
  ghost predicate InChinaBox(c: LatLng) {
    WestEdge <= c.longitude <= EastEdge && SouthEdge <= c.latitude <= NorthEdge
  }

  /** `out_of_china`: the longitude test first, then the latitude test. */
  predicate OutOfChina(location: LatLng)
    ensures OutOfChina(location) <==> !InChinaBox(location)
  {
    var lng := location.longitude;
    var lat := location.latitude;
    if lng < WestEdge || lng > EastEdge then true
    else if lat < SouthEdge || lat > NorthEdge then true
    else false
  }

  /** The comparisons are strict: the edges themselves and points just past them. */
  lemma OutOfChinaAtEdges()
    ensures !OutOfChina(LatLng(30.0, 72.004)) && OutOfChina(LatLng(30.0, 72.0039))
    ensures !OutOfChina(LatLng(30.0, 137.8347)) && OutOfChina(LatLng(30.0, 137.8348))
    ensures !OutOfChina(LatLng(0.8293, 100.0)) && OutOfChina(LatLng(0.8292, 100.0))
    ensures !OutOfChina(LatLng(55.8271, 100.0)) && OutOfChina(LatLng(55.8272, 100.0))
  {
  }

  // ---------------------------------------------------------------------
  // The polynomial helpers

  /** The location the helpers are evaluated at: the input recentred on (35, 105). */
  function Recentred(c: LatLng): LatLng {
    LatLng(c.latitude - 35.0, c.longitude - 105.0)
  }

  /** The degree-2 base of `transformlat`, without its sine terms. */
  function LatBase(m: Libm, c: LatLng): real {
    -100.0 + 2.0 * c.longitude + 3.0 * c.latitude + 0.2 * c.latitude * c.latitude
      + 0.1 * c.longitude * c.latitude + 0.2 * m.sqrt(Abs(c.longitude))
  }

  /** The degree-2 base of `transformlng`, without its sine terms. */
  function LngBase(m: Libm, c: LatLng): real {
    300.0 + c.longitude + 2.0 * c.latitude + 0.1 * c.longitude * c.longitude
      + 0.1 * c.longitude * c.latitude + 0.1 * m.sqrt(Abs(c.longitude))
  }

  /** `transformlat`: the latitude offset before curvature scaling. Its three sine pairs, scaled
      by 2/3, add at most (20+20+20+40+160+320)·2/3 to the base polynomial. */
  function TransformLat(m: Libm, location: LatLng): (r: real)
    ensures Sound(m) ==> Abs(r - LatBase(m, location)) <= 1160.0 / 3.0
  {
    var lng := location.longitude;
    var lat := location.latitude;
    var ret0 := LatBase(m, location);
    var ret1 := ret0 + (20.0 * m.sin(6.0 * lng * Pi) + 20.0 * m.sin(2.0 * lng * Pi)) * 2.0 / 3.0;
    var ret2 := ret1 + (20.0 * m.sin(lat * Pi) + 40.0 * m.sin(lat / 3.0 * Pi)) * 2.0 / 3.0;
    ret2 + (160.0 * m.sin(lat / 12.0 * Pi) + 320.0 * m.sin(lat * Pi / 30.0)) * 2.0 / 3.0
  }

  /** `transformlng`: the longitude offset before curvature scaling. Its three sine pairs, scaled
      by 2/3, add at most (20+20+20+40+150+300)·2/3 to the base polynomial. */
  function TransformLng(m: Libm, location: LatLng): (r: real)
    ensures Sound(m) ==> Abs(r - LngBase(m, location)) <= 1100.0 / 3.0
  {
    var lng := location.longitude;
    var ret0 := LngBase(m, location);
    var ret1 := ret0 + (20.0 * m.sin(6.0 * lng * Pi) + 20.0 * m.sin(2.0 * lng * Pi)) * 2.0 / 3.0;
    var ret2 := ret1 + (20.0 * m.sin(lng * Pi) + 40.0 * m.sin(lng / 3.0 * Pi)) * 2.0 / 3.0;
    ret2 + (150.0 * m.sin(lng / 12.0 * Pi) + 300.0 * m.sin(lng / 30.0 * Pi)) * 2.0 / 3.0
  }

  /** Every sine term of `transformlng` depends on the longitude alone, so it is affine in the latitude. */
  lemma TransformLngAffineInLatitude(m: Libm, lng: real, lat: real, lat': real)
    ensures TransformLng(m, LatLng(lat', lng)) - TransformLng(m, LatLng(lat, lng)) == (2.0 + 0.1 * lng) * (lat' - lat)
  {
  }

  /** Over the rectangle, `transformlat` at the recentred point stays within ±800. */
  lemma {:induction false} TransformLatInChina(m: Libm, c: LatLng)
    requires Sound(m)
    requires !OutOfChina(c)
    ensures Abs(TransformLat(m, Recentred(c))) <= MaxTransformLat
  {
    LatBaseInChina(m, c);
  }

  /** Over the rectangle, the base of `transformlat` at the recentred point stays within ±400. */
  lemma {:induction false} LatBaseInChina(m: Libm, c: LatLng)
    requires Sound(m)
    requires !OutOfChina(c)
    ensures Abs(LatBase(m, Recentred(c))) <= 400.0
  {
    var p := Recentred(c);
    SqrtAtMost(m, Abs(p.longitude), 6.0);
    LatBaseBound(m, p);
  }

  /** The base of `transformlat` over the recentred rectangle, once its root term lies in [0, 6]. */
  lemma {:induction false} LatBaseBound(m: Libm, p: LatLng)
    requires -32.996 <= p.longitude <= 32.8347 && -34.1707 <= p.latitude <= 20.8271
    requires 0.0 <= m.sqrt(Abs(p.longitude)) <= 6.0
    ensures Abs(LatBase(m, p)) <= 400.0
  {
    var x, y := p.longitude, p.latitude;
    SquareAtMost(y, 34.1707);
    ProductAtMost(x, y, 33.0, 34.1707);
    assert 0.2 * y * y == 0.2 * (y * y) && 0.1 * x * y == 0.1 * (x * y);
    var root := m.sqrt(Abs(x));
    assert A1: LatBase(m, p) == -100.0 + 2.0 * x + 3.0 * y + 0.2 * y * y + 0.1 * x * y + 0.2 * root;
    assert A2: -400.0 <= -100.0 + 2.0 * x + 3.0 * y + 0.2 * y * y + 0.1 * x * y + 0.2 * root <= 400.0;
  }

  // ---------------------------------------------------------------------
  // Curvature scaling shared by the WGS-84 <-> GCJ-02 conversions

  /** The source's `magic`: 1 - ee·sin²(latitude in radians). */
  function Magic(m: Libm, lat: real): (r: real)
    ensures Sound(m) ==> 1.0 - EccentricitySquared <= r <= 1.0
  {
    var s := m.sin(lat / 180.0 * Pi);
    assert Sound(m) ==> 0.0 <= s * s <= 1.0 by {
      if Sound(m) {
        SquareAtMost(s, 1.0);
      }
    }
    assert EccentricitySquared * s * s == EccentricitySquared * (s * s);
    1.0 - EccentricitySquared * s * s
  }

  /** Inside the rectangle, the curvature terms are all positive and bounded by one. */
  lemma {:induction false} CurvatureInChina(m: Libm, lat: real)
    requires Sound(m)
    requires SouthEdge <= lat <= NorthEdge
    ensures 0.0 < m.cos(lat / 180.0 * Pi)
    ensures 0.0 < Magic(m, lat) <= 1.0
    ensures 0.0 < m.sqrt(Magic(m, lat)) <= 1.0
    ensures 0.0 < Magic(m, lat) * m.sqrt(Magic(m, lat)) <= 1.0
  {
    var magic := Magic(m, lat);
    SqrtPositive(m, magic);
    SqrtAtMost(m, magic, 1.0);
    var root := m.sqrt(magic);
    assert 0.0 < magic * root <= 1.0 by {
      calc {
        magic * root;
      <= 1.0 * root;
      <= 1.0;
      }
    }
  }

  /** Same sign: both positive, both negative or both zero. */
  predicate SameSign(x: real, y: real) {
    (0.0 < x <==> 0.0 < y) && (x < 0.0 <==> y < 0.0)
  }

  /** The lower bound on the meridian denominator of line 109: a·(1-ee)·π. */
  const MeridianFloor: real := SemiMajorAxis * (1.0 - EccentricitySquared) * Pi

  /** The denominator of line 109, a·(1-ee)/(magic·sqrtmagic)·π. In the rectangle's latitude
      band it is at least a·(1-ee)·π, since 0 < magic·sqrtmagic <= 1 there. */
  function MeridianDenominator(m: Libm, lat: real): (r: real)
    requires Sound(m)
    requires SouthEdge <= lat <= NorthEdge
    ensures MeridianFloor <= r
  {
    var magic := Magic(m, lat);
    var sqrtmagic := m.sqrt(magic);
    CurvatureInChina(m, lat);
    MeridianAtLeastFloor(magic * sqrtmagic);
    SemiMajorAxis * (1.0 - EccentricitySquared) / (magic * sqrtmagic) * Pi
  }

  /** The denominator of line 110, a/sqrtmagic·cos(radlat)·π. In the rectangle's latitude band
      it is positive, since sqrtmagic and the cosine are. */
  function ParallelDenominator(m: Libm, lat: real): (r: real)
    requires Sound(m)
    requires SouthEdge <= lat <= NorthEdge
    ensures 0.0 < r
  {
    var radlat := lat / 180.0 * Pi;
    var sqrtmagic := m.sqrt(Magic(m, lat));
    CurvatureInChina(m, lat);
    ParallelPositive(sqrtmagic, m.cos(radlat));
    SemiMajorAxis / sqrtmagic * m.cos(radlat) * Pi
  }

  /** The factor of line 109 that turns `transformlat` into degrees of latitude. It depends on
      the latitude alone, is positive, and is at most 180/(a·(1-ee)·π). */
  function LatScale(m: Libm, lat: real): (r: real)
    requires Sound(m)
    requires SouthEdge <= lat <= NorthEdge
    ensures 0.0 < r <= 180.0 / MeridianFloor
  {
    ReciprocalAtMost(MeridianDenominator(m, lat), MeridianFloor);
    180.0 / MeridianDenominator(m, lat)
  }

  /** The factor of line 110 that turns `transformlng` into degrees of longitude. It depends on
      the latitude alone and is positive. */
  function LngScale(m: Libm, lat: real): (r: real)
    requires Sound(m)
    requires SouthEdge <= lat <= NorthEdge
    ensures 0.0 < r
  {
    ReciprocalAtMost(ParallelDenominator(m, lat), ParallelDenominator(m, lat));
    180.0 / ParallelDenominator(m, lat)
  }

  /** 180/d is positive and at most 180/f when 0 < f <= d. */
  lemma ReciprocalAtMost(d: real, f: real)
    requires 0.0 < f <= d
    ensures 0.0 < 180.0 / d <= 180.0 / f
  {
    var q := 180.0 / d;
    var p := 180.0 / f;
    assert q * d == 180.0 && p * f == 180.0;
    assert 0.0 < q;
    if p < q {
      calc {
        180.0;
      == p * f;
      <= p * d;
      <  q * d;
      == 180.0;
      }
    }
  }

  /** t·180/d, as lines 109-110 write it, is t times the factor 180/d. */
  lemma ScaledIsProduct(t: real, d: real)
    requires d != 0.0
    ensures t * 180.0 / d == t * (180.0 / d)
  {
  }

  /** Multiplying by a factor in (0, b] keeps the sign and scales the magnitude by at most b. */
  lemma ScaledByFactor(t: real, s: real, b: real)
    requires 0.0 < s <= b
    ensures SameSign(t * s, t)
    ensures Abs(t * s) <= Abs(t) * b
  {
    ProductAtMost(t, s, Abs(t), b);
    if 0.0 < t {
      assert 0.0 < t * s;
    } else if t < 0.0 {
      assert t * s < 0.0;
    }
  }

  /** Lines 105-112: the point (lat, lng) moved by the deltas dlat, dlng after curvature scaling.
      Each delta is multiplied by the positive, latitude-only factor LatScale or LngScale, so the
      point moves in the directions of the deltas, and the latitude by at most |dlat|·180/(a·(1-ee)·π). */
  function CurvatureShift(m: Libm, lat: real, lng: real, dlat: real, dlng: real): (r: LatLng)
    requires Sound(m)
    requires SouthEdge <= lat <= NorthEdge
    ensures r.latitude == lat + dlat * LatScale(m, lat)
    ensures r.longitude == lng + dlng * LngScale(m, lat)
    ensures SameSign(r.latitude - lat, dlat)
    ensures SameSign(r.longitude - lng, dlng)
    ensures Abs(r.latitude - lat) <= Abs(dlat) * (180.0 / MeridianFloor)
  {
    ScaledIsProduct(dlat, MeridianDenominator(m, lat));
    ScaledIsProduct(dlng, ParallelDenominator(m, lat));
    ShiftedByFactor(lat, lat + dlat * LatScale(m, lat), dlat, LatScale(m, lat), 180.0 / MeridianFloor);
    ShiftedByFactor(lng, lng + dlng * LngScale(m, lat), dlng, LngScale(m, lat), LngScale(m, lat));
    var mglat := lat + dlat * 180.0 / MeridianDenominator(m, lat);
    var mglng := lng + dlng * 180.0 / ParallelDenominator(m, lat);
    LatLng(mglat, mglng)
  }

  /** Moving x to x + t·s with a factor s in (0, b] moves it in the direction of t, by at most |t|·b. */
  lemma ShiftedByFactor(x: real, x': real, t: real, s: real, b: real)
    requires x' == x + t * s
    requires 0.0 < s <= b
    ensures SameSign(x' - x, t)
    ensures Abs(x' - x) <= Abs(t) * b
  {
    ScaledByFactor(t, s, b);
  }

  /** Lines 101-112, repeated verbatim at 127-138: the forward-shifted point (mglat, mglng),
      `transformlat` and `transformlng` at the recentred point, curvature-scaled and added. */
  function Shifted(m: Libm, location: LatLng): (r: LatLng)
    requires Sound(m)
    requires !OutOfChina(location)
    ensures r.latitude == location.latitude + TransformLat(m, Recentred(location)) * LatScale(m, location.latitude)
    ensures r.longitude == location.longitude + TransformLng(m, Recentred(location)) * LngScale(m, location.latitude)
    ensures SameSign(r.latitude - location.latitude, TransformLat(m, Recentred(location)))
    ensures SameSign(r.longitude - location.longitude, TransformLng(m, Recentred(location)))
    ensures Abs(r.latitude - location.latitude) <= Abs(TransformLat(m, Recentred(location))) * (180.0 / MeridianFloor)
  {
    var lng := location.longitude;
    var lat := location.latitude;
    var dlat := TransformLat(m, Recentred(location));
    var dlng := TransformLng(m, Recentred(location));
    CurvatureShift(m, lat, lng, dlat, dlng)
  }

  /** a·(1-ee)/p·π is at least a·(1-ee)·π when 0 < p <= 1. */
  lemma MeridianAtLeastFloor(p: real)
    requires 0.0 < p <= 1.0
    ensures MeridianFloor <= SemiMajorAxis * (1.0 - EccentricitySquared) / p * Pi
  {
    var k := SemiMajorAxis * (1.0 - EccentricitySquared);
    var q := k / p;
    assert q * p == k;
    assert k <= q by {
      if q < k {
        calc {
          k;
        == q * p;
        <= q * 1.0;
        <  k;
        }
      }
    }
  }

  /** a/r·c·π is positive when r and c are. */
  lemma ParallelPositive(root: real, c: real)
    requires 0.0 < root && 0.0 < c
    ensures 0.0 < SemiMajorAxis / root * c * Pi
  {
    var q := SemiMajorAxis / root;
    assert q * root == SemiMajorAxis;
    assert 0.0 < q;
    assert 0.0 < q * c;
  }

  // ---------------------------------------------------------------------
  // WGS-84 <-> GCJ-02

  /** `wgs84togcj02`: unchanged outside the rectangle; inside, moved by `transformlat` and
      `transformlng` of the recentred point times the curvature factors of the latitude, and by at
      most MaxLatitudeShift in latitude. */
  function Wgs84ToGcj02(m: Libm, location: LatLng): (r: LatLng)
    requires Sound(m)
    ensures OutOfChina(location) ==> r == location
    ensures !OutOfChina(location) ==>
      r.latitude == location.latitude + TransformLat(m, Recentred(location)) * LatScale(m, location.latitude)
    ensures !OutOfChina(location) ==>
      r.longitude == location.longitude + TransformLng(m, Recentred(location)) * LngScale(m, location.latitude)
    ensures !OutOfChina(location) ==> SameSign(r.latitude - location.latitude, TransformLat(m, Recentred(location)))
    ensures !OutOfChina(location) ==> SameSign(r.longitude - location.longitude, TransformLng(m, Recentred(location)))
    ensures Abs(r.latitude - location.latitude) <= MaxLatitudeShift
  {
    if OutOfChina(location) then location
    else
      LatitudeShiftBounded(m, location);
      Shifted(m, location)
  }

  /** `gcj02towgs84`: unchanged outside the rectangle; inside, moved by the same curvature-scaled
      deltas in the opposite direction. */
  function Gcj02ToWgs84(m: Libm, location: LatLng): (r: LatLng)
    requires Sound(m)
    ensures OutOfChina(location) ==> r == location
    ensures !OutOfChina(location) ==>
      r.latitude == location.latitude - TransformLat(m, Recentred(location)) * LatScale(m, location.latitude)
    ensures !OutOfChina(location) ==>
      r.longitude == location.longitude - TransformLng(m, Recentred(location)) * LngScale(m, location.latitude)
    ensures !OutOfChina(location) ==> SameSign(location.latitude - r.latitude, TransformLat(m, Recentred(location)))
    ensures !OutOfChina(location) ==> SameSign(location.longitude - r.longitude, TransformLng(m, Recentred(location)))
    ensures Abs(r.latitude - location.latitude) <= MaxLatitudeShift
  {
    if OutOfChina(location) then location
    else
      var lng := location.longitude;
      var lat := location.latitude;
      var shifted := Shifted(m, location);
      LatitudeShiftBounded(m, location);
      LatLng(lat * 2.0 - shifted.latitude, lng * 2.0 - shifted.longitude)
  }

  /** Inside the rectangle the shifted latitude differs from the input by at most MaxLatitudeShift. */
  lemma {:induction false} LatitudeShiftBounded(m: Libm, c: LatLng)
    requires Sound(m)
    requires !OutOfChina(c)
    ensures Abs(Shifted(m, c).latitude - c.latitude) <= MaxLatitudeShift
  {
    TransformLatInChina(m, c);
    LatitudeBound(Shifted(m, c).latitude - c.latitude, TransformLat(m, Recentred(c)));
  }

  /** A delta of at most |t|·180/(a·(1-ee)·π), with |t| at most 800, is below MaxLatitudeShift. */
  lemma LatitudeBound(delta: real, t: real)
    requires Abs(delta) <= Abs(t) * (180.0 / MeridianFloor)
    requires Abs(t) <= MaxTransformLat
    ensures Abs(delta) <= MaxLatitudeShift
  {
    var f := 180.0 / MeridianFloor;
    assert 0.0 < f;
    assert Abs(t) * f <= MaxTransformLat * f;
    assert MaxTransformLat * f <= MaxLatitudeShift;
  }

  /** `gcj02towgs84(c)` is `wgs84togcj02(c)` reflected across c, inside and outside the rectangle. */
  lemma ReflectionIdentity(m: Libm, c: LatLng)
    requires Sound(m)
    ensures Gcj02ToWgs84(m, c).latitude == 2.0 * c.latitude - Wgs84ToGcj02(m, c).latitude
    ensures Gcj02ToWgs84(m, c).longitude == 2.0 * c.longitude - Wgs84ToGcj02(m, c).longitude
  {
  }

  /** WGS-84 -> GCJ-02 -> WGS-84 is exact outside the rectangle and moves the latitude by at
      most twice MaxLatitudeShift inside it. */
  lemma WgsGcjRoundTrip(m: Libm, c: LatLng)
    requires Sound(m)
    ensures OutOfChina(c) ==> Gcj02ToWgs84(m, Wgs84ToGcj02(m, c)) == c
    ensures Abs(Gcj02ToWgs84(m, Wgs84ToGcj02(m, c)).latitude - c.latitude) <= 2.0 * MaxLatitudeShift
  {
  }

  // ---------------------------------------------------------------------
  // GCJ-02 <-> BD-09

  /** Distance of a location from (0, 0), computed as the source computes `sqrt(lng² + lat²)`. */
  function Norm(m: Libm, c: LatLng): real {
    Hypot(m, c.longitude, c.latitude)
  }

  /** A BD-09 location with its biases removed. */
  function Debiased(c: LatLng): LatLng {
    LatLng(c.latitude - BdLatitudeBias, c.longitude - BdLongitudeBias)
  }

  /** The radius `z` of line 61: the distance from the origin plus a sine ripple. */
  function WarpedRadius(m: Libm, lat: real, lng: real): real {
    Hypot(m, lng, lat) + RadialWarp * m.sin(lat * XPi)
  }

  /** The angle `theta` of line 62: the polar angle plus a cosine ripple. */
  function WarpedAngle(m: Libm, lat: real, lng: real): real {
    m.atan2(lat, lng) + 0.000003 * m.cos(lng * XPi)
  }

  /** `gcj02tobd09`: a polar warp (radius and angle perturbed), then the two biases. */
  function Gcj02ToBd09(m: Libm, location: LatLng): LatLng {
    var lng := location.longitude;
    var lat := location.latitude;
    var z := WarpedRadius(m, lat, lng);
    var theta := WarpedAngle(m, lat, lng);
    var bdLng := z * m.cos(theta) + BdLongitudeBias;
    var bdLat := z * m.sin(theta) + BdLatitudeBias;
    LatLng(bdLat, bdLng)
  }

  /** The radius `z` of line 83, on the debiased point (y, x). */
  function UnwarpedRadius(m: Libm, y: real, x: real): real {
    Hypot(m, x, y) - RadialWarp * m.sin(y * XPi)
  }

  /** The angle `theta` of line 84, on the debiased point (y, x). */
  function UnwarpedAngle(m: Libm, y: real, x: real): real {
    m.atan2(y, x) - 0.000003 * m.cos(x * XPi)
  }

  /** `bd09togcj02`: the biases removed first, then the inverse polar warp; no bias on the output. */
  function Bd09ToGcj02(m: Libm, location: LatLng): LatLng {
    var bdLat := location.latitude;
    var bdLon := location.longitude;
    var x := bdLon - BdLongitudeBias;
    var y := bdLat - BdLatitudeBias;
    var z := UnwarpedRadius(m, y, x);
    var theta := UnwarpedAngle(m, y, x);
    var ggLng := z * m.cos(theta);
    var ggLat := z * m.sin(theta);
    LatLng(ggLat, ggLng)
  }

  /** Once its biases are removed, the BD-09 point is as far from the origin as the GCJ-02 point,
      up to RadialWarp. */
  lemma {:induction false} Gcj02ToBd09Radius(m: Libm, c: LatLng)
    requires Sound(m)
    ensures Abs(Norm(m, Debiased(Gcj02ToBd09(m, c))) - Norm(m, c)) <= RadialWarp
  {
    var z := WarpedRadius(m, c.latitude, c.longitude);
    var theta := WarpedAngle(m, c.latitude, c.longitude);
    WarpedPolar(m, c, Debiased(Gcj02ToBd09(m, c)));
    NormOfPolar(m, Debiased(Gcj02ToBd09(m, c)), z, theta);
    WarpedRadiusRipple(m, c.latitude, c.longitude);
    NormNonnegative(m, c);
    PerturbedMagnitude(Norm(m, c), z - Norm(m, c), RadialWarp);
  }

  /** The GCJ-02 point is as far from the origin as the debiased BD-09 point, up to RadialWarp. */
  lemma {:induction false} Bd09ToGcj02Radius(m: Libm, c: LatLng)
    requires Sound(m)
    ensures Abs(Norm(m, Bd09ToGcj02(m, c)) - Norm(m, Debiased(c))) <= RadialWarp
  {
    var d := Debiased(c);
    var z := UnwarpedRadius(m, d.latitude, d.longitude);
    var theta := UnwarpedAngle(m, d.latitude, d.longitude);
    UnwarpedPolar(m, c, d, Bd09ToGcj02(m, c));
    NormOfPolar(m, Bd09ToGcj02(m, c), z, theta);
    UnwarpedRadiusRipple(m, d.latitude, d.longitude);
    NormNonnegative(m, d);
    PerturbedMagnitude(Norm(m, d), z - Norm(m, d), RadialWarp);
  }

  /** Debiasing the BD-09 point leaves z·sin theta and z·cos theta of lines 63-64. */
  lemma WarpedPolar(m: Libm, c: LatLng, d: LatLng)
    requires d == Debiased(Gcj02ToBd09(m, c))
    ensures d.latitude == WarpedRadius(m, c.latitude, c.longitude) * m.sin(WarpedAngle(m, c.latitude, c.longitude))
    ensures d.longitude == WarpedRadius(m, c.latitude, c.longitude) * m.cos(WarpedAngle(m, c.latitude, c.longitude))
  {
  }

  /** The GCJ-02 point of lines 85-86 is z·sin theta, z·cos theta of the debiased input. */
  lemma UnwarpedPolar(m: Libm, c: LatLng, d: LatLng, g: LatLng)
    requires d == Debiased(c) && g == Bd09ToGcj02(m, c)
    ensures g.latitude == UnwarpedRadius(m, d.latitude, d.longitude) * m.sin(UnwarpedAngle(m, d.latitude, d.longitude))
    ensures g.longitude == UnwarpedRadius(m, d.latitude, d.longitude) * m.cos(UnwarpedAngle(m, d.latitude, d.longitude))
  {
  }

  /** A point at radius z and angle theta is at distance |z| from the origin. */
  lemma NormOfPolar(m: Libm, p: LatLng, z: real, theta: real)
    requires Sound(m)
    requires p.latitude == z * m.sin(theta) && p.longitude == z * m.cos(theta)
    ensures Norm(m, p) == Abs(z)
  {
    PolarNorm(m, z, theta, p.longitude, p.latitude);
  }

  /** The radius of line 61 is the distance from the origin plus a ripple of at most RadialWarp. */
  lemma WarpedRadiusRipple(m: Libm, lat: real, lng: real)
    requires Sound(m)
    ensures WarpedRadius(m, lat, lng) == Norm(m, LatLng(lat, lng)) + RadialWarp * m.sin(lat * XPi)
    ensures Abs(RadialWarp * m.sin(lat * XPi)) <= RadialWarp
  {
  }

  /** The radius of line 83 is the distance from the origin minus a ripple of at most RadialWarp. */
  lemma UnwarpedRadiusRipple(m: Libm, y: real, x: real)
    requires Sound(m)
    ensures UnwarpedRadius(m, y, x) == Norm(m, LatLng(y, x)) - RadialWarp * m.sin(y * XPi)
    ensures Abs(RadialWarp * m.sin(y * XPi)) <= RadialWarp
  {
  }

  /** Distances are never negative. */
  lemma NormNonnegative(m: Libm, p: LatLng)
    requires Sound(m)
    ensures 0.0 <= Norm(m, p)
  {
    HypotNonnegative(m, p.longitude, p.latitude);
  }

  /** GCJ-02 -> BD-09 -> GCJ-02 is not exact, but the biases cancel and the distance from the
      origin changes by at most twice RadialWarp. */
  lemma BdRoundTripRadius(m: Libm, c: LatLng)
    requires Sound(m)
    ensures Abs(Norm(m, Bd09ToGcj02(m, Gcj02ToBd09(m, c))) - Norm(m, c)) <= 2.0 * RadialWarp
  {
    Gcj02ToBd09Radius(m, c);
    Bd09ToGcj02Radius(m, Gcj02ToBd09(m, c));
  }

  // ---------------------------------------------------------------------
  // The composite conversions

  /** `bd09towgs84`: through GCJ-02, with no further correction. */
  function Bd09ToWgs84(m: Libm, location: LatLng): (r: LatLng)
    requires Sound(m)
    ensures OutOfChina(Bd09ToGcj02(m, location)) ==> r == Bd09ToGcj02(m, location)
    ensures Abs(r.latitude - Bd09ToGcj02(m, location).latitude) <= MaxLatitudeShift
  {
    var gcj := Bd09ToGcj02(m, location);
    Gcj02ToWgs84(m, gcj)
  }

  /** `wgs84tobd09`: through GCJ-02, with no further correction. */
  function Wgs84ToBd09(m: Libm, location: LatLng): (r: LatLng)
    requires Sound(m)
    ensures OutOfChina(location) ==> r == Gcj02ToBd09(m, location)
    ensures Abs(Norm(m, Debiased(r)) - Norm(m, Wgs84ToGcj02(m, location))) <= RadialWarp
  {
    var gcj := Wgs84ToGcj02(m, location);
    Gcj02ToBd09Radius(m, gcj);
    Gcj02ToBd09(m, gcj)
  }

  /** Both composites go through GCJ-02 with no extra correction. Where the GCJ-02 point lies
      outside the rectangle, only the BD-09 step changes the location. */
  lemma CompositesThroughGcj02(m: Libm, c: LatLng)
    requires Sound(m)
    ensures Bd09ToWgs84(m, c) == Gcj02ToWgs84(m, Bd09ToGcj02(m, c))
    ensures Wgs84ToBd09(m, c) == Gcj02ToBd09(m, Wgs84ToGcj02(m, c))
    ensures OutOfChina(Bd09ToGcj02(m, c)) ==> Bd09ToWgs84(m, c) == Bd09ToGcj02(m, c)
    ensures OutOfChina(c) ==> Wgs84ToBd09(m, c) == Gcj02ToBd09(m, c)
  {
  }
}

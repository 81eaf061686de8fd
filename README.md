# Coordinate conversions between WGS-84, GCJ-02 and BD-09

A Dafny model of the Kotlin object `CoordinateTransformUtil` of the React Native Baidu map
binding. It converts locations between three coordinate systems used on Chinese maps:

- WGS-84, the GPS coordinates;
- GCJ-02, the national offset system;
- BD-09, Baidu's offset on top of GCJ-02.

Two modules make up the model:

- `JavaMath` (`java_math.dfy`) stands for the routines of `java.lang.Math` the object calls.
  Dafny cannot evaluate sine, cosine, arc tangent or square root. Every conversion therefore
  takes them as a parameter `m: Libm`, a record of four function values.
  - The ghost predicate `Sound(m)` lists the facts about the real functions the proofs use:
    `|sin x| <= 1`, `sin² x + cos² x = 1`, `cos x > 0` on (-1.5707963267948966, 1.5707963267948966)
    (a rational just below π/2), and `sqrt x >= 0` with
    `(sqrt x)² = x` for `x >= 0`.
  - No fact about `atan2` is used.
  - `Sound(m)` is an assumption about the maths library, not something the source asks of its
    callers. The WGS-84 ↔ GCJ-02 conversions divide by curvature terms that are non-zero only
    because of these facts, so those conversions carry `requires Sound(m)`.
- `CoordinateTransformUtil` (`coordinate_transform.dfy`) holds the location datatype
  `LatLng(latitude, longitude)` (latitude first, as in the source's constructor), the constants
  `x_pi`, `pi`, `a` and `ee`, and one function per operation. Each function follows the source's
  expressions and branches. Doubles are `real`.

Lines 129-138 of the source repeat lines 103-112 verbatim. The model writes them once, as
`Shifted`, and uses that in both `Wgs84ToGcj02` and `Gcj02ToWgs84`.

Several doc comments in the source swap the parameter names (`lng` is described as a latitude
at lines 27-28 and 74-75). The model follows what the code reads from `location.latitude` and
`location.longitude`.

## Model

| member | source | states |
|---|---|---|
| CoordinateTransformUtil.OutOfChina | lib/android/src/main/java/cn/qiuxiang/react/baidumap/CoordinateTransformUtil.kt:183-192 | true exactly when the location lies outside the closed rectangle longitude 72.004..137.8347, latitude 0.8293..55.8271 |
| CoordinateTransformUtil.OutOfChinaAtEdges | lib/android/src/main/java/cn/qiuxiang/react/baidumap/CoordinateTransformUtil.kt:186-191 | the comparisons are strict: each of the four edges is inside China and a point 0.0001 beyond it is outside |
| CoordinateTransformUtil.TransformLat | lib/android/src/main/java/cn/qiuxiang/react/baidumap/CoordinateTransformUtil.kt:149-157 | `transformlat` is its degree-2 base polynomial (line 152) plus three sine pairs worth at most 1160/3 in total |
| CoordinateTransformUtil.TransformLng | lib/android/src/main/java/cn/qiuxiang/react/baidumap/CoordinateTransformUtil.kt:166-174 | `transformlng` is its degree-2 base polynomial (line 169) plus three sine pairs worth at most 1100/3 in total |
| CoordinateTransformUtil.TransformLngAffineInLatitude | lib/android/src/main/java/cn/qiuxiang/react/baidumap/CoordinateTransformUtil.kt:169-172 | all sine terms of `transformlng` depend on the longitude only: changing the latitude changes the result by (2 + 0.1·lng)·Δlat |
| CoordinateTransformUtil.LatBaseInChina | lib/android/src/main/java/cn/qiuxiang/react/baidumap/CoordinateTransformUtil.kt:149-157 | over the rectangle recentred on (35, 105) the base polynomial of `transformlat` stays within ±400 |
| CoordinateTransformUtil.TransformLatInChina | lib/android/src/main/java/cn/qiuxiang/react/baidumap/CoordinateTransformUtil.kt:149-157 | over the rectangle recentred on (35, 105) `transformlat` stays within ±800 |
| CoordinateTransformUtil.Magic | lib/android/src/main/java/cn/qiuxiang/react/baidumap/CoordinateTransformUtil.kt:105-107 | `magic` = 1 - ee·sin²(radlat) lies in [1 - ee, 1] |
| CoordinateTransformUtil.CurvatureInChina | lib/android/src/main/java/cn/qiuxiang/react/baidumap/CoordinateTransformUtil.kt:105-108 | inside the rectangle cos(radlat) > 0, 0 < magic <= 1, 0 < sqrtmagic <= 1 and 0 < magic·sqrtmagic <= 1 |
| CoordinateTransformUtil.MeridianDenominator | lib/android/src/main/java/cn/qiuxiang/react/baidumap/CoordinateTransformUtil.kt:109-109 | the denominator a·(1-ee)/(magic·sqrtmagic)·π of line 109 is at least a·(1-ee)·π inside the rectangle |
| CoordinateTransformUtil.ParallelDenominator | lib/android/src/main/java/cn/qiuxiang/react/baidumap/CoordinateTransformUtil.kt:110-110 | the denominator a/sqrtmagic·cos(radlat)·π of line 110 is positive inside the rectangle |
| CoordinateTransformUtil.LatScale | lib/android/src/main/java/cn/qiuxiang/react/baidumap/CoordinateTransformUtil.kt:109-109 | the factor turning `dlat` into degrees depends on the latitude alone and lies in (0, 180/(a·(1-ee)·π)] |
| CoordinateTransformUtil.LngScale | lib/android/src/main/java/cn/qiuxiang/react/baidumap/CoordinateTransformUtil.kt:110-110 | the factor turning `dlng` into degrees depends on the latitude alone and is positive |
| CoordinateTransformUtil.CurvatureShift | lib/android/src/main/java/cn/qiuxiang/react/baidumap/CoordinateTransformUtil.kt:105-112 | the point moves by dlat·LatScale and dlng·LngScale, so in the directions of dlat and dlng, with the latitude moving by at most \|dlat\|·180/(a·(1-ee)·π) |
| CoordinateTransformUtil.Shifted | lib/android/src/main/java/cn/qiuxiang/react/baidumap/CoordinateTransformUtil.kt:101-112 | the shifted point is the input plus `transformlat`·LatScale and `transformlng`·LngScale at the recentred point; it moves in their directions, the latitude by at most \|transformlat\|·180/(a·(1-ee)·π) |
| CoordinateTransformUtil.Wgs84ToGcj02 | lib/android/src/main/java/cn/qiuxiang/react/baidumap/CoordinateTransformUtil.kt:97-114 | the input is returned unchanged outside China; inside, the result is the input plus the recentred `transformlat`·LatScale and `transformlng`·LngScale, so it moves in their directions; the latitude moves by at most 0.0073 degrees everywhere |
| CoordinateTransformUtil.Gcj02ToWgs84 | lib/android/src/main/java/cn/qiuxiang/react/baidumap/CoordinateTransformUtil.kt:123-140 | the input is returned unchanged outside China; inside, the result is the input minus the recentred `transformlat`·LatScale and `transformlng`·LngScale, so it moves against their directions; the latitude moves by at most 0.0073 degrees everywhere |
| CoordinateTransformUtil.LatitudeShiftBounded | lib/android/src/main/java/cn/qiuxiang/react/baidumap/CoordinateTransformUtil.kt:103-111 | inside the rectangle the latitude offset is at most 0.0073 degrees (about 810 m) |
| CoordinateTransformUtil.ReflectionIdentity | lib/android/src/main/java/cn/qiuxiang/react/baidumap/CoordinateTransformUtil.kt:97-140 | for every location, `gcj02towgs84(c)` is `wgs84togcj02(c)` reflected across c, in latitude and in longitude |
| CoordinateTransformUtil.WgsGcjRoundTrip | lib/android/src/main/java/cn/qiuxiang/react/baidumap/CoordinateTransformUtil.kt:97-140 | WGS-84 → GCJ-02 → WGS-84 is exact outside China and moves the latitude by at most 0.0146 degrees inside |
| CoordinateTransformUtil.Gcj02ToBd09 | lib/android/src/main/java/cn/qiuxiang/react/baidumap/CoordinateTransformUtil.kt:58-66 | no contract of its own; its partners are WarpedPolar (output shape and biases) and Gcj02ToBd09Radius (distance kept) |
| CoordinateTransformUtil.Bd09ToGcj02 | lib/android/src/main/java/cn/qiuxiang/react/baidumap/CoordinateTransformUtil.kt:78-88 | no contract of its own; its partners are UnwarpedPolar (biases removed first) and Bd09ToGcj02Radius (distance kept) |
| CoordinateTransformUtil.WarpedPolar | lib/android/src/main/java/cn/qiuxiang/react/baidumap/CoordinateTransformUtil.kt:58-66 | `gcj02tobd09` returns latitude z·sin θ + 0.006 and longitude z·cos θ + 0.0065, with z and θ from lines 61-62 |
| CoordinateTransformUtil.UnwarpedPolar | lib/android/src/main/java/cn/qiuxiang/react/baidumap/CoordinateTransformUtil.kt:78-88 | `bd09togcj02` removes the biases before computing z and θ, and returns z·sin θ, z·cos θ with no bias added |
| CoordinateTransformUtil.NormOfPolar | lib/android/src/main/java/cn/qiuxiang/react/baidumap/CoordinateTransformUtil.kt:63-64 | a point (z·sin θ, z·cos θ) lies at distance \|z\| from the origin |
| CoordinateTransformUtil.WarpedRadiusRipple | lib/android/src/main/java/cn/qiuxiang/react/baidumap/CoordinateTransformUtil.kt:61-61 | the radius z of `gcj02tobd09` is the distance from the origin plus 0.00002·sin(lat·x_pi), a ripple of at most 0.00002 |
| CoordinateTransformUtil.UnwarpedRadiusRipple | lib/android/src/main/java/cn/qiuxiang/react/baidumap/CoordinateTransformUtil.kt:83-83 | the radius z of `bd09togcj02` is the distance of the debiased point from the origin minus 0.00002·sin(y·x_pi), a ripple of at most 0.00002 |
| CoordinateTransformUtil.Gcj02ToBd09Radius | lib/android/src/main/java/cn/qiuxiang/react/baidumap/CoordinateTransformUtil.kt:58-66 | once its biases are removed, the BD-09 point is as far from the origin as the GCJ-02 point, to within 0.00002 |
| CoordinateTransformUtil.Bd09ToGcj02Radius | lib/android/src/main/java/cn/qiuxiang/react/baidumap/CoordinateTransformUtil.kt:78-88 | the GCJ-02 point is as far from the origin as the debiased BD-09 point, to within 0.00002 |
| CoordinateTransformUtil.BdRoundTripRadius | lib/android/src/main/java/cn/qiuxiang/react/baidumap/CoordinateTransformUtil.kt:58-88 | GCJ-02 → BD-09 → GCJ-02 cancels the biases and changes the distance from the origin by at most 0.00004 |
| CoordinateTransformUtil.Bd09ToWgs84 | lib/android/src/main/java/cn/qiuxiang/react/baidumap/CoordinateTransformUtil.kt:31-34 | the result is the GCJ-02 point itself when that point lies outside China, and is always within 0.0073 degrees of it in latitude |
| CoordinateTransformUtil.Wgs84ToBd09 | lib/android/src/main/java/cn/qiuxiang/react/baidumap/CoordinateTransformUtil.kt:43-46 | outside China the result is `gcj02tobd09` of the input; in general the debiased result is as far from the origin as the GCJ-02 point, to within 0.00002 |
| CoordinateTransformUtil.CompositesThroughGcj02 | lib/android/src/main/java/cn/qiuxiang/react/baidumap/CoordinateTransformUtil.kt:31-46 | `bd09towgs84` is `gcj02towgs84 ∘ bd09togcj02` and `wgs84tobd09` is `gcj02tobd09 ∘ wgs84togcj02`, with no extra correction |
| JavaMath.PolarNorm | lib/android/src/main/java/cn/qiuxiang/react/baidumap/CoordinateTransformUtil.kt:61-64 | sqrt(u² + v²) of u = z·cos θ, v = z·sin θ is \|z\| |
| JavaMath.Abs | lib/android/src/main/java/cn/qiuxiang/react/baidumap/CoordinateTransformUtil.kt:149-174 | `Math.abs`: non-negative, equal to x or -x, and at least x and -x |

## Left out

- Floating point: doubles are real numbers. IEEE-754 rounding, NaN, infinities and division by
  zero are not modelled, and neither are the accuracy of the conversions or agreement with
  published reference outputs.
- `Math.sin`, `Math.cos`, `Math.atan2`, `Math.sqrt`: these are the parameter `m`; only the
  facts in `Sound(m)` are assumed about them.
- Gcj02ToBd09, Bd09ToGcj02: no claim about the angle θ, and no exact round trip. The source's
  BD-09 round trip is not exact, and nothing about `atan2` is assumed. The contracts bound
  distances from the origin only.
- Wgs84ToGcj02, Gcj02ToWgs84, Shifted: the longitude offset is pinned down as `transformlng`
  times the positive factor LngScale, but that factor has no numerical upper bound. Its
  denominator contains cos(latitude), and `Sound(m)` gives no lower bound for the cosine.
- The Baidu SDK `LatLng` class is a plain datatype; no SDK behaviour is modelled.
- BaiduMapUtilModule.kt, BaiduMapMarkerManager.kt, index.d.ts and index.tsx are UI and SDK
  plumbing with no conversion logic of their own; they are not part of this model.
- The source declares `x_pi`, `pi`, `a` and `ee` as `internal var`. No code reassigns them, so
  they are `const` here. A reassignment from elsewhere in the module is not modelled.

/** The spatial partitioner of `geo_utils.py`, over exact reals. The cosine of a latitude is
    supplied by the caller as `cosLat`, and the non-degenerate zoom level is left as the
    ratio whose base-2 logarithm `calculate_zoom_level` floors. */
module Geo {

  /** Metres in one degree of latitude (and in one degree of longitude at the equator). */
  const MetersPerDegree: real := 111000.0
  /** The zoom level reported when the formula does not apply. */
  const MaxZoom: int := 21
  /** The Earth's circumference in metres used by the zoom formula. */
  const EarthCircumference: real := 40075000.0

  function Sq(x: real): (r: real)
  {
    x * x
  }

  /** A positive real has a positive square. */
  lemma SqPositive(x: real)
    requires x > 0.0
    ensures Sq(x) > 0.0
  {
    assert Sq(x) / x == x;
  }

  /** The square of an integer, as a real. */
  function IntSq(n: int): (r: real)
  {
    (n * n) as real
  }

  /** A circle of radius `r` reaches the corners of a square of side `w` centred on it:
      `r * sqrt(2) >= w`, that is `r >= w * sqrt(2) / 2`, decided without the square root. */
  predicate Covers(r: int, w: real)
  {
    if r >= 0 then w <= 0.0 || 2.0 * IntSq(r) >= Sq(w)
    else w < 0.0 && 2.0 * IntSq(r) <= Sq(w)
  }

  /** The least integer not below `x`. */
  function Ceil(x: real): (c: int)
    ensures c as real >= x && (c - 1) as real < x
  {
    -((-x).Floor)
  }

  /** The integer square root of `n`, searching upwards from `k`. */
  function FloorSqrtFrom(n: nat, k: nat): (r: nat)
    requires k * k <= n
    ensures r * r <= n < (r + 1) * (r + 1)
    decreases n - k
  {
    if (k + 1) * (k + 1) > n then k
    else
      assert k + 1 <= (k + 1) * (k + 1);
      FloorSqrtFrom(n, k + 1)
  }

  function FloorSqrt(n: nat): (r: nat)
    ensures r * r <= n < (r + 1) * (r + 1)
  {
    FloorSqrtFrom(n, 0)
  }

  /** The least natural number whose square is at least `n`. */
  function CeilSqrt(n: nat): (r: nat)
    ensures r * r >= n
    ensures r == 0 || (r - 1) * (r - 1) < n
  {
    var f := FloorSqrt(n);
    if f * f == n then f else f + 1
  }

  /** `calculate_circumscribed_radius`: `ceil(width * sqrt(2) / 2)`, the least integer radius
      whose circle reaches the corners of the square. */
  function CircumscribedRadius(width: real): (r: int)
    ensures Covers(r, width) && !Covers(r - 1, width)
  {
    var half := Sq(width) / 2.0;
    if width > 0.0 then
      RadiusOfPositiveWidth(width);
      CeilSqrt(Ceil(half))
    else
      RadiusOfNonPositiveWidth(width);
      -(FloorSqrt(half.Floor) as int)
  }

  /** The least natural `r` with `r * r >= h`, for a positive real `h`. */
  lemma CeilRootOfReal(h: real)
    requires h > 0.0
    ensures Ceil(h) >= 1
    ensures var r := CeilSqrt(Ceil(h)); r >= 1 && IntSq(r) >= h && IntSq(r - 1) < h
  {
    var c := Ceil(h);
    var r := CeilSqrt(c);
    assert r * r >= 1;
    assert (r - 1) * (r - 1) <= c - 1;
  }

  /** The greatest natural `m` with `m * m <= h`, for a non-negative real `h`. */
  lemma FloorRootOfReal(h: real)
    requires h >= 0.0
    ensures h.Floor >= 0
    ensures var m := FloorSqrt(h.Floor); IntSq(m) <= h && IntSq(m + 1) > h
  {
  }

  lemma RadiusOfPositiveWidth(width: real)
    requires width > 0.0
    ensures var half := Sq(width) / 2.0;
      && Ceil(half) >= 0
      && var r := CeilSqrt(Ceil(half)); Covers(r, width) && !Covers(r - 1, width)
  {
    SqPositive(width);
    CeilRootOfReal(Sq(width) / 2.0);
  }

  lemma RadiusOfNonPositiveWidth(width: real)
    requires width <= 0.0
    ensures var half := Sq(width) / 2.0;
      && half.Floor >= 0
      && var r := -(FloorSqrt(half.Floor) as int); Covers(r, width) && !Covers(r - 1, width)
  {
    assert Sq(width) >= 0.0;
    var half := Sq(width) / 2.0;
    FloorRootOfReal(half);
    var m := FloorSqrt(half.Floor);
    var r: int := -(m as int);
    assert r * r == m * m;
    assert IntSq(r) == IntSq(m);
    assert (r - 1) * (r - 1) == (m + 1) * (m + 1);
    assert IntSq(r - 1) == IntSq(m + 1);
    if m > 0 {
      assert m * m > 0;
      assert width != 0.0;
    }
  }

  /** A radius that reaches the corners of a square also reaches those of any smaller one. */
  lemma CoversSmaller(r: int, w1: real, w2: real)
    requires w1 <= w2 && Covers(r, w2)
    ensures Covers(r, w1)
  {
    if r >= 0 {
      if w1 > 0.0 {
        assert w1 * w1 <= w1 * w2 <= w2 * w2;
      }
    } else {
      assert w2 * w2 <= w1 * w2 <= w1 * w1;
    }
  }

  /** A larger radius reaches whatever a smaller one reaches. */
  lemma CoversLarger(r1: int, r2: int, w: real)
    requires r1 <= r2 && Covers(r1, w)
    ensures Covers(r2, w)
  {
    if r1 >= 0 {
      assert r1 * r1 <= r1 * r2 <= r2 * r2;
    } else if r2 < 0 {
      assert r2 * r2 <= r1 * r2 <= r1 * r1;
    }
  }

  /** The circumscribed radius never decreases as the square grows. */
  lemma CircumscribedRadiusMonotone(w1: real, w2: real)
    requires w1 <= w2
    ensures CircumscribedRadius(w1) <= CircumscribedRadius(w2)
  {
    var r1, r2 := CircumscribedRadius(w1), CircumscribedRadius(w2);
    CoversSmaller(r2, w1, w2);
    if r2 < r1 {
      CoversLarger(r2, r1 - 1, w1);
    }
  }

  /** The radius is positive exactly for a square of positive width. */
  lemma CircumscribedRadiusPositive(width: real)
    ensures CircumscribedRadius(width) > 0 <==> width > 0.0
  {
    var r := CircumscribedRadius(width);
    if width > 0.0 && r <= 0 {
      SqPositive(width);
      CoversLarger(r, 0, width);
    }
  }

  /** The zoom hint: the sentinel level, the viewport ratio whose base-2 logarithm
      `calculate_zoom_level` floors (a step this model does not take), or the `ValueError` that `math.log2` raises
      on a ratio that is not positive. */
  datatype Zoom = Level(level: int) | FloorLog2(ratio: real) | DomainError

  /** `calculate_zoom_level`: the zoom at which the map viewport at a latitude with cosine
      `cosLat` spans `2 * radius` metres. */
  function ZoomLevel(radius: real, cosLat: real): (z: Zoom)
    ensures radius <= 0.0 <==> z == Level(MaxZoom)
    ensures z.FloorLog2? ==> z.ratio > 0.0 && z.ratio * (2.0 * radius) == EarthCircumference * cosLat
    ensures radius > 0.0 ==> (z.DomainError? <==> cosLat <= 0.0)
  {
    if radius <= 0.0 then Level(MaxZoom)
    else
      var circumference := EarthCircumference * cosLat;
      var desiredWidth := 2.0 * radius;
      if desiredWidth <= 0.0 then Level(MaxZoom)
      else
        var ratio := circumference / desiredWidth;
        if ratio <= 0.0 then DomainError else FloorLog2(ratio)
  }

  /** As `post_task` computes it, the zoom hint for a square is the sentinel exactly when the
      square has no positive width. */
  lemma ZoomForSquare(width: real, cosLat: real)
    ensures ZoomLevel(CircumscribedRadius(width) as real, cosLat) == Level(MaxZoom) <==> width <= 0.0
  {
    CircumscribedRadiusPositive(width);
  }

  /** One `(new_lat, new_lng, new_width)` tuple of `split_square`. */
  datatype SubSquare = SubSquare(lat: real, lng: real, width: real)

  /** The direction of the `i`-th quadrant from the centre: the first two lie north, the
      even-numbered ones east (top-right, top-left, bottom-right, bottom-left). */
  function NorthSign(i: int): (r: real)
  {
    if i < 2 then 1.0 else -1.0
  }

  function EastSign(i: int): (r: real)
  {
    if i % 2 == 0 then 1.0 else -1.0
  }

  /** The offset of `q`'s centre from `(lat, lng)` in metres, north and east, in the local
      planar approximation. */
  function North(q: SubSquare, lat: real): (r: real)
  {
    (q.lat - lat) * MetersPerDegree
  }

  function East(q: SubSquare, lng: real, cosLat: real): (r: real)
  {
    (q.lng - lng) * MetersPerDegree * cosLat
  }

  /** `split_square`: four half-width squares whose centres lie a quarter of the width away
      from the centre along both axes, one in each quadrant. `cosLat` is the cosine of `lat`;
      `split_square` divides by it. */
  function SplitSquare(lat: real, lng: real, width: real, cosLat: real): (r: seq<SubSquare>)
    requires cosLat != 0.0
    ensures |r| == 4
    ensures forall i :: 0 <= i < 4 ==> r[i].width == width / 2.0
    ensures forall i :: 0 <= i < 4 ==>
      North(r[i], lat) == NorthSign(i) * width / 4.0 && East(r[i], lng, cosLat) == EastSign(i) * width / 4.0
  {
    var newWidth := width / 2.0;
    var offset := newWidth / 2.0;
    var latOffset := offset / MetersPerDegree;
    var lngOffset := offset / (MetersPerDegree * cosLat);
    assert lngOffset * (MetersPerDegree * cosLat) == offset;
    assert lngOffset * MetersPerDegree * cosLat == offset;
    [ SubSquare(lat + latOffset, lng + lngOffset, newWidth),  // top-right
      SubSquare(lat + latOffset, lng - lngOffset, newWidth),  // top-left
      SubSquare(lat - latOffset, lng + lngOffset, newWidth),  // bottom-right
      SubSquare(lat - latOffset, lng - lngOffset, newWidth)   // bottom-left
    ]
  }

  /** The four centres average to the parent's centre. */
  lemma SplitCentroid(lat: real, lng: real, width: real, cosLat: real)
    requires cosLat != 0.0
    ensures var r := SplitSquare(lat, lng, width, cosLat);
      && (r[0].lat + r[1].lat + r[2].lat + r[3].lat) / 4.0 == lat
      && (r[0].lng + r[1].lng + r[2].lng + r[3].lng) / 4.0 == lng
  {
    var r := SplitSquare(lat, lng, width, cosLat);
    assert (r[0].lat - lat) + (r[1].lat - lat) + (r[2].lat - lat) + (r[3].lat - lat) == 0.0 by {
      assert North(r[0], lat) + North(r[1], lat) + North(r[2], lat) + North(r[3], lat) == 0.0;
    }
    assert (r[0].lng - lng) + (r[1].lng - lng) + (r[2].lng - lng) + (r[3].lng - lng) == 0.0 by {
      var e := MetersPerDegree * cosLat;
      assert East(r[0], lng, cosLat) + East(r[1], lng, cosLat) + East(r[2], lng, cosLat) + East(r[3], lng, cosLat) == 0.0;
      assert ((r[0].lng - lng) + (r[1].lng - lng) + (r[2].lng - lng) + (r[3].lng - lng)) * e == 0.0;
    }
  }

  /** Point `(x, y)`, in metres north and east of a centre, lies in the closed square of
      half-side `h` about `(cx, cy)`. */
  predicate Within(x: real, y: real, cx: real, cy: real, h: real)
  {
    cx - h <= x <= cx + h && cy - h <= y <= cy + h
  }

  /** The same, for the open square. */
  predicate StrictlyWithin(x: real, y: real, cx: real, cy: real, h: real)
  {
    cx - h < x < cx + h && cy - h < y < cy + h
  }

  /** The quadrant that holds a point: north before south, east before west. */
  function Quadrant(x: real, y: real): (i: int)
    ensures 0 <= i < 4
    ensures (x >= 0.0 <==> NorthSign(i) == 1.0) && (y >= 0.0 <==> EastSign(i) == 1.0)
  {
    if x >= 0.0 then (if y >= 0.0 then 0 else 1) else (if y >= 0.0 then 2 else 3)
  }

  /** The four sub-squares tile the parent in local metres: every point of the parent lies in
      the sub-square of its quadrant, each sub-square lies inside the parent, and no point is
      inside two of them. */
  lemma SplitTiles(lat: real, lng: real, width: real, cosLat: real, x: real, y: real)
    requires cosLat != 0.0 && width >= 0.0
    ensures var r := SplitSquare(lat, lng, width, cosLat); var i := Quadrant(x, y);
      Within(x, y, 0.0, 0.0, width / 2.0) ==>
        Within(x, y, North(r[i], lat), East(r[i], lng, cosLat), r[i].width / 2.0)
    ensures var r := SplitSquare(lat, lng, width, cosLat);
      forall i :: 0 <= i < 4 && Within(x, y, North(r[i], lat), East(r[i], lng, cosLat), r[i].width / 2.0) ==>
        Within(x, y, 0.0, 0.0, width / 2.0)
    ensures var r := SplitSquare(lat, lng, width, cosLat);
      forall i, j ::
        (&& 0 <= i < 4 && 0 <= j < 4
         && StrictlyWithin(x, y, North(r[i], lat), East(r[i], lng, cosLat), r[i].width / 2.0)
         && StrictlyWithin(x, y, North(r[j], lat), East(r[j], lng, cosLat), r[j].width / 2.0))
        ==> i == j
  {
  }
}

/** The crossing test of services/ride/src/ride/ride.service.ts and services/ride/src/meritocracy/meritocracy.service.ts,
    over the reals, and the closing of polygons in services/ride/src/ride/ride-operations.service.ts. */
module Polygons {
  import opened Common

  datatype Point = Point(lat: real, lng: real)

  predicate Above(v: Point, p: Point) { v.lat > p.lat }

  predicate Straddles(p: Point, i: Point, j: Point) { Above(i, p) != Above(j, p) }

  /** Where the line through `i` and `j` meets the latitude of `p`. */
  function Where(p: Point, i: Point, j: Point): real {
    ((j.lng - i.lng) * (p.lat - i.lat)) / (if j.lat - i.lat == 0.0 then 0.000000001 else j.lat - i.lat) + i.lng
  }

  predicate Crosses(p: Point, i: Point, j: Point) { Straddles(p, i, j) && p.lng < Where(p, i, j) }

  function Bit(b: bool): nat { if b then 1 else 0 }

  /** Crossings along the open chain, each edge taken as the loop takes it, from its end to its start. */
  function Chain(p: Point, s: seq<Point>): nat {
    if |s| <= 1 then 0 else Chain(p, s[..|s| - 1]) + Bit(Crosses(p, s[|s| - 1], s[|s| - 2]))
  }

  function Crossings(p: Point, polygon: seq<Point>): nat {
    if polygon == [] then 0 else Bit(Crosses(p, polygon[0], polygon[|polygon| - 1])) + Chain(p, polygon)
  }

  predicate Inside(p: Point, polygon: seq<Point>) { Crossings(p, polygon) % 2 == 1 }

  method PointInPolygon(p: Point, polygon: seq<Point>) returns (inside: bool)
    ensures inside == Inside(p, polygon)
  {
    inside := false;
    var i, j := 0, |polygon| - 1;
    while i < |polygon|
      invariant 0 <= i <= |polygon|
      invariant j == if i == 0 then |polygon| - 1 else i - 1
      invariant inside == (i > 0 && (Bit(Crosses(p, polygon[0], polygon[|polygon| - 1])) + Chain(p, polygon[..i])) % 2 == 1)
    {
      assert polygon[..i + 1][..i] == polygon[..i];
      if Crosses(p, polygon[i], polygon[j]) { inside := !inside; }
      i, j := i + 1, i;
    }
    assert polygon[..i] == polygon;
  }

  /** Two chains joined by an edge. */
  lemma {:induction false} ChainConcat(p: Point, a: seq<Point>, b: seq<Point>)
    requires a != [] && b != []
    ensures Chain(p, a + b) == Chain(p, a) + Bit(Crosses(p, b[0], a[|a| - 1])) + Chain(p, b)
    decreases |b|
  {
    if |b| == 1 {
      assert (a + b)[..|a|] == a;
    } else {
      assert (a + b)[..|a + b| - 1] == a + b[..|b| - 1];
      ChainConcat(p, a, b[..|b| - 1]);
    }
  }

  /** The answer does not depend on the vertex the list starts with. */
  lemma RotationKeepsInside(p: Point, a: seq<Point>, b: seq<Point>)
    ensures Inside(p, a + b) == Inside(p, b + a)
  {
    if a == [] || b == [] {
      assert a + b == b + a;
    } else {
      ChainConcat(p, a, b);
      ChainConcat(p, b, a);
    }
  }

  predicate SamePlace(a: Point, b: Point) { a.lat == b.lat && a.lng == b.lng }

  /** Lines 39-46: fewer than three points are refused, and an open list is closed with its first point. */
  function NormalizePolygon(polygon: seq<Point>): Option<seq<Point>> {
    if |polygon| < 3 then None
    else if !SamePlace(polygon[0], polygon[|polygon| - 1]) then Some(polygon + [polygon[0]])
    else Some(polygon)
  }

  /** Closing a polygon changes no answer, and leaves a closed one of at least three points as it is. */
  lemma ClosingKeepsInside(p: Point, polygon: seq<Point>)
    requires NormalizePolygon(polygon).Some?
    ensures
      var closed := NormalizePolygon(polygon).value;
      && Inside(p, closed) == Inside(p, polygon)
      && SamePlace(closed[0], closed[|closed| - 1]) && NormalizePolygon(closed) == Some(closed)
  {
    ChainConcat(p, polygon, [polygon[0]]);
  }

  // ---- Orientation and gluing ----

  lemma Quotient(a: real, d: real)
    requires d != 0.0
    ensures (a / d) * d == a
  {
  }

  /** The meeting point, without the division. */
  lemma WhereTimes(p: Point, i: Point, j: Point)
    requires i.lat != j.lat
    ensures Where(p, i, j) * (j.lat - i.lat) == j.lng * (p.lat - i.lat) + i.lng * (j.lat - p.lat)
  {
    var d, a := j.lat - i.lat, (j.lng - i.lng) * (p.lat - i.lat);
    Quotient(a, d);
    assert (a / d + i.lng) * d == (a / d) * d + i.lng * d;
  }

  lemma Cancel(a: real, b: real, d: real)
    requires d != 0.0 && a * d == b * d
    ensures a == b
  {
    Quotient(a * d, d);
    Quotient(b * d, d);
    assert (a - b) * d == 0.0;
  }

  lemma SameMean(v: real, w: real, d: real, x: real, a: real, y: real, b: real)
    requires d != 0.0 && v * d == x * a + y * b && w * -d == y * -b + x * -a
    ensures v == w
  {
    assert w * -d == -(w * d) && y * -b == -(y * b) && x * -a == -(x * a);
    Cancel(v, w, d);
  }

  lemma CrossesSymmetric(p: Point, i: Point, j: Point)
    ensures Crosses(p, i, j) == Crosses(p, j, i)
  {
    if Straddles(p, i, j) {
      WhereTimes(p, i, j);
      WhereTimes(p, j, i);
      var d, a, b := j.lat - i.lat, p.lat - i.lat, j.lat - p.lat;
      assert i.lat - j.lat == -d && i.lat - p.lat == -a && p.lat - j.lat == -b;
      SameMean(Where(p, i, j), Where(p, j, i), d, j.lng, a, i.lng, b);
    }
  }

  function Reverse(s: seq<Point>): (r: seq<Point>)
    ensures |r| == |s| && (s != [] ==> r[0] == s[|s| - 1] && r[|r| - 1] == s[0])
  {
    if s == [] then [] else [s[|s| - 1]] + Reverse(s[..|s| - 1])
  }

  lemma {:induction false} ChainReverse(p: Point, s: seq<Point>)
    ensures Chain(p, Reverse(s)) == Chain(p, s)
  {
    if |s| > 1 {
      var init, last := s[..|s| - 1], s[|s| - 1];
      ChainReverse(p, init);
      ChainConcat(p, [last], Reverse(init));
      CrossesSymmetric(p, last, s[|s| - 2]);
    }
  }

  /** Nor on the direction in which the boundary is listed. */
  lemma ReversalKeepsInside(p: Point, polygon: seq<Point>)
    ensures Inside(p, Reverse(polygon)) == Inside(p, polygon)
  {
    ChainReverse(p, polygon);
    if polygon != [] { CrossesSymmetric(p, polygon[0], polygon[|polygon| - 1]); }
  }

  lemma CrossingsOfParts(p: Point, u: Point, s: seq<Point>, v: Point, t: seq<Point>)
    requires t != []
    ensures Crossings(p, [u] + s + [v] + t)
         == Chain(p, [u] + s + [v]) + Bit(Crosses(p, t[0], v)) + Chain(p, t) + Bit(Crosses(p, u, t[|t| - 1]))
  {
    var left := [u] + s + [v];
    ChainConcat(p, left, t);
    assert left[|left| - 1] == v && (left + t)[0] == u && (left + t)[|left + t| - 1] == t[|t| - 1];
  }

  lemma CrossingsOfCap(p: Point, v: Point, t: seq<Point>, u: Point)
    requires t != []
    ensures Crossings(p, [v] + t + [u])
         == Bit(Crosses(p, v, u)) + Bit(Crosses(p, t[0], v)) + Chain(p, t) + Bit(Crosses(p, u, t[|t| - 1]))
  {
    ChainConcat(p, [v], t);
    ChainConcat(p, [v] + t, [u]);
    var right := [v] + t + [u];
    assert right[0] == v && right[|right| - 1] == u && ([v] + t)[|[v] + t| - 1] == t[|t| - 1];
  }

  lemma CrossingsOfSpan(p: Point, u: Point, s: seq<Point>, v: Point)
    ensures Crossings(p, [u] + s + [v]) == Bit(Crosses(p, u, v)) + Chain(p, [u] + s + [v])
  {
    var left := [u] + s + [v];
    assert left[0] == u && left[|left| - 1] == v;
  }

  lemma DigonCrossings(p: Point, u: Point, v: Point)
    ensures Crossings(p, [v] + [u]) == 2 * Bit(Crosses(p, u, v))
  {
    CrossesSymmetric(p, u, v);
    ChainConcat(p, [v], [u]);
  }

  /** The parts cross together what the whole crosses, and the chord twice. */
  lemma GluingCounts(p: Point, u: Point, s: seq<Point>, v: Point, t: seq<Point>)
    ensures Crossings(p, [u] + s + [v]) + Crossings(p, [v] + t + [u])
         == Crossings(p, [u] + s + [v] + t) + 2 * Bit(Crosses(p, u, v))
  {
    CrossesSymmetric(p, u, v);
    if t == [] {
      assert [u] + s + [v] + t == [u] + s + [v] && [v] + t + [u] == [v] + [u];
      DigonCrossings(p, u, v);
    } else {
      CrossingsOfParts(p, u, s, v, t);
      CrossingsOfCap(p, v, t, u);
      CrossingsOfSpan(p, u, s, v);
    }
  }

  lemma ParityOfSum(whole: nat, left: nat, right: nat, c: nat)
    requires left + right == whole + 2 * c
    ensures (whole % 2 == 1) == ((left % 2 == 1) != (right % 2 == 1))
  {
  }

  /** Cutting a polygon along a chord from `u` to `v`: a point is inside it if it is inside exactly one of the parts. */
  lemma GluingXors(p: Point, u: Point, s: seq<Point>, v: Point, t: seq<Point>)
    ensures Inside(p, [u] + s + [v] + t) == (Inside(p, [u] + s + [v]) != Inside(p, [v] + t + [u]))
  {
    GluingCounts(p, u, s, v, t);
    ParityOfSum(Crossings(p, [u] + s + [v] + t), Crossings(p, [u] + s + [v]), Crossings(p, [v] + t + [u]), Bit(Crosses(p, u, v)));
  }

  // ---- Parity, and the bounding box ----

  function Straddlings(p: Point, s: seq<Point>): nat {
    if |s| <= 1 then 0 else Straddlings(p, s[..|s| - 1]) + Bit(Straddles(p, s[|s| - 1], s[|s| - 2]))
  }

  /** A chain straddles a horizontal line an odd number of times exactly when its ends lie on different sides. */
  lemma {:induction false} ChainParity(p: Point, s: seq<Point>)
    requires s != []
    ensures Straddlings(p, s) % 2 == Bit(Straddles(p, s[0], s[|s| - 1]))
  {
    if |s| > 1 { ChainParity(p, s[..|s| - 1]); }
  }

  /** So a closed one straddles it an even number of times. */
  lemma ClosedChainIsEven(p: Point, polygon: seq<Point>)
    requires polygon != []
    ensures (Bit(Straddles(p, polygon[0], polygon[|polygon| - 1])) + Straddlings(p, polygon)) % 2 == 0
  {
    ChainParity(p, polygon);
  }

  lemma ProductSign(x: real, y: real)
    ensures x >= 0.0 && y >= 0.0 ==> x * y >= 0.0
    ensures x >= 0.0 && y <= 0.0 ==> x * y <= 0.0
    ensures x < 0.0 && y > 0.0 ==> x * y < 0.0
    ensures x < 0.0 && y < 0.0 ==> x * y > 0.0
  {
  }

  lemma Distribute(x: real, y: real, z: real)
    ensures (x - y) * z == x * z - y * z && x * (y + z) == x * y + x * z
  {
  }

  /** A mean with weights of one sign is at most every bound on its terms. */
  lemma MeanAtMost(w: real, d: real, x: real, a: real, y: real, b: real, bound: real)
    requires w * d == x * a + y * b && d == a + b != 0.0 && ((a >= 0.0 && b >= 0.0) || (a <= 0.0 && b <= 0.0))
    requires x <= bound && y <= bound
    ensures w <= bound
  {
    Distribute(bound, w, d);
    Distribute(bound, a, b);
    Distribute(bound, x, a);
    Distribute(bound, y, b);
    assert (bound - w) * d == (bound - x) * a + (bound - y) * b;
    ProductSign(bound - x, a);
    ProductSign(bound - y, b);
    ProductSign(bound - w, d);
  }

  /** On an edge that straddles the latitude, the meeting point is no further east than its ends. */
  lemma WhereAtMost(p: Point, i: Point, j: Point, east: real)
    requires Straddles(p, i, j) && i.lng <= east && j.lng <= east
    ensures Where(p, i, j) <= east
  {
    WhereTimes(p, i, j);
    MeanAtMost(Where(p, i, j), j.lat - i.lat, j.lng, p.lat - i.lat, i.lng, j.lat - p.lat, east);
  }

  lemma WhereBeyond(p: Point, i: Point, j: Point, west: real)
    requires Straddles(p, i, j) && west < i.lng && west < j.lng
    ensures west < Where(p, i, j)
  {
    WhereTimes(p, i, j);
    var low := if i.lng < j.lng then i.lng else j.lng;
    var w, d, a, b := Where(p, i, j), j.lat - i.lat, p.lat - i.lat, j.lat - p.lat;
    Distribute(0.0, w, d);
    Distribute(0.0, j.lng, a);
    Distribute(0.0, i.lng, b);
    MeanAtMost(-w, d, -j.lng, a, -i.lng, b, -low);
  }

  predicate OutsideBox(p: Point, polygon: seq<Point>) {
    || (forall k :: 0 <= k < |polygon| ==> polygon[k].lat <= p.lat)
    || (forall k :: 0 <= k < |polygon| ==> polygon[k].lat > p.lat)
    || (forall k :: 0 <= k < |polygon| ==> polygon[k].lng <= p.lng)
    || (forall k :: 0 <= k < |polygon| ==> polygon[k].lng > p.lng)
  }

  lemma {:induction false} ChainMissed(p: Point, s: seq<Point>)
    requires forall i, j | 0 <= i < |s| && 0 <= j < |s| :: !Crosses(p, s[i], s[j])
    ensures Chain(p, s) == 0
  {
    if |s| > 1 { ChainMissed(p, s[..|s| - 1]); }
  }

  lemma {:induction false} ChainAllCross(p: Point, s: seq<Point>)
    requires forall i, j | 0 <= i < |s| && 0 <= j < |s| :: Crosses(p, s[i], s[j]) == Straddles(p, s[i], s[j])
    ensures Chain(p, s) == Straddlings(p, s)
  {
    if |s| > 1 { ChainAllCross(p, s[..|s| - 1]); }
  }

  lemma EastOfAll(p: Point, polygon: seq<Point>)
    requires polygon != [] && forall k :: 0 <= k < |polygon| ==> polygon[k].lng > p.lng
    ensures !Inside(p, polygon)
  {
    forall i, j | 0 <= i < |polygon| && 0 <= j < |polygon|
      ensures Crosses(p, polygon[i], polygon[j]) == Straddles(p, polygon[i], polygon[j])
    {
      if Straddles(p, polygon[i], polygon[j]) { WhereBeyond(p, polygon[i], polygon[j], p.lng); }
    }
    ChainAllCross(p, polygon);
    ClosedChainIsEven(p, polygon);
  }

  lemma NothingCrosses(p: Point, polygon: seq<Point>)
    requires polygon != [] && forall i, j | 0 <= i < |polygon| && 0 <= j < |polygon| :: !Crosses(p, polygon[i], polygon[j])
    ensures !Inside(p, polygon)
  {
    ChainMissed(p, polygon);
  }

  lemma WestOfNone(p: Point, polygon: seq<Point>)
    requires polygon != [] && forall k :: 0 <= k < |polygon| ==> polygon[k].lng <= p.lng
    ensures !Inside(p, polygon)
  {
    forall i, j | 0 <= i < |polygon| && 0 <= j < |polygon| ensures !Crosses(p, polygon[i], polygon[j]) {
      if Straddles(p, polygon[i], polygon[j]) { WhereAtMost(p, polygon[i], polygon[j], p.lng); }
    }
    NothingCrosses(p, polygon);
  }

  /** No point outside the bounding box, its north and east sides included, is inside the polygon. */
  lemma OutsideBoxIsOutside(p: Point, polygon: seq<Point>)
    requires OutsideBox(p, polygon)
    ensures !Inside(p, polygon)
  {
    if polygon == [] {
    } else if forall k :: 0 <= k < |polygon| ==> polygon[k].lng > p.lng {
      EastOfAll(p, polygon);
    } else if forall k :: 0 <= k < |polygon| ==> polygon[k].lng <= p.lng {
      WestOfNone(p, polygon);
    } else {
      NothingCrosses(p, polygon);
    }
  }

  /** On a rectangle the test is exact, with the south and west sides inside and the north and east ones outside. */
  lemma RectangleExact(p: Point, south: real, west: real, north: real, east: real)
    requires south < north && west < east
    ensures Inside(p, [Point(south, west), Point(south, east), Point(north, east), Point(north, west)])
            <==> south <= p.lat < north && west <= p.lng < east
  {
    var a, b, c, d := Point(south, west), Point(south, east), Point(north, east), Point(north, west);
    ChainConcat(p, [a, b, c], [d]);
    ChainConcat(p, [a, b], [c]);
    ChainConcat(p, [a], [b]);
    assert [a] + [b] == [a, b] && [a, b] + [c] == [a, b, c] && [a, b, c] + [d] == [a, b, c, d];
    VerticalCrossing(p, c, b);
    VerticalCrossing(p, a, d);
  }

  lemma VerticalCrossing(p: Point, i: Point, j: Point)
    requires i.lng == j.lng
    ensures Crosses(p, i, j) <==> Straddles(p, i, j) && p.lng < i.lng
  {
    assert (j.lng - i.lng) * (p.lat - i.lat) == 0.0;
    if i.lat != j.lat { Quotient(0.0, j.lat - i.lat); }
    if Straddles(p, i, j) {
      WhereTimes(p, i, j);
      assert i.lng * (p.lat - i.lat) + i.lng * (j.lat - p.lat) == i.lng * (j.lat - i.lat);
      Cancel(Where(p, i, j), i.lng, j.lat - i.lat);
    }
  }

  // ---- Slanted edges ----

  /** Twice the signed area of `i`, `j` and `p`: positive on one side of the edge and negative on the other. */
  function Side(p: Point, i: Point, j: Point): real {
    (i.lng - p.lng) * (j.lat - p.lat) - (j.lng - p.lng) * (i.lat - p.lat)
  }

  /** The order of two quotients by one number. */
  lemma BelowTimes(a: real, b: real, d: real)
    requires d != 0.0
    ensures d > 0.0 ==> (a < b <==> a * d < b * d)
    ensures d < 0.0 ==> (a < b <==> b * d < a * d)
  {
    ProductSign(b - a, d);
    Distribute(b, a, d);
  }

  lemma SideOfWhere(p: Point, i: Point, j: Point)
    requires i.lat != j.lat
    ensures Where(p, i, j) * (j.lat - i.lat) - p.lng * (j.lat - i.lat) == Side(p, i, j)
  {
    WhereTimes(p, i, j);
  }

  /** The test without the division: a rising edge is crossed by the points on its one side, a falling one by those on the
      other, at latitudes from its lower end up to below its upper end. */
  lemma CrossesBySide(p: Point, i: Point, j: Point)
    ensures Crosses(p, i, j)
            <==> (i.lat <= p.lat < j.lat && Side(p, i, j) > 0.0) || (j.lat <= p.lat < i.lat && Side(p, i, j) < 0.0)
  {
    if Straddles(p, i, j) {
      var w, d, side := Where(p, i, j), j.lat - i.lat, Side(p, i, j);
      SideOfWhere(p, i, j);
      BelowTimes(p.lng, w, d);
      assert w * d - p.lng * d == side;
      if d > 0.0 { assert p.lng < w <==> side > 0.0; } else { assert p.lng < w <==> side < 0.0; }
    }
  }

  lemma SidesBalance(p: Point, a: Point, b: Point, c: Point)
    ensures Side(p, a, b) * (c.lat - p.lat) + Side(p, b, c) * (a.lat - p.lat) + Side(p, c, a) * (b.lat - p.lat) == 0.0
  {
    var xa, ya, xb, yb, xc, yc := a.lng - p.lng, a.lat - p.lat, b.lng - p.lng, b.lat - p.lat, c.lng - p.lng, c.lat - p.lat;
    CrossIdentity(xa, ya, xb, yb, xc, yc);
  }

  lemma CrossIdentity(xa: real, ya: real, xb: real, yb: real, xc: real, yc: real)
    ensures (xa * yb - xb * ya) * yc + (xb * yc - xc * yb) * ya + (xc * ya - xa * yc) * yb == 0.0
  {
  }

  /** The triangle's own area, from any point. */
  lemma SidesAddUp(p: Point, a: Point, b: Point, c: Point)
    ensures Side(p, a, b) + Side(p, b, c) + Side(p, c, a) == Side(c, a, b)
  {
  }

  lemma TriangleCrossings(p: Point, a: Point, b: Point, c: Point)
    ensures Crossings(p, [a, b, c]) == Bit(Crosses(p, a, b)) + Bit(Crosses(p, b, c)) + Bit(Crosses(p, c, a))
  {
    ChainConcat(p, [a, b], [c]);
    ChainConcat(p, [a], [b]);
    assert [a] + [b] == [a, b] && [a, b] + [c] == [a, b, c];
    CrossesSymmetric(p, a, b);
    CrossesSymmetric(p, b, c);
    CrossesSymmetric(p, a, c);
  }

  /** Three products that add up to nothing, the first two of one sign. */
  lemma ThirdSign(s: real, x: real, t: real, y: real, u: real, z: real)
    requires s * x + t * y + u * z == 0.0
    ensures s > 0.0 && t >= 0.0 && x <= 0.0 && y <= 0.0 && z > 0.0 ==> u >= 0.0
    ensures s > 0.0 && t >= 0.0 && x > 0.0 && y > 0.0 && z <= 0.0 ==> u > 0.0
    ensures s <= 0.0 && t < 0.0 && x <= 0.0 && y <= 0.0 && z > 0.0 ==> u <= 0.0
    ensures s <= 0.0 && t < 0.0 && x > 0.0 && y > 0.0 && z <= 0.0 ==> u < 0.0
  {
    ProductSign(s, x);
    ProductSign(t, y);
    ProductSign(u, z);
    ProductSign(x, s);
    ProductSign(y, t);
    ProductSign(z, u);
  }

  /** The apex `c` is on the other side of the latitude of `p` than `a` and `b`: of the two edges at the apex the one is crossed
      exactly when the other is, unless the sides of the triangle differ in sign. */
  lemma ApexCrossings(p: Point, a: Point, b: Point, c: Point)
    requires Above(a, p) == Above(b, p) != Above(c, p) && Side(p, a, b) + Side(p, b, c) + Side(p, c, a) > 0.0
    ensures Side(p, a, b) > 0.0 && Side(p, b, c) > 0.0 && Side(p, c, a) > 0.0 ==> Crosses(p, b, c) != Crosses(p, c, a)
    ensures Side(p, a, b) < 0.0 || Side(p, b, c) < 0.0 || Side(p, c, a) < 0.0 ==> Crosses(p, b, c) == Crosses(p, c, a)
  {
    CrossesBySide(p, b, c);
    CrossesBySide(p, c, a);
    SidesBalance(p, a, b, c);
    ThirdSign(Side(p, b, c), a.lat - p.lat, Side(p, c, a), b.lat - p.lat, Side(p, a, b), c.lat - p.lat);
    ThirdSign(Side(p, c, a), b.lat - p.lat, Side(p, b, c), a.lat - p.lat, Side(p, a, b), c.lat - p.lat);
  }

  lemma LevelTriangle(p: Point, a: Point, b: Point, c: Point)
    requires Side(p, a, b) > 0.0 && Side(p, b, c) > 0.0 && Side(p, c, a) > 0.0
    ensures !(Above(a, p) == Above(b, p) == Above(c, p))
  {
    SidesBalance(p, a, b, c);
    ProductSign(Side(p, a, b), c.lat - p.lat);
    ProductSign(Side(p, b, c), a.lat - p.lat);
    ProductSign(Side(p, c, a), b.lat - p.lat);
    ProductSign(c.lat - p.lat, Side(p, a, b));
    ProductSign(a.lat - p.lat, Side(p, b, c));
    ProductSign(b.lat - p.lat, Side(p, c, a));
  }

  lemma NoneCross(p: Point, a: Point, b: Point, c: Point)
    requires Above(a, p) == Above(b, p) == Above(c, p)
    ensures !Inside(p, [a, b, c])
  {
    TriangleCrossings(p, a, b, c);
  }

  /** The latitude of `p` parts `c` from `a` and `b`. */
  lemma ApexInside(p: Point, a: Point, b: Point, c: Point)
    requires Above(a, p) == Above(b, p) != Above(c, p) && Side(p, a, b) + Side(p, b, c) + Side(p, c, a) > 0.0
    ensures Side(p, a, b) > 0.0 && Side(p, b, c) > 0.0 && Side(p, c, a) > 0.0 ==> Inside(p, [a, b, c])
    ensures Side(p, a, b) < 0.0 || Side(p, b, c) < 0.0 || Side(p, c, a) < 0.0 ==> !Inside(p, [a, b, c])
  {
    TriangleCrossings(p, a, b, c);
    ApexCrossings(p, a, b, c);
  }

  lemma TurnTriangle(p: Point, a: Point, b: Point, c: Point)
    ensures Inside(p, [a, b, c]) == Inside(p, [b, c, a])
  {
    RotationKeepsInside(p, [a], [b, c]);
    assert [a] + [b, c] == [a, b, c] && [b, c] + [a] == [b, c, a];
  }

  lemma LeftTriangleExact(p: Point, a: Point, b: Point, c: Point)
    requires Side(c, a, b) > 0.0
    ensures Side(p, a, b) > 0.0 && Side(p, b, c) > 0.0 && Side(p, c, a) > 0.0 ==> Inside(p, [a, b, c])
    ensures Side(p, a, b) < 0.0 || Side(p, b, c) < 0.0 || Side(p, c, a) < 0.0 ==> !Inside(p, [a, b, c])
  {
    SidesAddUp(p, a, b, c);
    if Above(a, p) == Above(b, p) == Above(c, p) {
      NoneCross(p, a, b, c);
      if Side(p, a, b) > 0.0 && Side(p, b, c) > 0.0 && Side(p, c, a) > 0.0 { LevelTriangle(p, a, b, c); }
    } else if Above(a, p) == Above(b, p) {
      ApexInside(p, a, b, c);
    } else if Above(b, p) == Above(c, p) {
      ApexInside(p, b, c, a);
      TurnTriangle(p, a, b, c);
    } else {
      ApexInside(p, c, a, b);
      TurnTriangle(p, c, a, b);
    }
  }

  lemma FlipSide(p: Point, i: Point, j: Point)
    ensures Side(p, j, i) == -Side(p, i, j)
  {
  }

  lemma FlipTriangle(p: Point, a: Point, b: Point, c: Point)
    ensures Inside(p, [a, b, c]) == Inside(p, [c, b, a])
  {
    ReversalKeepsInside(p, [a, b, c]);
    assert [a, b, c][..2] == [a, b] && [a, b][..1] == [a] && [a][..0] == [];
    assert Reverse([a]) == [a];
    assert Reverse([a, b]) == [b] + Reverse([a]);
    assert Reverse([a, b, c]) == [c] + Reverse([a, b]);
    assert [c] + ([b] + [a]) == [c, b, a];
  }

  /** On a triangle with an area the test is exact: a point on the inner side of all three edges is inside, a point on the outer
      side of any of them is not. */
  lemma TriangleExact(p: Point, a: Point, b: Point, c: Point)
    requires Side(c, a, b) != 0.0
    ensures
      var turn := if Side(c, a, b) > 0.0 then 1.0 else -1.0;
      && (turn * Side(p, a, b) > 0.0 && turn * Side(p, b, c) > 0.0 && turn * Side(p, c, a) > 0.0 ==> Inside(p, [a, b, c]))
      && (turn * Side(p, a, b) < 0.0 || turn * Side(p, b, c) < 0.0 || turn * Side(p, c, a) < 0.0 ==> !Inside(p, [a, b, c]))
  {
    if Side(c, a, b) > 0.0 {
      LeftTriangleExact(p, a, b, c);
    } else {
      FlipSide(p, a, b);
      FlipSide(p, b, c);
      FlipSide(p, c, a);
      FlipArea(a, b, c);
      LeftTriangleExact(p, c, b, a);
      FlipTriangle(p, a, b, c);
    }
  }

  lemma FlipArea(a: Point, b: Point, c: Point)
    ensures Side(a, c, b) == -Side(c, a, b)
  {
  }

  // ---- Any polygon, from its triangles ----

  /** How many triangles of the first vertex and an edge among the first `n` vertices contain the point. */
  function FanCount(p: Point, polygon: seq<Point>, n: nat): nat
    requires n <= |polygon|
  {
    if n < 3 then 0 else FanCount(p, polygon, n - 1) + Bit(Inside(p, [polygon[0], polygon[n - 2], polygon[n - 1]]))
  }

  /** A point is inside a polygon exactly if it is inside an odd number of the triangles that its first vertex makes with the
      other edges, however they overlap. */
  lemma {:induction false} InsideIsFan(p: Point, polygon: seq<Point>, n: nat)
    requires 2 <= n <= |polygon|
    ensures Inside(p, polygon[..n]) <==> FanCount(p, polygon, n) % 2 == 1
  {
    if n == 2 {
      assert polygon[..2] == [polygon[0]] + [polygon[1]];
      DigonCrossings(p, polygon[1], polygon[0]);
    } else {
      InsideIsFan(p, polygon, n - 1);
      FanStep(p, polygon, n);
    }
  }

  lemma FanStep(p: Point, polygon: seq<Point>, n: nat)
    requires 3 <= n <= |polygon|
    ensures Inside(p, polygon[..n]) == (Inside(p, polygon[..n - 1]) != Inside(p, [polygon[0], polygon[n - 2], polygon[n - 1]]))
  {
    var u, s, v, t := polygon[0], polygon[1..n - 2], polygon[n - 2], polygon[n - 1];
    GluingXors(p, u, s, v, [t]);
    assert polygon[..n] == [u] + s + [v] + [t];
    assert polygon[..n - 1] == [u] + s + [v];
    assert [v] + [t] + [u] == [v, t, u];
    TurnTriangle(p, u, v, t);
  }
}

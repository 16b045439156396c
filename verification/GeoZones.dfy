/** Geozones: the cached list of active zones (services/ride/src/ride/geozone-cache.service.ts), its writers
    (services/ride/src/ride/ride-operations.service.ts) and the choice of a zone for a location, which sorts the cached
    array in place (services/ride/src/ride/ride.service.ts). */
module GeoZones {
  import opened Common
  import opened Polygons

  datatype ZoneType = RED | CAUTION | SAFE

  datatype Zone = Zone(id: nat, kind: ZoneType, polygon: seq<Point>, active: bool)

  const TTL := 60000

  function Active(rows: seq<Zone>): seq<Zone> {
    if rows == [] then []
    else if rows[|rows| - 1].active then Active(rows[..|rows| - 1]) + [rows[|rows| - 1]]
    else Active(rows[..|rows| - 1])
  }

  /** Exactly the active rows, each as often as it is there. */
  lemma {:induction false} ActiveMeans(rows: seq<Zone>, z: Zone)
    ensures multiset(Active(rows))[z] == if z.active then multiset(rows)[z] else 0
  {
    if rows != [] {
      var init, last := rows[..|rows| - 1], rows[|rows| - 1];
      ActiveMeans(init, z);
      assert rows == init + [last];
    }
  }

  // ---- The sort ----

  /** The comparator of line 1196, negative for "first": it says so of both orders of two RED or two CAUTION zones. */
  function Compare(a: Zone, b: Zone): int {
    match a.kind
    case RED => -1
    case CAUTION => if b.kind.RED? then 1 else -1
    case SAFE => 1
  }

  function Rank(k: ZoneType): nat { match k case RED => 0 case CAUTION => 1 case SAFE => 2 }

  /** What every comparison sort leaves behind, however its comparator answers on ties: neighbours stand in an order that
      one of their two comparisons supports. */
  predicate Settled(zones: seq<Zone>) {
    forall i :: 0 < i < |zones| ==> Compare(zones[i - 1], zones[i]) <= 0 || Compare(zones[i], zones[i - 1]) >= 0
  }

  /** The ties do no harm: such a list runs from RED through CAUTION to SAFE. */
  lemma {:induction false} SettledIsRanked(zones: seq<Zone>, i: nat, j: nat)
    requires Settled(zones) && i <= j < |zones|
    ensures Rank(zones[i].kind) <= Rank(zones[j].kind)
    decreases j
  {
    if i < j {
      SettledIsRanked(zones, i, j - 1);
      assert Compare(zones[j - 1], zones[j]) <= 0 || Compare(zones[j], zones[j - 1]) >= 0;
    }
  }

  lemma RankedIsSettled(zones: seq<Zone>)
    requires forall i, j :: 0 <= i < j < |zones| ==> Rank(zones[i].kind) <= Rank(zones[j].kind)
    ensures Settled(zones)
  {
    forall i | 0 < i < |zones| ensures Compare(zones[i - 1], zones[i]) <= 0 || Compare(zones[i], zones[i - 1]) >= 0 {
      assert Rank(zones[i - 1].kind) <= Rank(zones[i].kind);
    }
  }

  predicate RankedTo(zones: seq<Zone>, n: nat) {
    n <= |zones| && forall i, j :: 0 <= i < j < n ==> Rank(zones[i].kind) <= Rank(zones[j].kind)
  }

  /** The zone at `i` is on its way down from `k`: the others are ranked, and it belongs before those it has passed. */
  predicate Sinking(s: seq<Zone>, i: nat, k: nat) {
    && i <= k < |s| && (forall m, n :: 0 <= m < n <= k && m != i && n != i ==> Rank(s[m].kind) <= Rank(s[n].kind))
    && (forall n :: i < n <= k ==> Rank(s[i].kind) <= Rank(s[n].kind))
  }

  function Swapped(s: seq<Zone>, i: nat): seq<Zone>
    requires 0 < i < |s|
  {
    s[i - 1 := s[i]][i := s[i - 1]]
  }

  lemma SinkStep(s: seq<Zone>, i: nat, k: nat)
    requires Sinking(s, i, k) && i > 0 && Compare(s[i], s[i - 1]) < 0
    ensures Sinking(Swapped(s, i), i - 1, k) && multiset(Swapped(s, i)) == multiset(s)
  {
    assert Rank(s[i].kind) <= Rank(s[i - 1].kind);
  }

  lemma SinkEnd(s: seq<Zone>, i: nat, k: nat)
    requires Sinking(s, i, k) && (i > 0 ==> Compare(s[i], s[i - 1]) >= 0)
    ensures RankedTo(s, k + 1)
  {
    if i > 0 {
      assert Rank(s[i - 1].kind) <= Rank(s[i].kind);
      forall m | 0 <= m < i ensures Rank(s[m].kind) <= Rank(s[i].kind) {
        assert Rank(s[m].kind) <= Rank(s[i - 1].kind);
      }
    }
  }

  /** Moves the zone at `k` down to its place in the ranked zones before it. */
  method Insert(a: array<Zone>, k: nat)
    requires k < a.Length && RankedTo(a[..], k)
    modifies a
    ensures multiset(a[..]) == multiset(old(a[..])) && RankedTo(a[..], k + 1)
  {
    var i: nat := k;
    ghost var zones := a[..];
    while i > 0 && Compare(a[i], a[i - 1]) < 0
      invariant a[..] == zones && Sinking(zones, i, k) && multiset(zones) == multiset(old(a[..]))
    {
      SinkStep(zones, i, k);
      zones := Swapped(zones, i);
      a[i - 1], a[i] := a[i], a[i - 1];
      i := i - 1;
    }
    SinkEnd(zones, i, k);
  }

  /** Sorts as `Array.prototype.sort` does for a short list: insertion with the comparator above. */
  method SortInPlace(a: array<Zone>)
    modifies a
    ensures multiset(a[..]) == multiset(old(a[..])) && Settled(a[..])
  {
    var k := 0;
    while k < a.Length
      invariant k <= a.Length && multiset(a[..]) == multiset(old(a[..])) && RankedTo(a[..], k)
    {
      Insert(a, k);
      k := k + 1;
    }
    RankedIsSettled(a[..]);
  }

  // ---- The choice ----

  predicate Contains(z: Zone, p: Point) { Inside(p, z.polygon) }

  /** The highest type among the zones that contain the point. */
  ghost predicate IsHighest(zones: multiset<Zone>, p: Point, kind: Option<ZoneType>) {
    match kind
    case None => forall z :: z in zones ==> !Contains(z, p)
    case Some(k) =>
      && (exists z :: z in zones && Contains(z, p) && z.kind == k)
      && forall z :: z in zones && Contains(z, p) ==> Rank(k) <= Rank(z.kind)
  }

  /** RED wins over CAUTION, and CAUTION over SAFE. */
  lemma HighestMeans(zones: multiset<Zone>, p: Point, kind: Option<ZoneType>)
    ensures
      var red := exists z :: z in zones && Contains(z, p) && z.kind == RED;
      var caution := exists z :: z in zones && Contains(z, p) && z.kind == CAUTION;
      var some := exists z :: z in zones && Contains(z, p);
      IsHighest(zones, p, kind)
      <==> kind == if red then Some(RED) else if caution then Some(CAUTION) else if some then Some(SAFE) else None
  {
  }

  /** There is only one answer. */
  lemma HighestIsUnique(zones: multiset<Zone>, p: Point, a: Option<ZoneType>, b: Option<ZoneType>)
    requires IsHighest(zones, p, a) && IsHighest(zones, p, b)
    ensures a == b
  {
  }

  /** The first zone of the settled list that contains the point. */
  method FirstContaining(a: array<Zone>, p: Point) returns (kind: Option<ZoneType>)
    requires Settled(a[..])
    ensures IsHighest(multiset(a[..]), p, kind)
  {
    var i := 0;
    while i < a.Length
      invariant i <= a.Length && forall k :: 0 <= k < i ==> !Contains(a[k], p)
    {
      var inside := PointInPolygon(p, a[i].polygon);
      if inside {
        forall z | z in a[..] && Contains(z, p) ensures Rank(a[i].kind) <= Rank(z.kind) {
          var k :| 0 <= k < a.Length && a[k] == z;
          SettledIsRanked(a[..], i, k);
        }
        assert a[i] in a[..];
        return Some(a[i].kind);
      }
      i := i + 1;
    }
    return None;
  }

  // ---- One process ----

  function Patched(z: Zone, kind: Option<ZoneType>, polygon: Option<seq<Point>>, active: Option<bool>): Zone
    requires polygon.Some? ==> |polygon.value| >= 3
  {
    Zone(z.id, if kind.Some? then kind.value else z.kind,
         if polygon.Some? then NormalizePolygon(polygon.value).value else z.polygon, if active.Some? then active.value else z.active)
  }

  class GeoZoneService {
    var rows: seq<Zone>
    var cached: array?<Zone>
    var expiresAt: int

    /** Whatever is cached is what is active, in some order. */
    ghost predicate Valid()
      reads this, cached
    {
      cached != null ==> multiset(cached[..]) == multiset(Active(rows))
    }

    constructor ()
      ensures Valid() && rows == []
    {
      rows, cached, expiresAt := [], null, 0;
    }

    /** The array returned on a hit is the cached one itself. */
    method GetActiveZones(now: int) returns (zones: array<Zone>)
      requires Valid()
      modifies this`cached, this`expiresAt
      ensures Valid() && cached == zones && multiset(zones[..]) == multiset(Active(rows))
      ensures old(cached) != null && old(expiresAt) > now ==> zones == old(cached) && expiresAt == old(expiresAt)
      ensures old(cached) == null || old(expiresAt) <= now ==> fresh(zones) && expiresAt == now + 60000
      ensures old(cached) != null ==> old(cached[..]) == old(cached)[..]
    {
      if cached != null && expiresAt > now { return cached; }
      var active := Active(rows);
      zones := new Zone[|active|](i requires 0 <= i < |active| => active[i]);
      assert zones[..] == active;
      cached, expiresAt := zones, now + TTL;
    }

    method CreateGeoZone(kind: ZoneType, polygon: seq<Point>, active: bool) returns (ok: bool)
      requires Valid()
      modifies this
      ensures Valid() && (ok <==> |polygon| >= 3)
      ensures ok ==> rows == old(rows) + [Zone(|old(rows)|, kind, NormalizePolygon(polygon).value, active)] && cached == null
      ensures ok ==>
                var closed := polygon[0].lat == polygon[|polygon| - 1].lat && polygon[0].lng == polygon[|polygon| - 1].lng;
                rows[|old(rows)|].polygon == if closed then polygon else polygon + [polygon[0]]
      ensures !ok ==> unchanged(this)
    {
      var normal := NormalizePolygon(polygon);
      if normal.None? { return false; }
      rows := rows + [Zone(|rows|, kind, normal.value, active)];
      cached := null;
      return true;
    }

    method PatchGeoZone(at: nat, kind: Option<ZoneType>, polygon: Option<seq<Point>>, active: Option<bool>) returns (ok: bool)
      requires Valid()
      modifies this
      ensures Valid() && (ok <==> at < |old(rows)| && (polygon.Some? ==> |polygon.value| >= 3))
      ensures ok ==> rows == old(rows)[at := Patched(old(rows)[at], kind, polygon, active)] && cached == null
      ensures ok ==>
                var was, z := old(rows)[at], rows[at];
                && z.id == was.id && z.kind == (if kind.Some? then kind.value else was.kind)
                && z.active == (if active.Some? then active.value else was.active)
                && z.polygon == (if polygon.Some? then NormalizePolygon(polygon.value).value else was.polygon)
      ensures !ok ==> unchanged(this)
    {
      ok := at < |rows| && (polygon.None? || NormalizePolygon(polygon.value).Some?);
      if !ok { return; }
      rows := rows[at := Patched(rows[at], kind, polygon, active)];
      cached := null;
    }

    method DeleteGeoZone(at: nat) returns (ok: bool)
      requires Valid()
      modifies this
      ensures Valid() && (ok <==> at < |old(rows)|)
      ensures ok ==> rows == old(rows)[..at] + old(rows)[at + 1..] && cached == null
      ensures !ok ==> unchanged(this)
    {
      ok := at < |rows|;
      if !ok { return; }
      rows := rows[..at] + rows[at + 1..];
      cached := null;
    }

    /** Lines 1194-1204: the array is sorted where it lies, in the cache, and the answer is still the highest type among
        the zones active now. */
    method ZoneOf(p: Point, now: int) returns (kind: Option<ZoneType>)
      requires Valid()
      modifies this`cached, this`expiresAt, this.cached
      ensures Valid() && rows == old(rows)
      ensures forall k :: IsHighest(multiset(Active(rows)), p, k) <==> k == kind
    {
      var zones := GetActiveZones(now);
      SortInPlace(zones);
      kind := FirstContaining(zones, p);
      forall k | IsHighest(multiset(Active(rows)), p, k) ensures k == kind { HighestIsUnique(multiset(Active(rows)), p, k, kind); }
    }
  }
}

/** The numeric part of the aggregate: the bounding-box centre of the
    stars' (ra, dec) (`find_center`), the projection of every star about
    that centre (`project`), and the per-axis extent of the projected
    positions (`get_range`). The trigonometric projection formula itself is
    a parameter. */
module Geometry {
  import opened Outcomes
  import opened Stars
  import opened Aggregate

  /** `math.pi` as a double, written out. */
  const Pi: real := 3.141592653589793

  /** `math.radians`. */
  function Radians(degrees: real): real {
    degrees * Pi / 180.0
  }

  /** One (min, max) pair of `get_range`. */
  datatype Span = Span(lo: real, hi: real)

  /** The three pairs of `get_range`: projected x, distance, projected y. */
  datatype Ranges = Ranges(x: Span, distance: Span, y: Span)

  /** The projection formula: (ra, dec, raCentre, decCentre), all in
      radians, to a planar position. */
  type Projection = (real, real, real, real) -> Point

  lemma SomeMember(vals: set<real>)
    requires vals != {}
    ensures exists v :: v in vals
  {
    if forall v :: v !in vals {
      assert false;
    }
  }

  lemma SomeStar(stars: map<int, Star>)
    requires stars != map[]
    ensures exists k :: k in stars
  {
    if forall k :: k !in stars {
      assert false;
    }
  }

  lemma {:induction false} MinExists(vals: set<real>)
    requires vals != {}
    ensures exists m :: m in vals && forall v :: v in vals ==> m <= v
    decreases |vals|
  {
    SomeMember(vals);
    var y :| y in vals;
    var best := y;
    if vals != {y} {
      MinExists(vals - {y});
      var m :| m in vals - {y} && forall v :: v in vals - {y} ==> m <= v;
      best := if y < m then y else m;
    }
    forall v | v in vals
      ensures best <= v
    {
      if v != y {
        assert v in vals - {y};
      }
    }
  }

  lemma {:induction false} MaxExists(vals: set<real>)
    requires vals != {}
    ensures exists m :: m in vals && forall v :: v in vals ==> v <= m
    decreases |vals|
  {
    SomeMember(vals);
    var y :| y in vals;
    var best := y;
    if vals != {y} {
      MaxExists(vals - {y});
      var m :| m in vals - {y} && forall v :: v in vals - {y} ==> v <= m;
      best := if m < y then y else m;
    }
    forall v | v in vals
      ensures v <= best
    {
      if v != y {
        assert v in vals - {y};
      }
    }
  }

  /** `np.amin` over a non-empty collection of reals. */
  function Min(vals: set<real>): (m: real)
    requires vals != {}
    ensures m in vals && forall v :: v in vals ==> m <= v
  {
    MinExists(vals);
    var m :| m in vals && forall v :: v in vals ==> m <= v;
    m
  }

  /** `np.amax` over a non-empty collection of reals. */
  function Max(vals: set<real>): (m: real)
    requires vals != {}
    ensures m in vals && forall v :: v in vals ==> v <= m
  {
    MaxExists(vals);
    var m :| m in vals && forall v :: v in vals ==> v <= m;
    m
  }

  /** `mid` is the centre of the interval spanned by `vals`: the midpoint of
      two members that bound all the others (not an average of the members). */
  ghost predicate IsBoxCentre(vals: set<real>, mid: real) {
    exists lo, hi :: lo in vals && hi in vals && mid == (lo + hi) / 2.0 &&
      forall v :: v in vals ==> lo <= v <= hi
  }

  /** `sp` is exactly the extent of `vals`: both ends are members and every
      member lies between them. */
  ghost predicate IsExtent(vals: set<real>, sp: Span) {
    sp.lo in vals && sp.hi in vals && forall v :: v in vals ==> sp.lo <= v <= sp.hi
  }

  function RaValues(stars: map<int, Star>): set<real> {
    set k | k in stars :: stars[k].ra
  }

  function DecValues(stars: map<int, Star>): set<real> {
    set k | k in stars :: stars[k].dec
  }

  /** `find_center`: the per-axis midpoint of the smallest and largest
      right ascension and declination; numpy raises on an empty star set.
      There is no wrap-around at 24h. */
  function FindCenter(c: Constellation): (r: Result<(real, real)>)
    ensures r.Ok? <==> c.stars != map[]
    ensures r.Err? ==> r.failure == EmptyStarSet
    ensures r.Ok? ==> IsBoxCentre(RaValues(c.stars), r.value.0) && IsBoxCentre(DecValues(c.stars), r.value.1)
  {
    if c.stars == map[] then Err(EmptyStarSet)
    else
      SomeStar(c.stars);
      var k :| k in c.stars;
      assert c.stars[k].ra in RaValues(c.stars) && c.stars[k].dec in DecValues(c.stars);
      var ras := RaValues(c.stars);
      var decs := DecValues(c.stars);
      Ok(((Min(ras) + Max(ras)) / 2.0, (Min(decs) + Max(decs)) / 2.0))
  }

  /** The box centre of a set is unique and lies between its least and
      greatest member. */
  lemma BoxCentreIsMidrange(vals: set<real>, mid: real)
    requires IsBoxCentre(vals, mid)
    ensures mid == (Min(vals) + Max(vals)) / 2.0
    ensures Min(vals) <= mid <= Max(vals)
  {
    var lo, hi :| lo in vals && hi in vals && mid == (lo + hi) / 2.0 &&
      forall v :: v in vals ==> lo <= v <= hi;
    assert lo == Min(vals) && hi == Max(vals);
  }

  /** The centre of every non-empty aggregate lies inside the box on both axes. */
  lemma CenterWithinBox(c: Constellation)
    requires c.stars != map[]
    ensures var centre := FindCenter(c).value;
            && (exists k :: k in c.stars && c.stars[k].ra <= centre.0)
            && (exists k :: k in c.stars && centre.0 <= c.stars[k].ra)
            && (exists k :: k in c.stars && c.stars[k].dec <= centre.1)
            && (exists k :: k in c.stars && centre.1 <= c.stars[k].dec)
  {
    var centre := FindCenter(c).value;
    BoxCentreIsMidrange(RaValues(c.stars), centre.0);
    BoxCentreIsMidrange(DecValues(c.stars), centre.1);
    var lo := Min(RaValues(c.stars));
    var hi := Max(RaValues(c.stars));
    var dlo := Min(DecValues(c.stars));
    var dhi := Max(DecValues(c.stars));
    var a :| a in c.stars && c.stars[a].ra == lo;
    var b :| b in c.stars && c.stars[b].ra == hi;
    var d :| d in c.stars && c.stars[d].dec == dlo;
    var e :| e in c.stars && c.stars[e].dec == dhi;
  }

  /** The projected position of one star about the given centre (ra in
      hours, dec in degrees): both converted to radians, ra via ×15°. */
  function ProjectStar(pp: Projection, s: Star, centre: (real, real)): Point {
    pp(Radians(s.ra * 15.0), Radians(s.dec), Radians(centre.0 * 15.0), Radians(centre.1))
  }

  /** `project`: every star gets a projected position, computed about the
      bounding-box centre of the current star set; nothing else changes.
      An empty aggregate fails in `find_center`. */
  function Project(c: Constellation, pp: Projection): (r: Result<Constellation>)
    ensures r.Ok? <==> c.stars != map[]
    ensures r.Err? ==> r.failure == EmptyStarSet
    ensures r.Ok? ==> r.value.(stars := c.stars) == c && r.value.stars.Keys == c.stars.Keys
    ensures r.Ok? ==> forall k :: k in c.stars ==>
              r.value.stars[k].projected.Some? &&
              r.value.stars[k].(projected := c.stars[k].projected) == c.stars[k]
    ensures r.Ok? ==> exists raC, decC ::
              IsBoxCentre(RaValues(c.stars), raC) && IsBoxCentre(DecValues(c.stars), decC) &&
              forall k :: k in c.stars ==>
                r.value.stars[k].projected == Some(ProjectStar(pp, c.stars[k], (raC, decC)))
  {
    match FindCenter(c)
    case Err(e) => Err(e)
    case Ok(centre) => Ok(c.(stars := ProjectAll(c.stars, pp, centre)))
  }

  /** The loop of `project`: each star's `projected` is set, about one
      centre; every other field is kept, and a position depends only on the
      star's (ra, dec), so stars at the same angles land on the same point. */
  function ProjectAll(stars: map<int, Star>, pp: Projection, centre: (real, real)): (r: map<int, Star>)
    ensures r.Keys == stars.Keys
    ensures forall k :: k in stars ==> r[k].(projected := stars[k].projected) == stars[k]
    ensures forall k :: k in stars ==> r[k].projected == Some(ProjectStar(pp, stars[k], centre))
    ensures forall j, k :: j in stars && k in stars && stars[j].ra == stars[k].ra && stars[j].dec == stars[k].dec ==>
              r[j].projected == r[k].projected
  {
    map k | k in stars :: stars[k].(projected := Some(ProjectStar(pp, stars[k], centre)))
  }

  /** Projection leaves ra and dec alone, so a projected aggregate has the
      same centre, and projecting again changes nothing. */
  lemma {:induction false} ProjectIdempotent(c: Constellation, pp: Projection)
    requires c.stars != map[]
    ensures FindCenter(Project(c, pp).value) == FindCenter(c)
    ensures Project(Project(c, pp).value, pp) == Project(c, pp)
  {
    var centre := FindCenter(c).value;
    var p := c.(stars := ProjectAll(c.stars, pp, centre));
    assert Project(c, pp) == Ok(p);
    SameAnglesSameCentre(c, p);
    ProjectAllTwice(c.stars, pp, centre);
  }

  /** Re-projecting about the same centre reproduces every position. */
  lemma ProjectAllTwice(stars: map<int, Star>, pp: Projection, centre: (real, real))
    ensures ProjectAll(ProjectAll(stars, pp, centre), pp, centre) == ProjectAll(stars, pp, centre)
  {
    var once := ProjectAll(stars, pp, centre);
    var twice := ProjectAll(once, pp, centre);
    forall k | k in once
      ensures twice[k] == once[k]
    {
      assert ProjectStar(pp, once[k], centre) == ProjectStar(pp, stars[k], centre);
    }
  }

  /** Two aggregates whose stars have the same ids and the same (ra, dec)
      have the same centre. */
  lemma {:induction false} SameAnglesSameCentre(c: Constellation, d: Constellation)
    requires c.stars.Keys == d.stars.Keys
    requires forall k :: k in c.stars ==> c.stars[k].ra == d.stars[k].ra && c.stars[k].dec == d.stars[k].dec
    ensures FindCenter(c) == FindCenter(d)
  {
    assert RaValues(c.stars) == RaValues(d.stars) by {
      forall v | v in RaValues(c.stars) ensures v in RaValues(d.stars) {
        var k :| k in c.stars && c.stars[k].ra == v;
        assert d.stars[k].ra == v;
      }
      forall v | v in RaValues(d.stars) ensures v in RaValues(c.stars) {
        var k :| k in d.stars && d.stars[k].ra == v;
        assert c.stars[k].ra == v;
      }
    }
    assert DecValues(c.stars) == DecValues(d.stars) by {
      forall v | v in DecValues(c.stars) ensures v in DecValues(d.stars) {
        var k :| k in c.stars && c.stars[k].dec == v;
        assert d.stars[k].dec == v;
      }
      forall v | v in DecValues(d.stars) ensures v in DecValues(c.stars) {
        var k :| k in d.stars && d.stars[k].dec == v;
        assert c.stars[k].dec == v;
      }
    }
    assert c.stars == map[] <==> d.stars == map[] by {
      assert c.stars == map[] <==> c.stars.Keys == {};
      assert d.stars == map[] <==> d.stars.Keys == {};
    }
  }

  predicate AllProjected(c: Constellation) {
    forall k :: k in c.stars ==> c.stars[k].projected.Some?
  }

  predicate AllDistancesKnown(c: Constellation) {
    forall k :: k in c.stars ==> c.stars[k].distance.Known?
  }

  /** The values of one component of the stars' position triples. */
  function XValues(c: Constellation): set<real>
    requires AllProjected(c)
  {
    set k | k in c.stars :: XyzIsh(c.stars[k]).value.x
  }

  function DistanceValues(c: Constellation): set<real>
    requires AllProjected(c) && AllDistancesKnown(c)
  {
    set k | k in c.stars :: XyzIsh(c.stars[k]).value.distance.v
  }

  function YValues(c: Constellation): set<real>
    requires AllProjected(c)
  {
    set k | k in c.stars :: XyzIsh(c.stars[k]).value.y
  }

  /** `get_range`: the (min, max) of projected x, distance and projected y
      over all stars. numpy fails on an empty set, on a star whose
      `get_xyz_ish` is `False` (not projected), and on a "" distance. */
  function GetRange(c: Constellation): (r: Result<Ranges>)
    ensures r.Ok? <==> c.stars != map[] && AllProjected(c) && AllDistancesKnown(c)
    ensures r.Err? && c.stars == map[] ==> r.failure == EmptyStarSet
    ensures r.Err? && c.stars != map[] && !AllProjected(c) ==> r.failure == NotProjected
    ensures r.Err? && c.stars != map[] && AllProjected(c) ==> r.failure == DistanceNotNumeric
    ensures r.Ok? ==> IsExtent(XValues(c), r.value.x)
    ensures r.Ok? ==> IsExtent(DistanceValues(c), r.value.distance)
    ensures r.Ok? ==> IsExtent(YValues(c), r.value.y)
  {
    if c.stars == map[] then Err(EmptyStarSet)
    else if !AllProjected(c) then Err(NotProjected)
    else if !AllDistancesKnown(c) then Err(DistanceNotNumeric)
    else
      SomeStar(c.stars);
      var k :| k in c.stars;
      var p := XyzIsh(c.stars[k]).value;
      assert p.x in XValues(c) && p.distance.v in DistanceValues(c) && p.y in YValues(c);
      Ok(Ranges(Span(Min(XValues(c)), Max(XValues(c))),
                Span(Min(DistanceValues(c)), Max(DistanceValues(c))),
                Span(Min(YValues(c)), Max(YValues(c)))))
  }

  /** Every star's position triple lies inside the three ranges, and each
      range is ordered. */
  lemma RangeContainsEveryStar(c: Constellation)
    requires GetRange(c).Ok?
    ensures var rg := GetRange(c).value;
            rg.x.lo <= rg.x.hi && rg.distance.lo <= rg.distance.hi && rg.y.lo <= rg.y.hi
    ensures var rg := GetRange(c).value;
            forall k :: k in c.stars ==>
              var p := XyzIsh(c.stars[k]).value;
              rg.x.lo <= p.x <= rg.x.hi && rg.distance.lo <= p.distance.v <= rg.distance.hi &&
              rg.y.lo <= p.y <= rg.y.hi
  {
    var rg := GetRange(c).value;
    forall k | k in c.stars
      ensures var p := XyzIsh(c.stars[k]).value;
              rg.x.lo <= p.x <= rg.x.hi && rg.distance.lo <= p.distance.v <= rg.distance.hi &&
              rg.y.lo <= p.y <= rg.y.hi
    {
      var p := XyzIsh(c.stars[k]).value;
      assert p.x in XValues(c) && p.distance.v in DistanceValues(c) && p.y in YValues(c);
    }
  }

  /** After a successful projection the ranges exist exactly when every
      star has a numeric distance. */
  lemma RangeAfterProject(c: Constellation, pp: Projection)
    requires c.stars != map[]
    ensures GetRange(Project(c, pp).value).Ok? <==> AllDistancesKnown(c)
  {
    var p := Project(c, pp).value;
    assert AllProjected(p);
    assert AllDistancesKnown(p) <==> AllDistancesKnown(c) by {
      assert forall k :: k in c.stars ==> p.stars[k].distance == c.stars[k].distance;
    }
  }

  /** A freshly built aggregate has no stars: its (empty) connection list is
      closed, and finding the centre, projecting and taking the range all
      fail on the empty star set. */
  lemma FreshAggregateIsEmpty(abbreviation: string, magnitudeFilter: real, pp: Projection)
    ensures ConnectionsClosed(NewConstellation(abbreviation, magnitudeFilter))
    ensures FindCenter(NewConstellation(abbreviation, magnitudeFilter)) == Err(EmptyStarSet)
    ensures Project(NewConstellation(abbreviation, magnitudeFilter), pp) == Err(EmptyStarSet)
    ensures GetRange(NewConstellation(abbreviation, magnitudeFilter)) == Err(EmptyStarSet)
  {
  }
}

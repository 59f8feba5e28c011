/** The `Constellation` aggregate of src/constellation.py: a map from star
    id to star plus the list of connections (pairs of star ids) drawn
    between them. Every operation returns a new aggregate. */
module Aggregate {
  import opened Outcomes
  import opened Stars

  /** A line between two stars, given by their ids. */
  type Connection = (int, int)

  datatype Constellation = Constellation(
    abbreviation: string,        // catalog constellation code, e.g. "Ori"
    magnitudeFilter: real,       // load keeps stars strictly brighter than this
    stars: map<int, Star>,
    connections: seq<Connection>)

  /** The `mag` default of `Constellation.__init__`. */
  const DefaultMagnitudeFilter: real := 4.0

  /** `Constellation.__init__`: no stars and no connections yet. */
  function NewConstellation(abbreviation: string, magnitudeFilter: real): (c: Constellation)
    ensures c.stars == map[] && c.connections == []
    ensures c.abbreviation == abbreviation && c.magnitudeFilter == magnitudeFilter
  {
    Constellation(abbreviation, magnitudeFilter, map[], [])
  }

  /** `add_star`: insert, or overwrite the star already filed under the id. */
  function AddStar(c: Constellation, s: Star): (r: Constellation)
    ensures r.stars.Keys == c.stars.Keys + {Index(s)}
    ensures r.stars[Index(s)] == s
    ensures forall k :: k in c.stars && k != Index(s) ==> r.stars[k] == c.stars[k]
    ensures r.(stars := c.stars) == c
  {
    c.(stars := c.stars[Index(s) := s])
  }

  /** `get_star`: a KeyError when the id is not a key. */
  function GetStar(c: Constellation, id: int): (r: Result<Star>)
    ensures r.Ok? <==> id in c.stars
    ensures r.Ok? ==> r.value == c.stars[id]
    ensures r.Err? ==> r.failure == MissingStar(id)
  {
    if id in c.stars then Ok(c.stars[id]) else Err(MissingStar(id))
  }

  /** Reading back right after an insertion sees the inserted star under
      its id and the previous contents under every other id. */
  lemma GetAfterAdd(c: Constellation, s: Star, id: int)
    ensures GetStar(AddStar(c, s), id) == if id == Index(s) then Ok(s) else GetStar(c, id)
  {
  }

  /** A second insertion under the same id replaces the first entirely. */
  lemma AddStarOverwrites(c: Constellation, s1: Star, s2: Star)
    requires Index(s1) == Index(s2)
    ensures AddStar(AddStar(c, s1), s2) == AddStar(c, s2)
  {
  }

  /** `set_connections`: the list is replaced wholesale. */
  function SetConnections(c: Constellation, connections: seq<Connection>): (r: Constellation)
    ensures r.connections == connections
    ensures r.(connections := c.connections) == c
  {
    c.(connections := connections)
  }

  /** Only the last list set survives. */
  lemma LastConnectionsWin(c: Constellation, first: seq<Connection>, second: seq<Connection>)
    ensures SetConnections(SetConnections(c, first), second) == SetConnections(c, second)
  {
  }

  /** `get_connection_stars`: both endpoint stars in order; a KeyError
      naming the first endpoint (checked first) or else the second. */
  function GetConnectionStars(c: Constellation, conn: Connection): (r: Result<(Star, Star)>)
    ensures r.Ok? <==> conn.0 in c.stars && conn.1 in c.stars
    ensures r.Ok? ==> r.value == (c.stars[conn.0], c.stars[conn.1])
    ensures r.Err? ==> r.failure == MissingStar(if conn.0 !in c.stars then conn.0 else conn.1)
  {
    if conn.0 !in c.stars then Err(MissingStar(conn.0))
    else if conn.1 !in c.stars then Err(MissingStar(conn.1))
    else Ok((c.stars[conn.0], c.stars[conn.1]))
  }

  /** `get_connection_positions`: both endpoints' projected positions, which
      are still `None` for a star that has not been projected. */
  function GetConnectionPositions(c: Constellation, conn: Connection): (r: Result<(Option<Point>, Option<Point>)>)
    ensures r.Ok? <==> conn.0 in c.stars && conn.1 in c.stars
    ensures r.Err? ==> r.failure == MissingStar(if conn.0 !in c.stars then conn.0 else conn.1)
  {
    if conn.0 !in c.stars then Err(MissingStar(conn.0))
    else if conn.1 !in c.stars then Err(MissingStar(conn.1))
    else Ok((c.stars[conn.0].projected, c.stars[conn.1].projected))
  }

  /** The positions of a connection are exactly the projections of the
      stars `GetConnectionStars` finds, and the two fail alike. */
  lemma PositionsAreStarsProjections(c: Constellation, conn: Connection)
    ensures match GetConnectionStars(c, conn)
            case Ok(pair) => GetConnectionPositions(c, conn) == Ok((pair.0.projected, pair.1.projected))
            case Err(e) => GetConnectionPositions(c, conn) == Err(e)
  {
  }

  /** Every connection endpoint names a star of the aggregate. */
  predicate ConnectionsClosed(c: Constellation) {
    forall i :: 0 <= i < |c.connections| ==>
      c.connections[i].0 in c.stars && c.connections[i].1 in c.stars
  }

  /** Every connection lookup succeeds exactly when the connections are closed. */
  lemma ClosedIffAllResolve(c: Constellation)
    ensures ConnectionsClosed(c) <==>
            forall i :: 0 <= i < |c.connections| ==> GetConnectionStars(c, c.connections[i]).Ok?
  {
  }
}

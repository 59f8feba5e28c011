/** `load_stars_from_sqlite` without the database: the `stars` table is an
    in-memory sequence of rows in the order `ORDER BY id ASC` returns them,
    the query built by `selection_sql` is read back into its criterion, the
    rows it keeps are turned into stars and inserted one by one with
    `add_star`, so a later row with the same id overwrites an earlier one. */
module Loading {
  import opened Outcomes
  import opened Stars
  import opened Aggregate
  import opened Sql

  /** The columns the load query selects from one catalog row, plus the
      `constellation` column its filter reads. */
  datatype CatalogRow = CatalogRow(
    id: int,
    magnitude: Cell,
    properName: Option<string>,
    designation: Option<string>,
    ra: real,
    dec: real,
    distance: Cell,
    constellation: Option<string>)

  /** The star the loop constructs from a row. */
  function StarOf(row: CatalogRow): Star {
    NewStar(row.id, row.designation, row.properName, row.ra, row.dec, row.distance, row.magnitude)
  }

  /** SQLite's verdict on one row for a criterion. A comparison with NULL is
      not true, and text (the "" of a blank magnitude) sorts above every
      number, so `magnitude < :mag` holds only for a stored number below it. */
  predicate Matches(crit: Criterion, row: CatalogRow) {
    match crit
    case IdIn(ids) => row.id in ids
    case InConstellation(con, mag) =>
      && row.constellation == Some(con)
      && row.designation.Some? && row.designation.value != ""
      && row.magnitude.Number? && row.magnitude.v < mag
  }

  /** The ids of the rows a criterion keeps. */
  function MatchedIds(crit: Criterion, rows: seq<CatalogRow>): set<int> {
    set i | 0 <= i < |rows| && Matches(crit, rows[i]) :: rows[i].id
  }

  /** Row i is kept and no later kept row shares its id. */
  predicate LastMatch(crit: Criterion, rows: seq<CatalogRow>, i: int)
    requires 0 <= i < |rows|
  {
    Matches(crit, rows[i]) &&
    forall j :: i < j < |rows| && Matches(crit, rows[j]) ==> rows[j].id != rows[i].id
  }

  /** The insertion loop over the rows the database returns: it adds
      exactly the ids of the kept rows and touches nothing but the star map. */
  function AddMatching(c: Constellation, crit: Criterion, rows: seq<CatalogRow>): (r: Constellation)
    ensures r.(stars := c.stars) == c
    ensures r.stars.Keys == c.stars.Keys + MatchedIds(crit, rows)
  {
    if |rows| == 0 then c
    else
      var n := |rows| - 1;
      var prev := AddMatching(c, crit, rows[..n]);
      assert MatchedIds(crit, rows) ==
             MatchedIds(crit, rows[..n]) + (if Matches(crit, rows[n]) then {rows[n].id} else {}) by {
        assert forall i :: 0 <= i < n ==> rows[..n][i] == rows[i];
      }
      if Matches(crit, rows[n]) then AddStar(prev, StarOf(rows[n])) else prev
  }

  /** What the insertion loop stores: a star no kept row names is left as it
      was, and the last kept row with a given id decides that id's star. */
  lemma {:induction false} AddMatchingStores(c: Constellation, crit: Criterion, rows: seq<CatalogRow>)
    ensures forall k :: k in c.stars && k !in MatchedIds(crit, rows) ==>
              AddMatching(c, crit, rows).stars[k] == c.stars[k]
    ensures forall i :: 0 <= i < |rows| && LastMatch(crit, rows, i) ==>
              AddMatching(c, crit, rows).stars[rows[i].id] == StarOf(rows[i])
  {
    if |rows| > 0 {
      var n := |rows| - 1;
      var front := rows[..n];
      var prev := AddMatching(c, crit, front);
      var r := AddMatching(c, crit, rows);
      AddMatchingStores(c, crit, front);
      assert r == if Matches(crit, rows[n]) then AddStar(prev, StarOf(rows[n])) else prev;
      forall k | k in c.stars && k !in MatchedIds(crit, rows)
        ensures r.stars[k] == c.stars[k]
      {
        assert k !in MatchedIds(crit, front);
        assert Matches(crit, rows[n]) ==> rows[n].id != k;
      }
      forall i | 0 <= i < |rows| && LastMatch(crit, rows, i)
        ensures r.stars[rows[i].id] == StarOf(rows[i])
      {
        if i < n {
          assert front[i] == rows[i];
          assert LastMatch(crit, front, i) by {
            forall j | i < j < |front| && Matches(crit, front[j])
              ensures front[j].id != front[i].id
            {
              assert front[j] == rows[j];
            }
          }
          assert prev.stars[rows[i].id] == StarOf(rows[i]);
          assert Matches(crit, rows[n]) ==> rows[n].id != rows[i].id;
        }
      }
    }
  }

  /** The docstring of `load_stars_from_sqlite`, stated without SQL:
      the listed ids when a non-empty selection is given, otherwise the
      designated stars of the constellation strictly brighter than the
      magnitude filter. */
  predicate Wanted(c: Constellation, selection: Option<seq<int>>, row: CatalogRow) {
    if HasSelection(selection) then row.id in selection.value
    else
      && row.constellation == Some(c.abbreviation)
      && row.designation.Some? && row.designation.value != ""
      && row.magnitude.Number? && row.magnitude.v < c.magnitudeFilter
  }

  function WantedIds(c: Constellation, selection: Option<seq<int>>, table: seq<CatalogRow>): set<int> {
    set i | 0 <= i < |table| && Wanted(c, selection, table[i]) :: table[i].id
  }

  predicate LastWanted(c: Constellation, selection: Option<seq<int>>, table: seq<CatalogRow>, i: int)
    requires 0 <= i < |table|
  {
    Wanted(c, selection, table[i]) &&
    forall j :: i < j < |table| && Wanted(c, selection, table[j]) ==> table[j].id != table[i].id
  }

  /** `load_stars_from_sqlite`: the stars of exactly the wanted rows are
      added (ids listed but absent from the table are silently missing),
      every other star and every other field of the aggregate is unchanged,
      and for each id the last wanted row decides the star. */
  function Load(c: Constellation, table: seq<CatalogRow>, selection: Option<seq<int>>): (r: Constellation)
    ensures r.(stars := c.stars) == c
    ensures r.stars.Keys == c.stars.Keys + WantedIds(c, selection, table)
    ensures forall k :: k in c.stars && k !in WantedIds(c, selection, table) ==> r.stars[k] == c.stars[k]
    ensures forall i :: 0 <= i < |table| && LastWanted(c, selection, table, i) ==>
              r.stars[table[i].id] == StarOf(table[i])
  {
    var q := SelectionSql(c, selection);
    var crit := Interpret(q).value;
    assert forall row :: Matches(crit, row) == Wanted(c, selection, row);
    assert MatchedIds(crit, table) == WantedIds(c, selection, table);
    assert forall i :: 0 <= i < |table| ==> LastMatch(crit, table, i) == LastWanted(c, selection, table, i);
    AddMatchingStores(c, crit, table);
    AddMatching(c, crit, table)
  }

  /** Loading into an empty aggregate with a non-empty selection yields
      exactly the listed ids that occur in the table. */
  lemma SelectionLoadsListedIds(abbreviation: string, mag: real, table: seq<CatalogRow>, ids: seq<int>)
    requires |ids| > 0
    ensures Load(NewConstellation(abbreviation, mag), table, Some(ids)).stars.Keys
         == (set i | 0 <= i < |table| && table[i].id in ids :: table[i].id)
  {
    var c := NewConstellation(abbreviation, mag);
    assert WantedIds(c, Some(ids), table) == (set i | 0 <= i < |table| && table[i].id in ids :: table[i].id);
  }

  /** With distinct ids in the table, every wanted row is loaded as its star. */
  lemma DistinctIdsLoadEveryWantedRow(c: Constellation, table: seq<CatalogRow>, selection: Option<seq<int>>)
    requires forall i, j :: 0 <= i < j < |table| ==> table[i].id != table[j].id
    ensures forall i :: 0 <= i < |table| && Wanted(c, selection, table[i]) ==>
              Load(c, table, selection).stars[table[i].id] == StarOf(table[i])
  {
  }

  /** The display key of a loaded star follows from the row itself: the
      non-empty proper name, else the non-empty designation, else the id —
      a NULL and an empty name are alike, since the constructor stores both
      as "". */
  lemma KeyOfLoadedRow(row: CatalogRow)
    ensures (row.properName.None? || row.properName.value == "") &&
            (row.designation.None? || row.designation.value == "") ==>
              Key(StarOf(row)) == IdKey(row.id)
    ensures row.properName.Some? && row.properName.value != "" ==>
              Key(StarOf(row)) == NameKey(row.properName.value)
    ensures (row.properName.None? || row.properName.value == "") &&
            row.designation.Some? && row.designation.value != "" ==>
              Key(StarOf(row)) == NameKey(row.designation.value)
  {
  }
}

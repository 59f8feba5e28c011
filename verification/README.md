# Constellation aggregate of coterie, in Dafny

This project models the star-set aggregate of `src/constellation.py`. That file holds the part of the
repository that loads a constellation's stars from the HYG star catalog, finds
their bounding-box centre, projects them onto a plane, and can report the
extent of the projected positions (`get_range`, which no other file of the
repository calls).

The model is functional: every operation takes an immutable value and returns a new one.

- `Stars` covers `ConstellationPoint`:
  - construction with Python-truthiness normalisation (`None`, `""` and `0.0` become `""`);
  - the display `key` (proper name, else designation, else id) and the `index` identity;
  - the position triple of `get_xyz_ish`, which is `False` (here `None`) until the star is projected.
- `Aggregate` covers the `Constellation` record:
  - a `map<int, Star>` with insert-or-overwrite `add_star` and lookup `get_star`;
  - the connection list, which is replaced wholesale;
  - the two connection lookups, which fail with the missing id. There is no default.
- `Sql` covers the WHERE-clause builder:
  - `generate_select_in_parts` builds `id in (:i0,:i1,…)` plus its parameter map;
  - `selection_sql` picks id-list mode or constellation/magnitude filter mode;
  - as its partner, `Interpret` reads a fragment and its bound parameters back into the criterion it selects by.
- `Loading` covers `load_stars_from_sqlite` as a pure filter:
  - the `stars` table is a sequence of rows, in the order `ORDER BY id ASC` returns them;
  - the rows SQLite would keep become stars and are added in order with `add_star`.
- `Geometry` covers the numeric part:
  - `find_center` is the per-axis midpoint of min and max (a box centre, not an average; no 24h wrap-around);
  - `project` sets every star's position about that centre. The trigonometric formula is a function parameter;
  - `get_range` gives the (min, max) of projected x, distance and projected y.
- `Examples` covers concrete data:
  - the midpoint unit test of `src/tests.py`;
  - the Orion figure of `src/build_orion.py`.

Modelling conventions:
- Python exceptions are `Outcomes.Result` values. `KeyError` becomes `MissingStar(id)`. numpy's failures on empty or malformed input become `EmptyStarSet`, `NotProjected` and `DistanceNotNumeric`.
- The axis constants `PX`/`PY`/`PZ` come from an `indicies` module that is not part of this model. They are taken to be 0/1/2, as the docstring of `get_xyz_ish` describes.
- Floating point is modelled by `real`. The `np.average` of min and max is the exact `(min + max) / 2`.
- Catalog cells in REAL columns are `Null`, `EmptyText` or `Number(v)`. The CSV import stores a blank field as the empty text `""`. SQLite never finds NULL `< :mag` true. It sorts text above every number, so `"" < :mag` is false too. A blank magnitude therefore never passes the filter.

## Model

| member | source | states |
|---|---|---|
| Stars.NewStar | src/constellation.py:11-20 | absent names become ""; a falsy distance or magnitude (NULL, "" or 0.0) becomes "", any other number is kept; the star starts unprojected |
| Stars.NewStarRoundTrip | src/constellation.py:13-20 | re-constructing a star from its own stored fields gives the star back, so the normalisation is idempotent |
| Stars.ZeroCollapsesToBlank | src/constellation.py:18-19 | a magnitude or distance of exactly 0 is stored as "", indistinguishable from a missing one |
| Stars.Key | src/constellation.py:22-28 | the key is a name exactly when a proper name or designation is non-empty; the proper name wins over the designation; otherwise the key is the star's index |
| Stars.IndexOfNewStar | src/constellation.py:30-32 | a star's identity in the aggregate's map (`index`) is the catalog id it was constructed with, whatever its names, angles and measures |
| Stars.XyzIsh | src/constellation.py:34-45 | no triple exactly when the star is unprojected; otherwise (projected x, distance, projected y) |
| Aggregate.NewConstellation | src/constellation.py:54-59 | a new aggregate has no stars and no connections and keeps its code and magnitude filter |
| Geometry.FreshAggregateIsEmpty | src/constellation.py:54-59 | a freshly built aggregate has no stars: its connections are closed, and `find_center`, `project` and `get_range` all fail on the empty star set |
| Aggregate.AddStar | src/constellation.py:67-68 | the star is filed under its index, every other entry is unchanged, and nothing else in the aggregate changes |
| Aggregate.GetStar | src/constellation.py:70-71 | succeeds exactly when the id is a key, returning that entry; otherwise fails naming the id |
| Aggregate.GetAfterAdd | src/constellation.py:67-71 | reading right after an insertion sees the new star under its id and the old contents elsewhere |
| Aggregate.AddStarOverwrites | src/constellation.py:67-68 | a second insertion under the same id replaces the first entirely |
| Aggregate.SetConnections | src/constellation.py:106-111 | the connection list becomes the given list and nothing else changes |
| Aggregate.LastConnectionsWin | src/constellation.py:106-111 | setting connections twice is the same as setting only the second list |
| Aggregate.GetConnectionStars | src/constellation.py:116-117 | succeeds exactly when both endpoint ids are keys, returning the two stars in order; otherwise fails naming the first missing endpoint |
| Aggregate.GetConnectionPositions | src/constellation.py:113-114 | succeeds exactly when both endpoint ids are keys; otherwise fails naming the first missing endpoint |
| Aggregate.PositionsAreStarsProjections | src/constellation.py:113-117 | the positions of a connection are the `projected` values of the stars the star lookup returns, and both lookups fail alike |
| Aggregate.ClosedIffAllResolve | src/constellation.py:113-117 | every connection lookup succeeds exactly when every endpoint is a key |
| Text.ParseNatToString | src/constellation.py:83 | the decimal rendering of an index parses back to the index, so distinct indices give distinct parameter names |
| Text.SplitJoin | src/constellation.py:87 | splitting a comma-join of non-empty, comma-free parts on commas gives the parts back |
| Sql.ParamKeyInjective | src/constellation.py:83-85 | the parameter names `i{k}` of distinct positions are distinct |
| Sql.Bindings | src/constellation.py:80-85 | the parameter map has exactly the keys i0…i{n-1}, binds `i{k}` to the k-th id, and has n entries (no id is overwritten) |
| Sql.GenerateSelectInParts | src/constellation.py:79-89 | same keys and bindings as above; reading the fragment back gives exactly the id list, in order, so every placeholder has exactly one binding |
| Sql.SelectionSql | src/constellation.py:91-104 | a non-empty selection reads back as that id list; None or an empty selection reads back as the filter on this constellation's code and magnitude, with parameters exactly `con` and `mag` |
| Loading.AddMatching | src/constellation.py:152-156 | inserting the kept rows adds exactly their ids and changes nothing but the star map |
| Loading.AddMatchingStores | src/constellation.py:152-156 | an entry no kept row names is unchanged, and the last kept row with an id decides that id's star |
| Loading.Load | src/constellation.py:119-156 | the loaded ids are the old ids plus exactly those of the wanted rows: listed ids in id-list mode; in filter mode, same code, non-empty designation and magnitude below the filter. Other entries and fields are unchanged; each id's star is built from its last wanted row |
| Loading.KeyOfLoadedRow | src/constellation.py:11-28 | the key of a star built from a catalog row is the row's non-empty proper name, else its non-empty designation, else its id; a NULL name and an empty name give the same key |
| Loading.SelectionLoadsListedIds | src/constellation.py:135-156 | loading a non-empty selection into an empty aggregate yields exactly the listed ids present in the table; listed ids missing from the table are silently absent |
| Loading.DistinctIdsLoadEveryWantedRow | src/constellation.py:152-156 | with distinct ids in the table, every wanted row is loaded as its star |
| Geometry.Min | src/constellation.py:166 | the minimum of a non-empty set is a member and lies below every member |
| Geometry.Max | src/constellation.py:167 | the maximum of a non-empty set is a member and lies above every member |
| Geometry.FindCenter | src/constellation.py:158-169 | fails exactly on an empty star set; otherwise each coordinate is the midpoint of two stars' values that bound all stars' values on that axis |
| Geometry.BoxCentreIsMidrange | src/constellation.py:164-169 | such a box centre is unique, equal to (min + max) / 2, and lies between min and max |
| Geometry.CenterWithinBox | src/constellation.py:158-169 | on each axis some star lies at or below the centre and some star at or above it |
| Geometry.Project | src/constellation.py:182-199 | fails exactly on an empty star set; otherwise the ids are unchanged, every star is projected, every other star field is unchanged, and all stars are projected about a bounding-box centre of (ra, dec) |
| Geometry.ProjectAll | src/constellation.py:186-199 | the projection loop keeps the ids and every field but `projected`, every star gets a position about the one centre, and stars with equal (ra, dec) get equal positions |
| Geometry.ProjectAllTwice | src/constellation.py:186-199 | re-projecting about the same centre reproduces every position |
| Geometry.SameAnglesSameCentre | src/constellation.py:164-169 | the centre depends only on the stars' ids and (ra, dec) |
| Geometry.ProjectIdempotent | src/constellation.py:182-199 | a projected aggregate has the same centre as before, and projecting it again changes nothing |
| Geometry.GetRange | src/constellation.py:73-77 | succeeds exactly when the star set is non-empty, every star is projected and every distance is numeric; each pair is then exactly the extent of that component |
| Geometry.RangeContainsEveryStar | src/constellation.py:73-77 | each pair is ordered (min ≤ max) and every star's triple lies inside the three pairs |
| Geometry.RangeAfterProject | src/constellation.py:73-77 | after a successful projection the ranges exist exactly when every star has a numeric distance |
| Examples.MidpointTestAsWritten | src/tests.py:8-16 | the test's four points all have id 0, so only (2, 1) survives and the centre is (2, 1) |
| Examples.MidpointTestDistinctIds | src/tests.py:8-16 | with distinct ids the four corners survive and the centre is (1.5, 1.5) |
| Examples.OrionPointsDistinct | src/build_orion.py:43-45 | the 22 Orion ids are pairwise distinct |
| Examples.OrionLinesWithinPoints | src/build_orion.py:43-52 | every endpoint of the 25 Orion lines is an Orion id |
| Examples.OrionConnectionsResolve | src/build_orion.py:31-35 | loading the Orion selection from any table holding those ids loads all 22 stars, and every Orion line then resolves |

## Left out

- The trigonometric projection formula of `project` (src/constellation.py:187-199) and `project_plate_carre` (201-210) use floating-point sin/cos/sqrt. The formula is the parameter `pp` of `Geometry.Project`, applied to each star in radians. `Radians` uses a decimal `Pi`, which has no effect while `pp` is uninterpreted.
- The sqlite connection, the query text around the WHERE fragment, and `ORDER BY id ASC` are left out. The table is passed already in id order. `src/hyg-loader.py` (CSV to database import) is not part of this model.
- `__str__` of both classes is display formatting only. The `config` argument of `Constellation.__init__` is stored but never read.
- `src/constellation_chart.py`, `src/vrml_model.py`, `src/vrml_canvas.py`, `src/vrml_templates.py`, `src/build_orion.py` (beyond its constants) and `src/util.py` are plotting, template and process glue. They are not part of this model.
- Geometry.GetRange: numpy's exact exception for a `""` distance is not modelled; a string-typed position array is treated as a failure (`DistanceNotNumeric`). When several faults occur at once, the reported failure follows a fixed order: empty, then unprojected, then non-numeric distance.
- Stars.Key: Python returns either a string or the integer id; the model tags the two cases (`NameKey`, `IdKey`).
- Python's `int` magnitude filter (`mag=4`, `mag=5`) is modelled as a `real`.

## Findings

| source | as written | input that shows it | evidently intended | confidence | as-written member | corrected member |
|---|---|---|---|---|---|---|
| src/tests.py:10-16 | all four corner points are built with `hyg_id` 0, so `add_star` keeps only the last, (2, 1), and `find_center` would return (2, 1); the module also fails at import before reaching the assertion, because src/tests.py:3 imports `ConstellationPoint` from `build_orion`, which binds only `Constellation` (src/build_orion.py:4), and src/build_orion.py:6 imports a `ModelConfig` that `vrml_model.py` does not define | the test's own four points | four distinct ids, for which the centre is (1.5, 1.5) as asserted | high; not executed | Examples.MidpointTestAsWritten | Examples.MidpointTestDistinctIds |

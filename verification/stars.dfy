/** One catalog star, `ConstellationPoint` in src/constellation.py. */
module Stars {
  import opened Outcomes

  /** A value read from one of the catalog's REAL columns (distance,
      magnitude): SQL NULL, the empty text the CSV import stores for a blank
      field, or a number. */
  datatype Cell = Null | EmptyText | Number(v: real)

  /** A star's distance or magnitude after construction: the empty string
      `""` the constructor substitutes for a falsy value, or a number. */
  datatype Measure = Blank | Known(v: real)

  /** A projected planar position; `x` is index PX (0), `y` is index PY (1). */
  datatype Point = Point(x: real, y: real)

  datatype Star = Star(
    hygId: int,
    designation: string,
    properName: string,
    ra: real,                  // hours
    dec: real,                 // degrees
    distance: Measure,
    magnitude: Measure,
    projected: Option<Point>)  // None until the aggregate projects it

  /** The display key: a name, or the catalog id when the star has none. */
  datatype StarKey = NameKey(name: string) | IdKey(id: int)

  /** The position triple of `get_xyz_ish`: projected x, distance, projected y. */
  datatype Xyz = Xyz(x: real, distance: Measure, y: real)

  /** Python truthiness of a cell: NULL, "" and 0.0 are falsy. */
  predicate Falsy(c: Cell) {
    c.Null? || c.EmptyText? || c == Number(0.0)
  }

  /** `text or ""`. */
  function TextOrEmpty(t: Option<string>): (s: string)
    ensures t.Some? ==> s == t.value
    ensures t.None? ==> s == ""
  {
    match t
    case None => ""
    case Some(v) => v
  }

  /** `number or ""`. */
  function MeasureOf(c: Cell): (m: Measure)
    ensures m.Blank? <==> Falsy(c)
    ensures m.Known? ==> c == Number(m.v) && m.v != 0.0
  {
    if Falsy(c) then Blank else Known(c.v)
  }

  /** The cell a measure is stored as in the catalog. */
  function CellOf(m: Measure): Cell {
    match m
    case Blank => EmptyText
    case Known(v) => Number(v)
  }

  /** `ConstellationPoint.__init__`: absent names become "", falsy distance
      and magnitude become "", and the star starts unprojected. */
  function NewStar(hygId: int, designation: Option<string>, properName: Option<string>,
                   ra: real, dec: real, distance: Cell, magnitude: Cell): (s: Star)
    ensures s.hygId == hygId && s.ra == ra && s.dec == dec
    ensures s.designation == "" <==> designation.None? || designation.value == ""
    ensures s.properName == "" <==> properName.None? || properName.value == ""
    ensures designation.Some? ==> s.designation == designation.value
    ensures properName.Some? ==> s.properName == properName.value
    ensures s.distance.Blank? <==> Falsy(distance)
    ensures s.magnitude.Blank? <==> Falsy(magnitude)
    ensures s.distance.Known? ==> distance == Number(s.distance.v)
    ensures s.magnitude.Known? ==> magnitude == Number(s.magnitude.v)
    ensures s.projected == None
  {
    Star(hygId, TextOrEmpty(designation), TextOrEmpty(properName), ra, dec,
         MeasureOf(distance), MeasureOf(magnitude), None)
  }

  /** A star the constructor can produce: no number is a stored zero. */
  predicate Normalised(s: Star) {
    s.distance != Known(0.0) && s.magnitude != Known(0.0)
  }

  /** Constructing from a star's own fields gives the star back, once its
      projection is dropped: the constructor's normalisation is idempotent. */
  lemma NewStarRoundTrip(s: Star)
    requires Normalised(s)
    ensures NewStar(s.hygId, Some(s.designation), Some(s.properName), s.ra, s.dec,
                    CellOf(s.distance), CellOf(s.magnitude)) == s.(projected := None)
  {
  }

  /** A magnitude (or distance) of exactly zero is falsy in Python and is
      therefore stored as "" — the same as a missing value. */
  lemma ZeroCollapsesToBlank(hygId: int, ra: real, dec: real)
    ensures NewStar(hygId, None, None, ra, dec, Number(0.0), Number(0.0))
         == NewStar(hygId, Some(""), Some(""), ra, dec, Null, EmptyText)
  {
  }

  /** The `key` property: proper name, else designation, else the id. */
  function Key(s: Star): (k: StarKey)
    ensures k.NameKey? <==> s.properName != "" || s.designation != ""
    ensures k.NameKey? ==> k.name != "" && (k.name == s.properName || k.name == s.designation)
    ensures s.properName != "" ==> k == NameKey(s.properName)
    ensures k == NameKey(s.designation) && s.designation != s.properName ==> s.properName == ""
    ensures k.IdKey? ==> k.id == Index(s)
  {
    if s.properName != "" then NameKey(s.properName)
    else if s.designation != "" then NameKey(s.designation)
    else IdKey(s.hygId)
  }

  /** The `index` property: a star's identity in the aggregate's map. */
  function Index(s: Star): int {
    s.hygId
  }

  /** A constructed star is filed under the catalog id it was built with,
      whatever its names, angles and measures. */
  lemma IndexOfNewStar(hygId: int, designation: Option<string>, properName: Option<string>,
                       ra: real, dec: real, distance: Cell, magnitude: Cell)
    ensures Index(NewStar(hygId, designation, properName, ra, dec, distance, magnitude)) == hygId
  {
  }

  /** `get_xyz_ish`: no position (Python's `False`) before projection. */
  function XyzIsh(s: Star): (p: Option<Xyz>)
    ensures p.None? <==> s.projected.None?
    ensures p.Some? ==> p.value.distance == s.distance
    ensures p.Some? ==> Point(p.value.x, p.value.y) == s.projected.value
  {
    match s.projected
    case None => None
    case Some(pt) => Some(Xyz(pt.x, s.distance, pt.y))
  }
}

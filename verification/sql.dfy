/** The WHERE-clause builder of the aggregate (`generate_select_in_parts`,
    `selection_sql`) and, as its partner, an interpreter that reads a
    fragment with its named parameters back into the criterion it selects
    by — what SQLite does with the two when it binds `:name` placeholders. */
module Sql {
  import opened Outcomes
  import opened Text
  import opened Aggregate

  /** A value bound to a named SQL parameter. */
  datatype Value = IntValue(i: int) | RealValue(r: real) | TextValue(s: string)

  /** A WHERE-clause fragment together with its parameter map. */
  datatype Query = Query(sql: string, params: map<string, Value>)

  /** What a fragment selects: listed ids, or the constellation filter. */
  datatype Criterion =
    | IdIn(ids: seq<int>)
    | InConstellation(con: string, maxMagnitude: real)

  /** The twelve spaces that indent each line of the filter fragment. */
  const Indent: string := "            "

  /** The fixed fragment of filter mode, character for character. */
  const FilterSql: string :=
    "\n" + Indent + "constellation = :con AND\n"
    + Indent + "bayer_flamsteed_designation != \"\" AND\n"
    + Indent + "magnitude < :mag"

  const IdInPrefix: string := "id in ("

  /** The parameter name `i{k}` of the k-th listed id. */
  function ParamKey(k: nat): string {
    "i" + NatToString(k)
  }

  /** The placeholder `:i{k}` that refers to it. */
  function Placeholder(k: nat): string {
    ":" + ParamKey(k)
  }

  lemma ParamKeyInjective(a: nat, b: nat)
    ensures ParamKey(a) == ParamKey(b) ==> a == b
  {
    if ParamKey(a) == ParamKey(b) {
      assert ParamKey(a)[1..] == NatToString(a);
      assert ParamKey(b)[1..] == NatToString(b);
      NatToStringInjective(a, b);
    }
  }

  /** The placeholders the loop appends, in order. */
  function Placeholders(n: nat): (ps: seq<string>)
    ensures |ps| == n
    ensures forall k :: 0 <= k < n ==> ps[k] == Placeholder(k)
  {
    if n == 0 then [] else Placeholders(n - 1) + [Placeholder(n - 1)]
  }

  /** The parameter map the loop fills: `i{k}` bound to the k-th id. Its
      keys are pairwise distinct, so no id is overwritten by a later one. */
  function Bindings(ids: seq<int>): (m: map<string, Value>)
    ensures m.Keys == set k: nat | k < |ids| :: ParamKey(k)
    ensures forall k: nat :: k < |ids| ==> m[ParamKey(k)] == IntValue(ids[k])
    ensures |m| == |ids|
  {
    if |ids| == 0 then map[]
    else
      var n := |ids| - 1;
      var prev := Bindings(ids[..n]);
      BindNext(ids, prev);
      prev[ParamKey(n) := IntValue(ids[n])]
  }

  /** One step of the loop: binding `i{n}` to the last id extends the
      bindings of the first n ids to those of all n + 1. */
  lemma {:induction false} BindNext(ids: seq<int>, prev: map<string, Value>)
    requires |ids| > 0
    requires prev.Keys == set k: nat | k < |ids| - 1 :: ParamKey(k)
    requires forall k: nat :: k < |ids| - 1 ==> prev[ParamKey(k)] == IntValue(ids[..|ids| - 1][k])
    requires |prev| == |ids| - 1
    ensures var m := prev[ParamKey(|ids| - 1) := IntValue(ids[|ids| - 1])];
            && m.Keys == (set k: nat | k < |ids| :: ParamKey(k))
            && (forall k: nat :: k < |ids| ==> m[ParamKey(k)] == IntValue(ids[k]))
            && |m| == |ids|
  {
    var n := |ids| - 1;
    NextParamKeyFresh(prev, n);
    KeysGrowByOne(n);
    AddFreshKey(prev, ParamKey(n), IntValue(ids[n]));
    BindNextValues(ids, prev);
  }

  /** Adding an absent key grows a map by exactly that key. */
  lemma AddFreshKey(m: map<string, Value>, key: string, v: Value)
    requires key !in m
    ensures m[key := v].Keys == m.Keys + {key}
    ensures |m[key := v]| == |m| + 1
  {
  }

  /** The values of that step: earlier names keep their ids, `i{n}` gets the last. */
  lemma {:induction false} BindNextValues(ids: seq<int>, prev: map<string, Value>)
    requires |ids| > 0
    requires ParamKey(|ids| - 1) !in prev
    requires forall k: nat :: k < |ids| - 1 ==> ParamKey(k) in prev && prev[ParamKey(k)] == IntValue(ids[..|ids| - 1][k])
    ensures forall k: nat :: k < |ids| ==>
              prev[ParamKey(|ids| - 1) := IntValue(ids[|ids| - 1])][ParamKey(k)] == IntValue(ids[k])
  {
    var n := |ids| - 1;
    forall k: nat | k < |ids|
      ensures prev[ParamKey(n) := IntValue(ids[n])][ParamKey(k)] == IntValue(ids[k])
    {
      if k < n {
        assert ids[..n][k] == ids[k];
      }
    }
  }

  /** The names of the first n + 1 positions are those of the first n and `i{n}`. */
  lemma KeysGrowByOne(n: nat)
    ensures (set k: nat | k < n + 1 :: ParamKey(k)) == (set k: nat | k < n :: ParamKey(k)) + {ParamKey(n)}
  {
  }

  /** The name `i{n}` is not among `i0`…`i{n-1}`, so appending it never
      overwrites an earlier binding. */
  lemma NextParamKeyFresh(m: map<string, Value>, n: nat)
    requires m.Keys == set k: nat | k < n :: ParamKey(k)
    ensures ParamKey(n) !in m
  {
    forall k: nat | k < n
      ensures ParamKey(k) != ParamKey(n)
    {
      ParamKeyInjective(k, n);
    }
  }

  /** `generate_select_in_parts`: the fragment `id in (:i0,:i1,...)` with
      `i{k}` bound to the k-th id. Interpreting it gives back exactly the
      ids, in order, and the map binds each placeholder once. */
  function GenerateSelectInParts(ids: seq<int>): (q: Query)
    ensures q.params.Keys == set k: nat | k < |ids| :: ParamKey(k)
    ensures forall k: nat :: k < |ids| ==> q.params[ParamKey(k)] == IntValue(ids[k])
    ensures |q.params| == |ids|
    ensures Interpret(q) == Some(IdIn(ids))
  {
    var q := Query(IdInPrefix + JoinCommas(Placeholders(|ids|)) + ")", Bindings(ids));
    LookUpAllPlaceholders(ids);
    InterpretIdList(ids, q);
    q
  }

  /** Python truthiness of the `selection` argument: neither None nor empty. */
  predicate HasSelection(selection: Option<seq<int>>) {
    selection.Some? && |selection.value| > 0
  }

  /** `selection_sql`: id-list mode for a non-empty selection, otherwise the
      constellation/magnitude filter bound to `con` and `mag`. */
  function SelectionSql(c: Constellation, selection: Option<seq<int>>): (q: Query)
    ensures HasSelection(selection) ==> Interpret(q) == Some(IdIn(selection.value))
    ensures !HasSelection(selection) ==>
              Interpret(q) == Some(InConstellation(c.abbreviation, c.magnitudeFilter))
    ensures !HasSelection(selection) ==> q.params.Keys == {"con", "mag"}
  {
    if HasSelection(selection) then GenerateSelectInParts(selection.value)
    else Query(FilterSql, map["con" := TextValue(c.abbreviation), "mag" := RealValue(c.magnitudeFilter)])
  }

  /** Resolves `:name` placeholders to the integer ids bound to them; fails
      on anything else or on an unbound or non-integer parameter. */
  function LookUpIds(placeholders: seq<string>, params: map<string, Value>): Option<seq<int>> {
    if |placeholders| == 0 then Some([])
    else
      var p := placeholders[0];
      if |p| >= 1 && p[0] == ':' && p[1..] in params && params[p[1..]].IntValue? then
        match LookUpIds(placeholders[1..], params)
        case Some(rest) => Some([params[p[1..]].i] + rest)
        case None => None
      else None
  }

  /** Reads the filter fragment's two parameters back. */
  function InterpretFilter(params: map<string, Value>): Option<Criterion> {
    if "con" in params && params["con"].TextValue? && "mag" in params && params["mag"].RealValue? then
      Some(InConstellation(params["con"].s, params["mag"].r))
    else None
  }

  /** Reads a fragment `id in (...)` back into the ids its placeholders bind. */
  function InterpretIdIn(q: Query): Option<Criterion> {
    if |q.sql| > |IdInPrefix| && q.sql[..|IdInPrefix|] == IdInPrefix && q.sql[|q.sql| - 1] == ')' then
      match LookUpIds(SplitCommas(q.sql[|IdInPrefix|..|q.sql| - 1]), q.params)
      case Some(ids) => Some(IdIn(ids))
      case None => None
    else None
  }

  /** Reads a fragment of either mode back into its criterion; None for any
      text neither mode produces or for a parameter that does not fit. */
  function Interpret(q: Query): Option<Criterion> {
    if q.sql == FilterSql then InterpretFilter(q.params) else InterpretIdIn(q)
  }

  /** Every placeholder is a non-empty, comma-free name. */
  lemma PlaceholdersSplittable(n: nat)
    ensures forall i :: 0 <= i < n ==> CommaFree(Placeholders(n)[i]) && Placeholders(n)[i] != ""
  {
    forall i | 0 <= i < n
      ensures CommaFree(Placeholders(n)[i]) && Placeholders(n)[i] != ""
    {
      var digits := NatToString(i);
      assert Placeholders(n)[i] == [':', 'i'] + digits;
      assert forall j :: 0 <= j < |digits| ==> digits[j] != ',';
    }
  }

  lemma {:induction false} LookUpPlaceholders(ids: seq<int>, params: map<string, Value>, j: nat)
    requires j <= |ids|
    requires forall k: nat :: k < |ids| ==> ParamKey(k) in params && params[ParamKey(k)] == IntValue(ids[k])
    ensures LookUpIds(Placeholders(|ids|)[j..], params) == Some(ids[j..])
    decreases |ids| - j
  {
    var all := Placeholders(|ids|);
    var ps := all[j..];
    if j < |ids| {
      LookUpPlaceholders(ids, params, j + 1);
      var p := ps[0];
      assert p == Placeholder(j);
      assert |p| >= 1 && p[0] == ':';
      assert p[1..] == ParamKey(j);
      assert params[p[1..]] == IntValue(ids[j]);
      assert ps[1..] == all[j + 1..];
      assert LookUpIds(ps[1..], params) == Some(ids[j + 1..]);
      assert ids[j..] == [ids[j]] + ids[j + 1..];
    } else {
      assert ps == [] && ids[j..] == [];
    }
  }

  /** A fragment of the shape `id in (...)` is read by looking up the
      placeholders between the parentheses. */
  lemma InterpretIdInShape(q: Query, inner: string, ids: seq<int>)
    requires q.sql == IdInPrefix + inner + ")"
    requires LookUpIds(SplitCommas(inner), q.params) == Some(ids)
    ensures Interpret(q) == Some(IdIn(ids))
  {
    assert q.sql[0] == 'i' && FilterSql[0] == '\n';
    assert q.sql != FilterSql;
    assert q.sql[..|IdInPrefix|] == IdInPrefix;
    assert q.sql[|IdInPrefix|..|q.sql| - 1] == inner;
  }

  lemma SplitPlaceholders(n: nat)
    ensures SplitCommas(JoinCommas(Placeholders(n))) == Placeholders(n)
  {
    PlaceholdersSplittable(n);
    SplitJoin(Placeholders(n));
  }

  lemma LookUpAllPlaceholders(ids: seq<int>)
    ensures LookUpIds(Placeholders(|ids|), Bindings(ids)) == Some(ids)
  {
    LookUpPlaceholders(ids, Bindings(ids), 0);
    assert Placeholders(|ids|)[0..] == Placeholders(|ids|);
    assert ids[0..] == ids;
  }

  lemma {:induction false} InterpretIdList(ids: seq<int>, q: Query)
    requires q.sql == IdInPrefix + JoinCommas(Placeholders(|ids|)) + ")"
    requires LookUpIds(Placeholders(|ids|), q.params) == Some(ids)
    ensures Interpret(q) == Some(IdIn(ids))
  {
    SplitPlaceholders(|ids|);
    InterpretIdInShape(q, JoinCommas(Placeholders(|ids|)), ids);
  }
}

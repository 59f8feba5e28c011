/** Concrete uses of the model: the midpoint unit test of src/tests.py,
    as written and as intended, and the Orion figure of src/build_orion.py. */
module Examples {
  import opened Outcomes
  import opened Stars
  import opened Aggregate
  import opened Loading
  import opened Geometry

  /** A test corner star: named, no designation, blank distance and magnitude. */
  function Corner(id: int, name: string, ra: real, dec: real): Star {
    NewStar(id, Some(""), Some(name), ra, dec, EmptyText, EmptyText)
  }

  /** The test's four corners (1,1), (1,2), (2,2), (2,1), inserted in that
      order with the given ids. */
  function Corners(ids: seq<int>): Constellation
    requires |ids| == 4
  {
    var c := NewConstellation("Ori", DefaultMagnitudeFilter);
    var c := AddStar(c, Corner(ids[0], "ll", 1.0, 1.0));
    var c := AddStar(c, Corner(ids[1], "ul", 1.0, 2.0));
    var c := AddStar(c, Corner(ids[2], "ur", 2.0, 2.0));
    AddStar(c, Corner(ids[3], "lr", 2.0, 1.0))
  }

  /** As written, all four corners carry id 0, so each insertion overwrites
      the previous one: only (2, 1) is left and the centre is (2, 1), not the
      (1.5, 1.5) the test asserts. */
  lemma MidpointTestAsWritten()
    ensures Corners([0, 0, 0, 0]).stars.Keys == {0}
    ensures FindCenter(Corners([0, 0, 0, 0])) == Ok((2.0, 1.0))
  {
    var c := Corners([0, 0, 0, 0]);
    assert c.stars == map[0 := Corner(0, "lr", 2.0, 1.0)];
    assert RaValues(c.stars) == {2.0};
    assert DecValues(c.stars) == {1.0};
  }

  /** With distinct ids the four corners all survive and the centre is the
      midpoint (1.5, 1.5) the test intends. */
  lemma {:induction false} MidpointTestDistinctIds()
    ensures Corners([0, 1, 2, 3]).stars.Keys == {0, 1, 2, 3}
    ensures FindCenter(Corners([0, 1, 2, 3])) == Ok((1.5, 1.5))
  {
    var c := Corners([0, 1, 2, 3]);
    DistinctCornersKept();
    assert c.stars[0].ra == 1.0 && c.stars[2].ra == 2.0;
    assert c.stars[0].dec == 1.0 && c.stars[1].dec == 2.0;
    assert RaValues(c.stars) == {1.0, 2.0};
    assert DecValues(c.stars) == {1.0, 2.0};
    CentreOfUnitSquare(c);
  }

  lemma {:induction false} DistinctCornersKept()
    ensures Corners([0, 1, 2, 3]).stars
         == map[0 := Corner(0, "ll", 1.0, 1.0), 1 := Corner(1, "ul", 1.0, 2.0),
                2 := Corner(2, "ur", 2.0, 2.0), 3 := Corner(3, "lr", 2.0, 1.0)]
  {
  }

  lemma {:induction false} CentreOfUnitSquare(c: Constellation)
    requires RaValues(c.stars) == {1.0, 2.0} && DecValues(c.stars) == {1.0, 2.0}
    ensures FindCenter(c) == Ok((1.5, 1.5))
  {
    assert 1.0 in RaValues(c.stars);
    assert c.stars != map[];
    var lo := Min({1.0, 2.0});
    var hi := Max({1.0, 2.0});
    assert lo == 1.0 && hi == 2.0;
  }

  /** The 22 stars of the Orion figure. */
  const OrionPoints: seq<int> :=
    [27298, 24378, 27919, 25273, 26662, 26246, 25865, 26142, 26176,
     22396, 22496, 22744, 23069, 22456, 22792, 22904, 23552, 28543,
     29353, 28966, 28645, 27844]

  /** The 25 lines of the Orion figure. */
  const OrionLines: seq<Connection> :=
    [(27298, 26662), (24378, 25865), (25865, 26246), (26246, 26662),
     (26246, 26176), (26662, 27919), (27919, 26142), (26142, 25273),
     (25273, 27919), (25273, 22396), (22396, 22496), (22744, 22496),
     (23069, 22744), (22396, 22456), (22456, 22792), (22792, 22904),
     (22904, 23552), (27919, 28543), (28543, 29353), (28543, 28966),
     (29353, 28966), (29353, 28645), (28966, 27844), (28645, 27844),
     (25273, 25865)]

  /** The Orion ids are pairwise distinct. */
  lemma OrionPointsDistinct()
    ensures forall i, j :: 0 <= i < j < |OrionPoints| ==> OrionPoints[i] != OrionPoints[j]
  {
  }

  /** Every endpoint of an Orion line is one of the Orion stars. */
  lemma OrionLinesWithinPoints()
    ensures forall i :: 0 <= i < |OrionLines| ==> OrionLines[i].0 in OrionPoints && OrionLines[i].1 in OrionPoints
  {
  }

  /** Building the Orion figure from any catalog table that holds all 22
      stars loads each of them, and then every line of the figure resolves
      to two loaded stars. */
  lemma OrionConnectionsResolve(table: seq<CatalogRow>)
    requires forall p :: p in OrionPoints ==> exists j :: 0 <= j < |table| && table[j].id == p
    ensures var c := Load(NewConstellation("Ori", 5.0), table, Some(OrionPoints));
            && (forall p :: p in OrionPoints ==> p in c.stars)
            && ConnectionsClosed(SetConnections(c, OrionLines))
  {
    var empty := NewConstellation("Ori", 5.0);
    var c := Load(empty, table, Some(OrionPoints));
    forall p | p in OrionPoints
      ensures p in c.stars
    {
      var j :| 0 <= j < |table| && table[j].id == p;
      assert Wanted(empty, Some(OrionPoints), table[j]);
      assert p in WantedIds(empty, Some(OrionPoints), table);
    }
    OrionLinesClosed(c);
  }

  /** Once every Orion star is loaded, the Orion lines are closed over the
      aggregate. */
  lemma OrionLinesClosed(c: Constellation)
    requires forall p :: p in OrionPoints ==> p in c.stars
    ensures ConnectionsClosed(SetConnections(c, OrionLines))
  {
    OrionLinesWithinPoints();
  }
}

/** Worked inputs for the grouping loop and the two extractors. */
module Scenarios {
  import opened Options
  import opened Coordinates
  import opened Grouping
  import opened Extraction

  /** The first two observations of storm AL011851. */
  const First: Row := Row("AL011851", 18510625, 0, CoordField("28.0N", 28.0), CoordField("94.8W", 94.8), 80)
  const Second: Row := Row("AL011851", 18510625, 600, CoordField("28.2N", 28.2), CoordField("95.4W", 95.4), 90)

  /** A dictionary holding those two observations under their storm ID
      yields one training row and one plot point. */
  lemma {:induction false} OneStormExtracted()
    ensures var d := TrackDict([Storm("AL011851")], map[Storm("AL011851") := [ToObservation(First), ToObservation(Second)]]);
      && TrainingData(d) == [TrainingRow(18510625, 0, Some(118.0), Some(274.8), 80,
                                         18510625, 600, Some(118.2), Some(275.4), 90)]
      && PlotLats(AllPairs(d)) == [Some(28.0)]
      && PlotLongs(AllPairs(d)) == [Some(-94.8)]
  {
    var d := TrackDict([Storm("AL011851")], map[Storm("AL011851") := [ToObservation(First), ToObservation(Second)]]);
    assert d.keys[..0] == [];
    assert AllPairs(d) == [AdjacentPair(ToObservation(First), ToObservation(Second))];
  }

  /** Reading only those two rows keeps nothing but the sentinel entry: the
      storm is the final run, so it is never stored, and no training row
      comes out. */
  lemma {:induction false} OneStormFileDropped()
    ensures Grouped([First, Second]) == SentinelOnly
    ensures TrainingData(Grouped([First, Second])) == []
  {
    var rows := [First, Second];
    var o1, o2 := ToObservation(First), ToObservation(Second);
    assert Put(Empty, Sentinel, []) == SentinelOnly;
    assert rows[..1] == [First] && [First][..0] == [];
    assert StateAfter([First]) == ReadState(Storm("AL011851"), [o1], SentinelOnly);
    assert StateAfter(rows) == ReadState(Storm("AL011851"), [o1, o2], SentinelOnly);
    assert SentinelOnly.keys[..0] == [] && SentinelOnly.keys[..1] == SentinelOnly.keys;
  }

  function Obs(id: string, time: int): Row
  {
    Row(id, 20000101, time, CoordField("10.0N", 10.0), CoordField("50.0W", 50.0), 30)
  }

  function TrackA(): Track
  {
    [ToObservation(Obs("A", 0)), ToObservation(Obs("A", 600)), ToObservation(Obs("A", 1200))]
  }

  lemma {:induction false} StormAInProgress()
    ensures StateAfter([Obs("A", 0), Obs("A", 600), Obs("A", 1200)]) == ReadState(Storm("A"), TrackA(), SentinelOnly)
  {
    var a0, a1, a2 := Obs("A", 0), Obs("A", 600), Obs("A", 1200);
    NewStormCommits([], a0);
    assert Put(Empty, Sentinel, []) == SentinelOnly;
    assert [] + [a0] == [a0];
    SameStormExtends([a0], a1);
    assert [a0] + [a1] == [a0, a1];
    SameStormExtends([a0, a1], a2);
    assert [a0, a1] + [a2] == [a0, a1, a2];
  }

  /** Storm A with three rows, then storm B with two: the result holds the
      sentinel entry and A's three observations; B is lost. */
  lemma {:induction false} TwoStormsLastDropped()
    ensures var rows := [Obs("A", 0), Obs("A", 600), Obs("A", 1200), Obs("B", 0), Obs("B", 600)];
      Grouped(rows) == TrackDict([Sentinel, Storm("A")], map[Sentinel := [], Storm("A") := TrackA()])
  {
    var a, b0, b1 := [Obs("A", 0), Obs("A", 600), Obs("A", 1200)], Obs("B", 0), Obs("B", 600);
    StormAInProgress();
    NewStormCommits(a, b0);
    assert Put(SentinelOnly, Storm("A"), TrackA()) == TrackDict([Sentinel, Storm("A")], map[Sentinel := [], Storm("A") := TrackA()]);
    SameStormExtends(a + [b0], b1);
    assert a + [b0] + [b1] == [Obs("A", 0), Obs("A", 600), Obs("A", 1200), Obs("B", 0), Obs("B", 600)];
  }
}

/** `HurricancePrediction.merge_rows` and `extract_lats_longs`
    (hurricane_prediction.py:38-65): both walk the dictionary in key order
    and, inside each track, every observation that has a successor.
    Every lemma here spells out its own induction, so automatic induction is
    switched off throughout. */
module Extraction {
  import opened Options
  import opened Coordinates
  import opened Grouping

  /** Observation `row` of a track and the one after it. */
  datatype AdjacentPair = AdjacentPair(here: Observation, next: Observation)

  /** The number of indices in `range(0, n - 1)`, that is max(n - 1, 0). */
  function Gaps(n: nat): nat
  {
    if n == 0 then 0 else n - 1
  }

  /** The adjacent pairs of one track, first to last. */
  function TrackPairs(t: Track): (r: seq<AdjacentPair>)
    ensures |r| == Gaps(|t|)
    ensures forall k :: 0 <= k < |r| ==> r[k] == AdjacentPair(t[k], t[k + 1])
  {
    if |t| < 2 then [] else [AdjacentPair(t[0], t[1])] + TrackPairs(t[1..])
  }

  /** `hurricanes[key]`, read as the empty track for a key that is absent. */
  function TrackOf(d: TrackDict, k: Key): Track
  {
    if k in d.tracks then d.tracks[k] else []
  }

  /** The sum of max(len(track) - 1, 0) over the tracks of the given keys. */
  function PairCount(d: TrackDict, ks: seq<Key>): nat
  {
    if ks == [] then 0 else PairCount(d, ks[..|ks| - 1]) + Gaps(|TrackOf(d, ks[|ks| - 1])|)
  }

  /** The adjacent pairs of the tracks under the given keys, key after key. */
  function PairsOf(d: TrackDict, ks: seq<Key>): (r: seq<AdjacentPair>)
    ensures |r| == PairCount(d, ks)
  {
    if ks == [] then [] else PairsOf(d, ks[..|ks| - 1]) + TrackPairs(TrackOf(d, ks[|ks| - 1]))
  }

  /** Every adjacent pair of the dictionary, in the order both extractors
      visit them. */
  function AllPairs(d: TrackDict): seq<AdjacentPair>
  {
    PairsOf(d, d.keys)
  }

  /** The ten-field list `merge_rows` emits for one adjacent pair. */
  datatype TrainingRow = TrainingRow(
    date0: int, time0: int, lat0: Option<real>, long0: Option<real>, maxWind0: int,
    date1: int, time1: int, lat1: Option<real>, long1: Option<real>, maxWind1: int)

  function ToTrainingRow(p: AdjacentPair): TrainingRow
  {
    TrainingRow(p.here.date, p.here.time, LatToInt(p.here.lat), LongToInt(p.here.long), p.here.maxWind,
                p.next.date, p.next.time, LatToInt(p.next.lat), LongToInt(p.next.long), p.next.maxWind)
  }

  function TrainingRows(ps: seq<AdjacentPair>): seq<TrainingRow>
  {
    seq(|ps|, j requires 0 <= j < |ps| => ToTrainingRow(ps[j]))
  }

  /** What `merge_rows` returns. */
  function TrainingData(d: TrackDict): seq<TrainingRow>
  {
    TrainingRows(AllPairs(d))
  }

  /** The signed latitude of the first observation of each pair. */
  function PlotLats(ps: seq<AdjacentPair>): seq<Option<real>>
  {
    seq(|ps|, j requires 0 <= j < |ps| => ConvertLat(ps[j].here.lat))
  }

  /** The signed longitude of the first observation of each pair. */
  function PlotLongs(ps: seq<AdjacentPair>): seq<Option<real>>
  {
    seq(|ps|, j requires 0 <= j < |ps| => ConvertLong(ps[j].here.long))
  }

  lemma {:induction false} TrainingRowsSnoc(ps: seq<AdjacentPair>, p: AdjacentPair)
    ensures TrainingRows(ps + [p]) == TrainingRows(ps) + [ToTrainingRow(p)]
  {
    assert forall j :: 0 <= j < |ps| ==> (ps + [p])[j] == ps[j];
  }

  lemma {:induction false} PlotSnoc(ps: seq<AdjacentPair>, p: AdjacentPair)
    ensures PlotLats(ps + [p]) == PlotLats(ps) + [ConvertLat(p.here.lat)]
    ensures PlotLongs(ps + [p]) == PlotLongs(ps) + [ConvertLong(p.here.long)]
  {
    assert forall j :: 0 <= j < |ps| ==> (ps + [p])[j] == ps[j];
  }

  lemma {:induction false} PairsOfSnoc(d: TrackDict, ks: seq<Key>, i: nat)
    requires i < |ks|
    ensures PairsOf(d, ks[..i + 1]) == PairsOf(d, ks[..i]) + TrackPairs(TrackOf(d, ks[i]))
  {
    assert ks[..i + 1][..i] == ks[..i];
  }

  /** `merge_rows`. */
  method MergeRows(hurricanes: TrackDict) returns (data: seq<TrainingRow>)
    requires hurricanes.Valid()
    ensures data == TrainingData(hurricanes)
    ensures |data| == PairCount(hurricanes, hurricanes.keys)
  {
    data := [];
    var i := 0;
    while i < |hurricanes.keys|
      invariant 0 <= i <= |hurricanes.keys|
      invariant data == TrainingRows(PairsOf(hurricanes, hurricanes.keys[..i]))
    {
      var key := hurricanes.keys[i];
      var hurricane := hurricanes.tracks[key];
      ghost var done := PairsOf(hurricanes, hurricanes.keys[..i]);
      ghost var pairs := TrackPairs(hurricane);
      var row := 0;
      while row < |hurricane| - 1
        invariant 0 <= row <= Gaps(|hurricane|)
        invariant data == TrainingRows(done + pairs[..row])
      {
        data := data + [TrainingRow(
          hurricane[row].date, hurricane[row].time,
          LatToInt(hurricane[row].lat), LongToInt(hurricane[row].long),
          hurricane[row].maxWind,
          hurricane[row + 1].date, hurricane[row + 1].time,
          LatToInt(hurricane[row + 1].lat), LongToInt(hurricane[row + 1].long),
          hurricane[row + 1].maxWind)];
        assert done + pairs[..row + 1] == (done + pairs[..row]) + [pairs[row]];
        assert pairs[row] == AdjacentPair(hurricane[row], hurricane[row + 1]);
        TrainingRowsSnoc(done + pairs[..row], pairs[row]);
        row := row + 1;
      }
      assert pairs[..row] == pairs;
      PairsOfSnoc(hurricanes, hurricanes.keys, i);
      i := i + 1;
    }
    assert hurricanes.keys[..i] == hurricanes.keys;
  }

  /** `extract_lats_longs`. */
  method ExtractLatsLongs(hurricanes: TrackDict) returns (lats: seq<Option<real>>, longs: seq<Option<real>>)
    requires hurricanes.Valid()
    ensures lats == PlotLats(AllPairs(hurricanes)) && longs == PlotLongs(AllPairs(hurricanes))
    ensures |lats| == |longs| == PairCount(hurricanes, hurricanes.keys)
  {
    lats, longs := [], [];
    var i := 0;
    while i < |hurricanes.keys|
      invariant 0 <= i <= |hurricanes.keys|
      invariant lats == PlotLats(PairsOf(hurricanes, hurricanes.keys[..i]))
      invariant longs == PlotLongs(PairsOf(hurricanes, hurricanes.keys[..i]))
    {
      var key := hurricanes.keys[i];
      var hurricane := hurricanes.tracks[key];
      ghost var done := PairsOf(hurricanes, hurricanes.keys[..i]);
      ghost var pairs := TrackPairs(hurricane);
      var row := 0;
      while row < |hurricane| - 1
        invariant 0 <= row <= Gaps(|hurricane|)
        invariant lats == PlotLats(done + pairs[..row])
        invariant longs == PlotLongs(done + pairs[..row])
      {
        lats := lats + [ConvertLat(hurricane[row].lat)];
        longs := longs + [ConvertLong(hurricane[row].long)];
        assert done + pairs[..row + 1] == (done + pairs[..row]) + [pairs[row]];
        assert pairs[row] == AdjacentPair(hurricane[row], hurricane[row + 1]);
        PlotSnoc(done + pairs[..row], pairs[row]);
        row := row + 1;
      }
      assert pairs[..row] == pairs;
      PairsOfSnoc(hurricanes, hurricanes.keys, i);
      i := i + 1;
    }
    assert hurricanes.keys[..i] == hurricanes.keys;
  }

  // ---------------------------------------------------------------------
  // Where each emitted entry comes from.
  // ---------------------------------------------------------------------

  /** The pair for index k of the i-th key sits at the i-th key's offset
      plus k: keys in order, then indices in order. */
  lemma {:induction false} PairAt(d: TrackDict, ks: seq<Key>, i: nat, k: nat)
    requires i < |ks| && k + 1 < |TrackOf(d, ks[i])|
    ensures PairCount(d, ks[..i]) + k < |PairsOf(d, ks)|
    ensures PairsOf(d, ks)[PairCount(d, ks[..i]) + k] == AdjacentPair(TrackOf(d, ks[i])[k], TrackOf(d, ks[i])[k + 1])
  {
    var n := |ks|;
    var init := ks[..n - 1];
    var head, tail := PairsOf(d, init), TrackPairs(TrackOf(d, ks[n - 1]));
    assert PairsOf(d, ks) == head + tail;
    var off := PairCount(d, ks[..i]);
    if i < n - 1 {
      assert init[..i] == ks[..i] && init[i] == ks[i];
      PairAt(d, init, i, k);
      assert off + k < |head|;
      assert (head + tail)[off + k] == head[off + k];
    } else {
      assert init == ks[..i];
      assert off == |head|;
      assert (head + tail)[off + k] == tail[k];
    }
  }

  /** Every emitted pair comes from some index k of some key's track, and
      pairs observation k with observation k + 1. */
  lemma {:induction false} PairOrigin(d: TrackDict, ks: seq<Key>, j: nat) returns (i: nat, k: nat)
    requires j < |PairsOf(d, ks)|
    ensures i < |ks| && k + 1 < |TrackOf(d, ks[i])|
    ensures j == PairCount(d, ks[..i]) + k
    ensures PairsOf(d, ks)[j] == AdjacentPair(TrackOf(d, ks[i])[k], TrackOf(d, ks[i])[k + 1])
  {
    var n := |ks|;
    var init := ks[..n - 1];
    var t := TrackOf(d, ks[n - 1]);
    var head, tail := PairsOf(d, init), TrackPairs(t);
    assert PairsOf(d, ks) == head + tail;
    if j < |head| {
      i, k := PairOrigin(d, init, j);
      assert init[..i] == ks[..i] && init[i] == ks[i];
      assert (head + tail)[j] == head[j];
    } else {
      i, k := n - 1, j - |head|;
      assert init == ks[..i];
      assert (head + tail)[j] == tail[k];
    }
  }

  /** A track of one observation (or none) adds nothing. */
  lemma {:induction false} ShortTrackAddsNothing(d: TrackDict, ks: seq<Key>, key: Key)
    requires |TrackOf(d, key)| <= 1
    ensures PairsOf(d, ks + [key]) == PairsOf(d, ks)
    ensures PairCount(d, ks + [key]) == PairCount(d, ks)
  {
    assert (ks + [key])[..|ks|] == ks;
  }

  /** Row `offset + k` of `merge_rows`' output takes its first five fields
      from observation k of the i-th key's track and its last five from
      observation k + 1, with coordinates on the shifted scale. */
  lemma {:induction false} TrainingRowAt(d: TrackDict, i: nat, k: nat)
    requires i < |d.keys| && k + 1 < |TrackOf(d, d.keys[i])|
    ensures var t, j := TrackOf(d, d.keys[i]), PairCount(d, d.keys[..i]) + k;
      && j < |TrainingData(d)|
      && TrainingData(d)[j].date0 == t[k].date && TrainingData(d)[j].time0 == t[k].time
      && TrainingData(d)[j].lat0 == LatToInt(t[k].lat) && TrainingData(d)[j].long0 == LongToInt(t[k].long)
      && TrainingData(d)[j].maxWind0 == t[k].maxWind
      && TrainingData(d)[j].date1 == t[k + 1].date && TrainingData(d)[j].time1 == t[k + 1].time
      && TrainingData(d)[j].lat1 == LatToInt(t[k + 1].lat) && TrainingData(d)[j].long1 == LongToInt(t[k + 1].long)
      && TrainingData(d)[j].maxWind1 == t[k + 1].maxWind
  {
    PairAt(d, d.keys, i, k);
  }

  /** Entry `offset + k` of both plot lists comes from observation k of the
      i-th key's track, never from k + 1, on the signed scale. */
  lemma {:induction false} PlotEntryAt(d: TrackDict, i: nat, k: nat)
    requires i < |d.keys| && k + 1 < |TrackOf(d, d.keys[i])|
    ensures var t, j := TrackOf(d, d.keys[i]), PairCount(d, d.keys[..i]) + k;
      && j < |PlotLats(AllPairs(d))| == |PlotLongs(AllPairs(d))|
      && PlotLats(AllPairs(d))[j] == ConvertLat(t[k].lat)
      && PlotLongs(AllPairs(d))[j] == ConvertLong(t[k].long)
  {
    PairAt(d, d.keys, i, k);
  }

  /** Entry j of the plot lists and row j of `merge_rows` describe the same
      observation: the shifted latitude is the signed one plus 90, the
      shifted longitude is 180 minus the signed one. */
  lemma {:induction false} PlotMatchesTraining(d: TrackDict, j: nat)
    requires j < |AllPairs(d)|
    ensures var row, lat, long := TrainingData(d)[j], PlotLats(AllPairs(d))[j], PlotLongs(AllPairs(d))[j];
      && row.lat0.Some? == lat.Some? && (lat.Some? ==> row.lat0.value == lat.value + 90.0)
      && row.long0.Some? == long.Some? && (long.Some? ==> row.long0.value == 180.0 - long.value)
  {
    var p := AllPairs(d)[j];
    LatScalesAgree(p.here.lat);
    LongScalesAgree(p.here.long);
  }
}

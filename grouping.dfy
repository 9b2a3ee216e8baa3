/** The grouping loop of `HurricancePrediction.read`
    (hurricane_prediction.py:13-36): a flat, ordered stream of rows becomes a
    dictionary from storm ID to the storm's observations.
    Every lemma here spells out its own induction, so automatic induction is
    switched off throughout. */
module Grouping {
  import opened Coordinates

  /** One observation as `read` stores it, under the keys Date, Time, Lat,
      Long and MaxWind. */
  datatype Observation = Observation(date: int, time: int, lat: CoordField, long: CoordField, maxWind: int)

  type Track = seq<Observation>

  /** One row of the file, with the six columns `read` looks at. */
  datatype Row = Row(id: string, date: int, time: int, latitude: CoordField, longitude: CoordField, maximumWind: int)

  /** The observation `read` builds from a row. */
  function ToObservation(row: Row): (o: Observation)
    ensures Row(row.id, o.date, o.time, o.lat, o.long, o.maxWind) == row
  {
    Observation(row.date, row.time, row.latitude, row.longitude, row.maximumWind)
  }

  /** The row of storm `id` that an observation was built from. */
  function ToRow(id: string, o: Observation): (row: Row)
    ensures row.id == id && ToObservation(row) == o
  {
    Row(id, o.date, o.time, o.lat, o.long, o.maxWind)
  }

  /** A dictionary key: the integer 0 that `read` starts from, or a storm ID
      (a string). A Python int never equals a str, so `Sentinel` differs from
      every storm ID. */
  datatype Key = Sentinel | Storm(id: string)

  /** A Python dict from keys to tracks: `keys` in insertion order, `tracks`
      the contents. */
  datatype TrackDict = TrackDict(keys: seq<Key>, tracks: map<Key, Track>) {
    ghost predicate Valid() {
      && (forall k :: k in tracks <==> k in keys)
      && (forall i, j :: 0 <= i < j < |keys| ==> keys[i] != keys[j])
    }
  }

  const Empty: TrackDict := TrackDict([], map[])

  /** `d[k] = t`: a new key goes to the end of the order, an existing key
      keeps its place and gets the new value. */
  function Put(d: TrackDict, k: Key, t: Track): (r: TrackDict)
    requires d.Valid()
    ensures r.Valid()
    ensures k in r.tracks && r.tracks[k] == t
    ensures forall k' :: k' != k ==> (k' in r.tracks <==> k' in d.tracks)
    ensures forall k' :: k' != k && k' in d.tracks ==> r.tracks[k'] == d.tracks[k']
    ensures k in d.tracks ==> r.keys == d.keys
    ensures k !in d.tracks ==> r.keys == d.keys + [k]
  {
    if k in d.tracks then TrackDict(d.keys, d.tracks[k := t])
    else TrackDict(d.keys + [k], d.tracks[k := t])
  }

  /** The local variables of `read`'s loop: `current_id`, `new_hurricane`
      and `hurricanes_dict`. */
  datatype ReadState = ReadState(currentId: Key, newHurricane: Track, dict: TrackDict)

  const Start: ReadState := ReadState(Sentinel, [], Empty)

  /** One iteration of `read`'s loop. */
  function Advance(s: ReadState, row: Row): (s': ReadState)
    requires s.dict.Valid()
    ensures s'.dict.Valid()
    ensures s'.currentId == Storm(row.id)
    ensures |s'.newHurricane| > 0 && s'.newHurricane[|s'.newHurricane| - 1] == ToObservation(row)
  {
    if s.currentId == Storm(row.id) then
      ReadState(s.currentId, s.newHurricane + [ToObservation(row)], s.dict)
    else
      ReadState(Storm(row.id), [ToObservation(row)], Put(s.dict, s.currentId, s.newHurricane))
  }

  /** The loop state after the given rows. */
  function StateAfter(rows: seq<Row>): (s: ReadState)
    ensures s.dict.Valid()
  {
    if rows == [] then Start else Advance(StateAfter(rows[..|rows| - 1]), rows[|rows| - 1])
  }

  /** `read`'s grouping loop. */
  method Read(rows: seq<Row>) returns (hurricanes: TrackDict)
    ensures hurricanes == Grouped(rows)
    ensures rows == [] ==> hurricanes == Empty
    ensures rows != [] ==> hurricanes == CommitRuns(SentinelOnly, AllButLast(StormRuns(rows)))
  {
    hurricanes := Empty;
    var currentId := Sentinel;
    var newHurricane: Track := [];
    var i := 0;
    while i < |rows|
      invariant 0 <= i <= |rows|
      invariant ReadState(currentId, newHurricane, hurricanes) == StateAfter(rows[..i])
    {
      var row := rows[i];
      assert rows[..i + 1][..i] == rows[..i];
      if currentId == Storm(row.id) {
        newHurricane := newHurricane + [ToObservation(row)];
      } else {
        hurricanes := Put(hurricanes, currentId, newHurricane);
        currentId := Storm(row.id);
        newHurricane := [ToObservation(row)];
      }
      i := i + 1;
    }
    assert rows[..i] == rows;
    if rows != [] {
      GroupingCommitsAllButLast(rows);
    }
  }

  /** The dictionary `read` returns. */
  function Grouped(rows: seq<Row>): (d: TrackDict)
    ensures d.Valid()
  {
    StateAfter(rows).dict
  }

  /** A row whose ID matches the storm in progress is appended to
      `new_hurricane`; the dictionary is left alone. */
  lemma {:induction false} SameStormExtends(rows: seq<Row>, row: Row)
    requires rows != [] && rows[|rows| - 1].id == row.id
    ensures var s := StateAfter(rows);
      StateAfter(rows + [row]) == ReadState(Storm(row.id), s.newHurricane + [ToObservation(row)], s.dict)
  {
    assert (rows + [row])[..|rows|] == rows;
    assert StateAfter(rows).currentId == Storm(row.id);
  }

  /** A row with another ID stores the storm in progress under its ID and
      starts a new one with the row alone. */
  lemma {:induction false} NewStormCommits(rows: seq<Row>, row: Row)
    requires rows == [] || rows[|rows| - 1].id != row.id
    ensures var s := StateAfter(rows);
      StateAfter(rows + [row]) == ReadState(Storm(row.id), [ToObservation(row)], Put(s.dict, s.currentId, s.newHurricane))
  {
    assert (rows + [row])[..|rows|] == rows;
    assert StateAfter(rows).currentId != Storm(row.id);
  }

  // ---------------------------------------------------------------------
  // Runs: the maximal blocks of consecutive rows that share an ID.
  // ---------------------------------------------------------------------

  /** A maximal block of consecutive rows with one ID, as observations. */
  datatype StormRun = StormRun(id: string, track: Track)

  /** The rows a run stands for. */
  function RunRows(run: StormRun): (rows: seq<Row>)
    ensures |rows| == |run.track|
    ensures forall k :: 0 <= k < |rows| ==> rows[k] == ToRow(run.id, run.track[k])
  {
    seq(|run.track|, k requires 0 <= k < |run.track| => ToRow(run.id, run.track[k]))
  }

  /** The rows a sequence of runs stands for, in order. */
  function Flatten(runs: seq<StormRun>): seq<Row>
  {
    if runs == [] then [] else Flatten(runs[..|runs| - 1]) + RunRows(runs[|runs| - 1])
  }

  /** Runs that are non-empty and maximal: no two neighbours share an ID. */
  predicate WellFormedRuns(runs: seq<StormRun>)
  {
    && (forall j :: 0 <= j < |runs| ==> runs[j].track != [])
    && (forall j :: 0 <= j < |runs| - 1 ==> runs[j].id != runs[j + 1].id)
  }

  /** The decomposition of the rows into runs. */
  function StormRuns(rows: seq<Row>): (runs: seq<StormRun>)
    ensures |runs| <= |rows|
    ensures rows != [] ==> runs != [] && runs[|runs| - 1].id == rows[|rows| - 1].id
    ensures WellFormedRuns(runs)
  {
    if rows == [] then []
    else
      var before := StormRuns(rows[..|rows| - 1]);
      var row := rows[|rows| - 1];
      if before != [] && before[|before| - 1].id == row.id then
        before[..|before| - 1] + [StormRun(row.id, before[|before| - 1].track + [ToObservation(row)])]
      else
        before + [StormRun(row.id, [ToObservation(row)])]
  }

  function AllButLast<T>(s: seq<T>): seq<T>
  {
    if s == [] then [] else s[..|s| - 1]
  }

  /** Storing each run under its ID, in order, as the loop's commits do. */
  function CommitRuns(d: TrackDict, runs: seq<StormRun>): (r: TrackDict)
    requires d.Valid()
    ensures r.Valid()
  {
    if runs == [] then d
    else Put(CommitRuns(d, runs[..|runs| - 1]), Storm(runs[|runs| - 1].id), runs[|runs| - 1].track)
  }

  /** The dictionary after the first commit: the sentinel and an empty list. */
  const SentinelOnly: TrackDict := TrackDict([Sentinel], map[Sentinel := []])

  // ---------------------------------------------------------------------
  // The runs are the right decomposition.
  // ---------------------------------------------------------------------

  lemma {:induction false} RunRowsSnoc(id: string, t: Track, o: Observation)
    ensures RunRows(StormRun(id, t + [o])) == RunRows(StormRun(id, t)) + [ToRow(id, o)]
  {
  }

  /** One more row either lengthens the last run or opens a new one. */
  lemma {:induction false} StormRunsSnoc(rows: seq<Row>, row: Row)
    ensures var before := StormRuns(rows);
      StormRuns(rows + [row]) ==
        if before != [] && before[|before| - 1].id == row.id then
          before[..|before| - 1] + [StormRun(row.id, before[|before| - 1].track + [ToObservation(row)])]
        else
          before + [StormRun(row.id, [ToObservation(row)])]
  {
    assert (rows + [row])[..|rows|] == rows;
  }

  /** Lengthening the last run by one observation adds that row at the end. */
  lemma {:induction false} FlattenGrow(runs: seq<StormRun>, row: Row)
    requires runs != [] && runs[|runs| - 1].id == row.id
    ensures var m := |runs|;
      Flatten(runs[..m - 1] + [StormRun(row.id, runs[m - 1].track + [ToObservation(row)])]) == Flatten(runs) + [row]
  {
    var m := |runs|;
    var last := runs[m - 1];
    var o := ToObservation(row);
    assert last == StormRun(row.id, last.track);
    assert runs[..m - 1] + [last] == runs;
    FlattenSnoc(runs[..m - 1], StormRun(row.id, last.track + [o]));
    FlattenSnoc(runs[..m - 1], last);
    RunRowsSnoc(row.id, last.track, o);
    assert ToRow(row.id, o) == row;
  }

  /** A new run of one observation adds that row at the end. */
  lemma {:induction false} FlattenFresh(runs: seq<StormRun>, row: Row)
    ensures Flatten(runs + [StormRun(row.id, [ToObservation(row)])]) == Flatten(runs) + [row]
  {
    var single := StormRun(row.id, [ToObservation(row)]);
    FlattenSnoc(runs, single);
    assert ToRow(row.id, ToObservation(row)) == row;
    assert RunRows(single) == [row];
  }

  /** Concatenating the runs gives back the rows. */
  lemma {:induction false} StormRunsFlatten(rows: seq<Row>)
    ensures Flatten(StormRuns(rows)) == rows
  {
    if rows != [] {
      var n := |rows|;
      var prefix, row := rows[..n - 1], rows[n - 1];
      assert rows == prefix + [row];
      StormRunsFlatten(prefix);
      StormRunsSnoc(prefix, row);
      var before := StormRuns(prefix);
      if before != [] && before[|before| - 1].id == row.id {
        FlattenGrow(before, row);
      } else {
        FlattenFresh(before, row);
      }
    }
  }

  lemma {:induction false} FlattenSnoc(runs: seq<StormRun>, run: StormRun)
    ensures Flatten(runs + [run]) == Flatten(runs) + RunRows(run)
  {
    assert (runs + [run])[..|runs|] == runs;
  }

  lemma {:induction false} WellFormedPrefix(runs: seq<StormRun>, m: nat)
    requires WellFormedRuns(runs) && m <= |runs|
    ensures WellFormedRuns(runs[..m])
  {
  }

  /** Any well-formed runs that concatenate to the rows are the rows' runs:
      the decomposition is unique. */
  lemma {:induction false} StormRunsUnique(rows: seq<Row>, runs: seq<StormRun>)
    requires WellFormedRuns(runs) && Flatten(runs) == rows
    ensures runs == StormRuns(rows)
    decreases |rows|
  {
    if runs != [] {
      var m := |runs|;
      var init, last := runs[..m - 1], runs[m - 1];
      assert runs == init + [last];
      WellFormedPrefix(runs, m - 1);
      var k := |last.track|;
      var o := last.track[k - 1];
      var shorter := StormRun(last.id, last.track[..k - 1]);
      assert last.track == shorter.track + [o];
      RunRowsSnoc(last.id, shorter.track, o);
      var n := |rows|;
      var prefix, row := rows[..n - 1], rows[n - 1];
      assert rows == Flatten(init) + RunRows(shorter) + [ToRow(last.id, o)];
      assert prefix == Flatten(init) + RunRows(shorter);
      assert row == ToRow(last.id, o);
      if k == 1 {
        assert prefix == Flatten(init);
        StormRunsUnique(prefix, init);
        assert last == StormRun(row.id, [ToObservation(row)]);
      } else {
        var runs' := init + [shorter];
        FlattenSnoc(init, shorter);
        assert runs'[..m - 1] == init;
        StormRunsUnique(prefix, runs');
        assert last == StormRun(row.id, runs'[m - 1].track + [ToObservation(row)]);
      }
    }
  }

  // ---------------------------------------------------------------------
  // What the loop computes.
  // ---------------------------------------------------------------------

  /** The loop state the runs predict: the last run in progress, and the
      sentinel entry followed by every other run in the dictionary. */
  function RunsState(rows: seq<Row>): ReadState
    requires rows != []
  {
    var runs := StormRuns(rows);
    ReadState(Storm(runs[|runs| - 1].id), runs[|runs| - 1].track, CommitRuns(SentinelOnly, runs[..|runs| - 1]))
  }

  /** A row continuing the last run keeps the prediction. */
  lemma {:induction false} SameRunState(prefix: seq<Row>, row: Row)
    requires prefix != [] && prefix[|prefix| - 1].id == row.id
    requires StateAfter(prefix) == RunsState(prefix)
    ensures StateAfter(prefix + [row]) == RunsState(prefix + [row])
  {
    StormRunsSnoc(prefix, row);
    SameStormExtends(prefix, row);
    var before := StormRuns(prefix);
    var m := |before|;
    var last := before[m - 1];
    var runs := before[..m - 1] + [StormRun(row.id, last.track + [ToObservation(row)])];
    assert StormRuns(prefix + [row]) == runs;
    assert runs[..m - 1] == before[..m - 1];
  }

  /** A row opening a new run keeps the prediction: the old last run is
      stored. */
  lemma {:induction false} NewRunState(prefix: seq<Row>, row: Row)
    requires prefix != [] && prefix[|prefix| - 1].id != row.id
    requires StateAfter(prefix) == RunsState(prefix)
    ensures StateAfter(prefix + [row]) == RunsState(prefix + [row])
  {
    StormRunsSnoc(prefix, row);
    NewStormCommits(prefix, row);
    var before := StormRuns(prefix);
    var m := |before|;
    var last := before[m - 1];
    var runs := before + [StormRun(row.id, [ToObservation(row)])];
    assert StormRuns(prefix + [row]) == runs;
    assert runs[..m] == before;
    assert CommitRuns(SentinelOnly, before) == Put(CommitRuns(SentinelOnly, before[..m - 1]), Storm(last.id), last.track);
  }

  /** After a non-empty input, the loop holds the last run in progress and
      its dictionary holds the sentinel entry followed by every other run:
      the last run is never stored. */
  lemma {:induction false} GroupingCommitsAllButLast(rows: seq<Row>)
    requires rows != []
    ensures StateAfter(rows) == RunsState(rows)
  {
    var n := |rows|;
    var prefix, row := rows[..n - 1], rows[n - 1];
    assert rows == prefix + [row];
    if prefix == [] {
      StormRunsSnoc(prefix, row);
      NewStormCommits(prefix, row);
      assert StormRuns(prefix) == [];
      assert Put(Empty, Sentinel, []) == SentinelOnly;
    } else {
      GroupingCommitsAllButLast(prefix);
      if prefix[|prefix| - 1].id == row.id {
        SameRunState(prefix, row);
      } else {
        NewRunState(prefix, row);
      }
    }
  }

  /** Some run carries the ID. */
  predicate HasRun(runs: seq<StormRun>, id: string)
  {
    exists j :: 0 <= j < |runs| && runs[j].id == id
  }

  lemma {:induction false} HasRunSnoc(runs: seq<StormRun>, id: string)
    requires runs != []
    ensures HasRun(runs, id) <==> HasRun(runs[..|runs| - 1], id) || runs[|runs| - 1].id == id
  {
    var n := |runs|;
    if HasRun(runs, id) && runs[n - 1].id != id {
      var j :| 0 <= j < n && runs[j].id == id;
      assert runs[..n - 1][j].id == id;
    }
    if HasRun(runs[..n - 1], id) {
      var j :| 0 <= j < n - 1 && runs[..n - 1][j].id == id;
      assert runs[j].id == id;
    }
  }

  /** A storm ID is a key after the commits exactly when it was one before or
      some run carries it. */
  lemma {:induction false} CommitRunsHas(d: TrackDict, runs: seq<StormRun>, id: string)
    requires d.Valid()
    ensures Storm(id) in CommitRuns(d, runs).tracks <==> Storm(id) in d.tracks || HasRun(runs, id)
  {
    if runs != [] {
      CommitRunsHas(d, runs[..|runs| - 1], id);
      HasRunSnoc(runs, id);
    }
  }

  /** The commits keep the existing keys, in order, at the front. */
  lemma {:induction false} CommitRunsKeepsOrder(d: TrackDict, runs: seq<StormRun>)
    requires d.Valid()
    ensures |d.keys| <= |CommitRuns(d, runs).keys| && CommitRuns(d, runs).keys[..|d.keys|] == d.keys
  {
    if runs != [] {
      var n := |runs|;
      CommitRunsKeepsOrder(d, runs[..n - 1]);
      var before := CommitRuns(d, runs[..n - 1]);
      if Storm(runs[n - 1].id) !in before.tracks {
        assert (before.keys + [Storm(runs[n - 1].id)])[..|d.keys|] == before.keys[..|d.keys|];
      }
    }
  }

  /** A key that no run carries keeps the value it had. */
  lemma {:induction false} CommitRunsOther(d: TrackDict, runs: seq<StormRun>, k: Key)
    requires d.Valid() && k in d.tracks
    requires forall j :: 0 <= j < |runs| ==> Storm(runs[j].id) != k
    ensures k in CommitRuns(d, runs).tracks && CommitRuns(d, runs).tracks[k] == d.tracks[k]
  {
    if runs != [] {
      CommitRunsOther(d, runs[..|runs| - 1], k);
    }
  }

  /** A run's ID maps to the track of the last run carrying that ID: a
      later run overwrites an earlier one. */
  lemma {:induction false} CommitRunsLastWins(d: TrackDict, runs: seq<StormRun>, j: nat)
    requires d.Valid() && j < |runs|
    requires forall j' :: j < j' < |runs| ==> runs[j'].id != runs[j].id
    ensures Storm(runs[j].id) in CommitRuns(d, runs).tracks
    ensures CommitRuns(d, runs).tracks[Storm(runs[j].id)] == runs[j].track
  {
    var n := |runs|;
    var init, last := runs[..n - 1], runs[n - 1];
    var before := CommitRuns(d, init);
    assert CommitRuns(d, runs) == Put(before, Storm(last.id), last.track);
    if j < n - 1 {
      assert init[j] == runs[j];
      forall j' | j < j' < |init|
        ensures init[j'].id != init[j].id
      {
        assert init[j'] == runs[j'];
      }
      CommitRunsLastWins(d, init, j);
      assert Storm(last.id) != Storm(runs[j].id);
    }
  }

  // ---------------------------------------------------------------------
  // The two defects, stated as they are.
  // ---------------------------------------------------------------------

  /** Every non-empty input yields the sentinel key first, mapped to the
      empty list: the first row never equals the sentinel. */
  lemma {:induction false} SentinelEntry(rows: seq<Row>)
    requires rows != []
    ensures |Grouped(rows).keys| > 0 && Grouped(rows).keys[0] == Sentinel
    ensures Sentinel in Grouped(rows).tracks && Grouped(rows).tracks[Sentinel] == []
  {
    GroupingCommitsAllButLast(rows);
    var runs := StormRuns(rows);
    CommitRunsKeepsOrder(SentinelOnly, runs[..|runs| - 1]);
    CommitRunsOther(SentinelOnly, runs[..|runs| - 1], Sentinel);
  }

  /** A storm ID is a key of the result exactly when some run other than the
      last carries it. */
  lemma {:induction false} CommittedIds(rows: seq<Row>, id: string)
    ensures Storm(id) in Grouped(rows).tracks <==> HasRun(AllButLast(StormRuns(rows)), id)
  {
    if rows != [] {
      GroupingCommitsAllButLast(rows);
      var runs := StormRuns(rows);
      CommitRunsHas(SentinelOnly, runs[..|runs| - 1], id);
    }
  }

  /** The last run is dropped: unless an earlier run had the same ID, its ID
      is not a key of the result. */
  lemma {:induction false} FinalTrackDropped(rows: seq<Row>)
    requires rows != []
    requires !HasRun(AllButLast(StormRuns(rows)), rows[|rows| - 1].id)
    ensures Storm(rows[|rows| - 1].id) !in Grouped(rows).tracks
  {
    CommittedIds(rows, rows[|rows| - 1].id);
  }

  /** Every run but the last is stored under its own ID, unless a later run
      (other than the last) with the same ID overwrote it. */
  lemma {:induction false} CommittedTrack(rows: seq<Row>, j: nat)
    requires j < |StormRuns(rows)| - 1
    requires forall j' :: j < j' < |StormRuns(rows)| - 1 ==> StormRuns(rows)[j'].id != StormRuns(rows)[j].id
    ensures Storm(StormRuns(rows)[j].id) in Grouped(rows).tracks
    ensures Grouped(rows).tracks[Storm(StormRuns(rows)[j].id)] == StormRuns(rows)[j].track
  {
    GroupingCommitsAllButLast(rows);
    var runs := StormRuns(rows);
    CommitRunsLastWins(SentinelOnly, runs[..|runs| - 1], j);
  }
}

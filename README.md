# Hurricane track extraction, modelled in Dafny

This project models the data-handling core of `HurricancePrediction` in
`hurricane_prediction.py`. It covers four parts:

- **Grouping loop.** `read` turns a flat, ordered stream of storm observations
  (one row per observation, tagged with a storm ID) into a dictionary from
  storm ID to that storm's observations.
- **`merge_rows`.** Turns every pair of consecutive observations of a storm
  into a ten-field training row.
- **`extract_lats_longs`.** Walks the same pairs and collects the first
  observation's signed latitude and longitude into two parallel lists.
- **Hemisphere converters.** `_lattoint`, `_longtoint`, `_convertlat` and
  `_convertlong` turn a cell such as `"28.0N"` into a number, either on a
  shifted, non-negative scale or on the signed scale.

Modules:

- `Options` holds the `Option` type.
- `Coordinates` holds the converters. A coordinate cell is a `CoordField`:
  the raw text, which the converters search for a hemisphere letter, and the
  magnitude that parsing all but its last character yields. A cell with no
  recognised letter gives `None`, as the Python functions return nothing.
- `Grouping` models `read`'s loop.
  - The dictionary is `TrackDict`: keys in insertion order plus a map. A
    repeated key keeps its place and takes the new value.
  - The loop variables are a `ReadState`. `Advance` is one iteration, and
    `StateAfter` folds it over the rows. `Read` is the loop itself, proved
    equal to the fold.
  - `StormRuns` splits the rows into maximal runs of equal IDs. It is
    characterised independently of the loop: concatenating the runs gives
    back the rows, each run is non-empty, neighbours differ, and the split
    is unique. The main theorem, `GroupingCommitsAllButLast`, says the
    dictionary holds the sentinel entry followed by every run but the last.
- `Extraction` models `merge_rows` and `extract_lats_longs` as nested loops.
  Each is proved equal to a function of `AllPairs`, the adjacent pairs of
  every track in key order. Lemmas then place every emitted entry.
- `Scenarios` works through small concrete inputs, including the first two
  observations of storm AL011851.

The grouping loop has two defects, and the model states them as they are:

- The first row always stores an empty list under the starting key `0`,
  modelled as `Sentinel`.
- The run in progress when the rows end is never stored.

Two consequences of the code are worth spelling out:

- A cell with no recognised hemisphere letter gives `None`, because the
  converters fall off their end (hurricane_prediction.py:67-89).
- `"95.4W"` on the shifted scale is 95.4 + 180 = 275.4
  (hurricane_prediction.py:75), which `OneStormExtracted` states.

## Model

| member | source | states |
|---|---|---|
| Coordinates.LatToInt | hurricane_prediction.py:67-71 | a value exactly when the cell contains N or S; a magnitude in [0, 90] lands in [0, 180]; for a positive magnitude, above 90 exactly when the cell is northern |
| Coordinates.LongToInt | hurricane_prediction.py:73-77 | a value exactly when the cell contains W or E; a magnitude in [0, 180] lands in [0, 360]; for a positive magnitude, above 180 exactly when the cell is western |
| Coordinates.ConvertLat | hurricane_prediction.py:79-83 | a value exactly when the cell contains N or S; the value is plus or minus the magnitude, within [-90, 90] for a magnitude in [0, 90], and positive exactly when northern |
| Coordinates.ConvertLong | hurricane_prediction.py:85-89 | a value exactly when the cell contains W or E; the value is plus or minus the magnitude, within [-180, 180] for a magnitude in [0, 180], and negative exactly when western |
| Coordinates.LatScalesAgree | hurricane_prediction.py:67-83 | the shifted latitude is the signed latitude plus 90 in both hemispheres, and both are absent together |
| Coordinates.LongScalesAgree | hurricane_prediction.py:73-89 | the shifted longitude is 180 minus the signed longitude in both hemispheres, and both are absent together |
| Coordinates.FirstLetterWins | hurricane_prediction.py:67-89 | N is tested before S and W before E, so a cell with both letters is read as N or W; the value of each converter in each branch |
| Grouping.ToObservation | hurricane_prediction.py:18-24 | the observation stored for a row (the dictionary literal at :18-24 and :28-34) keeps every column of the row except the ID |
| Grouping.ToRow | hurricane_prediction.py:18-24 | the inverse of `ToObservation`: rebuilding a row from its ID and its observation is exact |
| Grouping.Put | hurricane_prediction.py:26 | dictionary assignment: the key maps to the new track, every other key keeps its membership and value, an existing key keeps its place in the order, and a new key goes to the end |
| Grouping.Advance | hurricane_prediction.py:17-34 | after one iteration the current ID is the row's ID and the in-progress track ends with the row's observation |
| Grouping.SameStormExtends | hurricane_prediction.py:17-24 | a row with the current ID is appended to the in-progress track, and the dictionary is unchanged |
| Grouping.NewStormCommits | hurricane_prediction.py:25-34 | a row with another ID stores the in-progress track under the old ID, and the new track holds that row alone |
| Grouping.Read | hurricane_prediction.py:13-36 | the loop returns the fold of single iterations; that is the empty dictionary for no rows, and otherwise the sentinel entry followed by every run but the last |
| Grouping.StormRuns | hurricane_prediction.py:16-34 | the runs are no more than the rows, non-empty, neighbours have different IDs, and the last run carries the last row's ID |
| Grouping.StormRunsFlatten | hurricane_prediction.py:16-34 | concatenating the runs gives back the rows, in order |
| Grouping.StormRunsUnique | hurricane_prediction.py:16-34 | any non-empty, maximal runs that concatenate to the rows are exactly the computed runs |
| Grouping.GroupingCommitsAllButLast | hurricane_prediction.py:13-36 | after a non-empty input the loop holds the last run in progress, and its dictionary is the sentinel entry followed by every other run, stored in order |
| Grouping.CommitRuns | hurricane_prediction.py:26 | storing runs keeps the dictionary's keys distinct and in step with its contents |
| Grouping.CommitRunsHas | hurricane_prediction.py:26 | after storing runs, a storm ID is a key exactly when it was one before or some run carries it |
| Grouping.CommitRunsKeepsOrder | hurricane_prediction.py:26 | storing runs keeps the existing keys, in their order, at the front |
| Grouping.CommitRunsOther | hurricane_prediction.py:26 | a key that no run carries keeps its value |
| Grouping.CommitRunsLastWins | hurricane_prediction.py:26 | a storm ID maps to the track of the last run carrying it: a later run with the same ID overwrites an earlier one |
| Grouping.SentinelEntry | hurricane_prediction.py:14-15 | for every non-empty input, the first key is the sentinel and it maps to the empty list |
| Grouping.CommittedIds | hurricane_prediction.py:16-36 | a storm ID is a key of the result exactly when some run other than the last carries it |
| Grouping.FinalTrackDropped | hurricane_prediction.py:16-36 | the last run's ID is not a key of the result unless an earlier run had the same ID |
| Grouping.CommittedTrack | hurricane_prediction.py:25-27 | every run but the last is stored under its own ID, unless a later run other than the last has the same ID |
| Extraction.TrackPairs | hurricane_prediction.py:42-43 | a track of n observations has max(n - 1, 0) adjacent pairs, and pair k joins observation k to observation k + 1 |
| Extraction.PairsOf | hurricane_prediction.py:40-42 | the number of pairs over several keys is the sum of max(len - 1, 0) over their tracks |
| Extraction.MergeRows | hurricane_prediction.py:38-55 | the nested loops return one training row per adjacent pair, in key order and then index order, and as many rows as that sum |
| Extraction.ExtractLatsLongs | hurricane_prediction.py:57-65 | the nested loops return the signed coordinates of the first observation of each adjacent pair, in the same order; the two lists have equal length, the same sum |
| Extraction.PairAt | hurricane_prediction.py:40-43 | the pair for index k of the i-th key sits at the i-th key's offset plus k, and joins observations k and k + 1 |
| Extraction.PairOrigin | hurricane_prediction.py:40-43 | every emitted pair has such an origin: a key, an index k with a successor, and its position is that key's offset plus k |
| Extraction.ShortTrackAddsNothing | hurricane_prediction.py:42 | a track of one observation, or none, adds no pair |
| Extraction.TrainingRowAt | hurricane_prediction.py:44-54 | the ten-field list (`ToTrainingRow`) emitted for index k: fields 0-4 of the row for index k come from observation k and fields 5-9 from observation k + 1, with coordinates on the shifted scale |
| Extraction.PlotEntryAt | hurricane_prediction.py:61-64 | entry offset-plus-k of both plot lists comes from observation k, never k + 1, on the signed scale |
| Extraction.PlotMatchesTraining | hurricane_prediction.py:38-65 | plot entry j and training row j describe the same observation: shifted latitude is signed latitude plus 90, shifted longitude is 180 minus signed longitude |
| Scenarios.OneStormExtracted | hurricane_prediction.py:38-65 | storm AL011851's first two observations yield the training row [18510625, 0, 118.0, 274.8, 80, 18510625, 600, 118.2, 275.4, 90], latitudes [28.0] and longitudes [-94.8] |
| Scenarios.OneStormFileDropped | hurricane_prediction.py:13-36 | reading only those two rows keeps nothing but the sentinel entry, so no training row comes out |
| Scenarios.StormAInProgress | hurricane_prediction.py:16-34 | after three rows of one storm, the storm is still in progress and only the sentinel entry is stored |
| Scenarios.TwoStormsLastDropped | hurricane_prediction.py:13-36 | three rows of storm A then two of storm B give the sentinel entry and A's track; B is lost |

## Left out

- File opening and CSV reading (`open`, `DictReader`, hurricane_prediction.py:11-12) are I/O. The input is an already-read sequence of rows holding the six columns `read` uses.
- Parsing is not modelled. `int(...)` on Date, Time and Maximum Wind is taken as already done, so the error raised for a non-numeric cell is not modelled. `float(text[:-1])` on a coordinate cell is the cell's `magnitude`, taken as already parsed.
- Floating point: coordinates are exact reals, not IEEE doubles, so rounding in `+ 90`, `+ 180` and the subtractions is not modelled.
- The `if hurricane[row + 1]` guard (hurricane_prediction.py:43 and :62) is not modelled. An observation is a dictionary with five keys, so it is never empty and the guard always holds.
- Lists are values. After `hurricanes_dict[current_id] = new_hurricane`, the source rebinds `new_hurricane` to a fresh list rather than mutating the stored one, so no aliasing is lost.
- `draw_map` (hurricane_prediction.py:91-110) only draws with Basemap and matplotlib.
- `main` (hurricane_prediction.py:112-121) only wires the other functions together.
- The unused imports of `re` and `numpy` are not modelled.

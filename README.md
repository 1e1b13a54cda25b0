# pinpoint core, modelled in Dafny

pinpoint is a phone app. It estimates where a distant landmark is from three inputs: the user's GPS position, the compass heading the phone points along, and an estimated distance. It keeps a list of saved results. This project models the part of the app that holds its logic:

- **Angle utilities and smoothers** (`MathUtils`, file `math_utils.dfy`). This covers:
  - degree/radian conversion;
  - heading normalisation into [0, 360) using Python's floored `%`;
  - the 16-point compass label, using Python 3's half-to-even `round` followed by `% 16`;
  - the trailing-window moving average used for tilt;
  - the circular moving average used for the compass.

  Python floats are modelled as exact reals. `sin`, `cos` and `atan2` are passed in as a `Trig` value.
- **Slices** (`Slices`, file `slices.dfy`). This is Python's `s[-k:]` (all of `s` when `k == 0`) and the append-then-trim step both sensor services use.
- **Saved-results store** (`Storage`, file `location_repository.dfy`). It holds three things:
  - `SavedLocation` records. Their fields hold JSON values (`Value`), because Python checks no types.
  - Their `to_dict`/`from_dict` key/value form, as a `map<string, Value>`.
  - `LocationRepository`, a newest-first list that is written back to a JSON file after every change.

  The file is modelled as follows:
  - What opening and decoding it yields is a `StoredFile`: missing, unreadable, not JSON, or a decoded document.
  - Each write has an outcome (`WriteOutcome`): written, failed to open, or failed after truncating.
  - The clock is a `now` parameter.
- **Compass service** (`Compass`, file `compass_service.dfy`). It has `start`, `stop` and `_update_heading`. The history is bounded, the smoothed heading is the circular average of the last 8 readings, and the label is derived from that heading.
- **Tilt service** (`Sensors`, file `sensor_service.dfy`). It has `start`, `_start_mock` and `_read_sensors`. It keeps two lock-step histories, of pitch and of roll. Each is smoothed over its last 5 readings. `tilt_ok` is set when the smoothed pitch is within 30 degrees.
- **GPS service** (`Gps`, file `location_service.dfy`). It has:
  - guarded `start` and `stop`;
  - the desktop mock;
  - manually entered coordinates;
  - partial updates from the GPS callback.

The three services are classes whose methods update fields in place. The history-keeping methods are proved against the `Slices` and `MathUtils` functions, and those functions' properties are proved as lemmas.

### Sharp edges of the store

Two behaviours of `data/location_repository.py` are easy to miss, and the model keeps both:

- **Seven required keys.** `from_dict` reads seven keys with `d[...]`: the two source coordinates, the two destination coordinates, bearing, distance and accuracy (data/location_repository.py:52-58). A record missing any one of them raises `KeyError`, which `_load` catches, so the whole store loads empty. `RequiredKeys` has all seven. Only `timestamp` and `label` are read with `d.get`.
- **Errors that escape loading.** `_load` catches only `JSONDecodeError` and `KeyError` (data/location_repository.py:87). Other failures escape it:
  - A well-formed JSON list holding a record that is not an object raises `TypeError` (`NonObjectRecordEscapes`).
  - A well-formed document that is not a list raises `TypeError` too, unless it is an empty object or an empty string: a non-empty object, a non-empty string, a number, a boolean or `null` (`NonListDocumentEscapes`).
  - A file that exists but cannot be opened or decoded as text escapes as well.

  The model returns these as `Raised`.

## Model

| member | source | states |
|---|---|---|
| MathUtils.DegToRad | utils/math_utils.py:6-7 | 0, 90, 180 and 360 degrees are 0, PI/2, PI and 2 PI radians |
| MathUtils.RadToDeg | utils/math_utils.py:10-11 | 0, PI and 2 PI radians are 0, 180 and 360 degrees |
| MathUtils.RadToDegOfDegToRad | utils/math_utils.py:6-11 | converting degrees to radians and back gives the original angle |
| MathUtils.DegToRadOfRadToDeg | utils/math_utils.py:6-11 | converting radians to degrees and back gives the original angle |
| MathUtils.NormalizeHeading | utils/math_utils.py:14-16 | the result lies in [0, 360) for every real heading, negative ones included |
| MathUtils.NormalizeHeadingSameDirection | utils/math_utils.py:14-16 | the normalised heading differs from the input by a whole number of turns |
| MathUtils.NormalizeHeadingUnique | utils/math_utils.py:14-16 | any angle in [0, 360) a whole number of turns from the input is the normalised heading, so the heading modulo 360 is unique |
| MathUtils.NormalizeHeadingPeriodic | utils/math_utils.py:16 | adding any whole number of turns does not change the result |
| MathUtils.NormalizeHeadingIdentity | utils/math_utils.py:14-16 | a heading already in [0, 360) is returned unchanged |
| MathUtils.NormalizeHeadingExamples | tests/test_math_utils.py:35-44 | 0, 359.9, 360, 720, 450, -90 and -180 normalise to 0, 359.9, 0, 0, 90, 270 and 180 |
| MathUtils.RoundHalfEven | utils/math_utils.py:27 | `round` gives the nearest integer, and the even one at an exact half |
| MathUtils.RoundHalfEvenUnique | utils/math_utils.py:27 | no other integer meets that description |
| MathUtils.RoundHalfEvenShift | utils/math_utils.py:27 | rounding commutes with adding an even integer |
| MathUtils.EvenShift | utils/math_utils.py:27 | proof helper (integer parity, used by `RoundHalfEvenShift`): adding an even integer keeps the parity |
| MathUtils.CardinalIndex | utils/math_utils.py:27 | the table index is always within the 16-entry table |
| MathUtils.HeadingToCardinal | utils/math_utils.py:19-28 | the label is one of the 16 table entries |
| MathUtils.HeadingToCardinalIsLabel | utils/math_utils.py:19-28 | the label is always one of the 16 compass labels |
| MathUtils.HeadingToCardinalNearest | utils/math_utils.py:19-28 | the label is that of the sector centre nearest the heading; an exact half-sector tie goes to the even sector |
| MathUtils.ModSixteenShift | utils/math_utils.py:27 | proof helper (integer residues, used by `HeadingToCardinalPeriodic`): adding a multiple of 16 keeps the value modulo 16 |
| MathUtils.HeadingToCardinalPeriodic | utils/math_utils.py:19-28 | whole turns do not change the label |
| MathUtils.HeadingToCardinalOfNormalized | utils/math_utils.py:19-28 | normalising the heading first does not change the label |
| MathUtils.HeadingToCardinalCardinalPoints | tests/test_math_utils.py:46-50 | 0, 90, 180 and 270 are N, E, S and W |
| MathUtils.HeadingToCardinalIntercardinalPoints | tests/test_math_utils.py:51-54 | 45, 135, 225 and 315 are NE, SE, SW and NW |
| MathUtils.HeadingToCardinalWrapAndTies | utils/math_utils.py:27 | 360 wraps to N; the ties 11.25, 33.75 and 348.75 go to the even sectors N, NE and N |
| MathUtils.SumBetween | utils/math_utils.py:41 | the sum of readings within [lo, hi] lies within length times lo and length times hi |
| MathUtils.MeanBetween | utils/math_utils.py:41 | the mean of readings within [lo, hi] lies within [lo, hi] |
| MathUtils.SmoothValues | utils/math_utils.py:37-41 | an empty history smooths to 0, and a one-reading history to that reading |
| MathUtils.SmoothValuesIsWindowMean | utils/math_utils.py:39-41 | for a positive window, the result is the mean of the last min(window, length) readings |
| MathUtils.SmoothValuesBetween | utils/math_utils.py:39-41 | the result lies between any bounds of the readings in the averaged window |
| MathUtils.SmoothValuesConstant | tests/test_math_utils.py:65-67 | a constant history smooths to that constant |
| MathUtils.SmoothValuesWideWindow | utils/math_utils.py:39-41 | a window at least as long as the history averages the whole history |
| MathUtils.SmoothValuesIgnoresOlder | utils/math_utils.py:39-41 | readings older than the window do not affect the result |
| MathUtils.SmoothValuesExample | tests/test_math_utils.py:69-70 | [10, 20, 30] with window 3 smooths to 20 |
| MathUtils.Sines | utils/math_utils.py:55 | one sine per heading |
| MathUtils.Cosines | utils/math_utils.py:56 | one cosine per heading |
| MathUtils.SmoothHeading | utils/math_utils.py:44-61 | an empty history gives 0; every result lies in [0, 360), because it passes through `normalize_heading` |
| MathUtils.SmoothHeadingIgnoresOlder | utils/math_utils.py:52-53 | headings older than the window do not affect the result |
| MathUtils.SmoothHeadingWideWindow | utils/math_utils.py:52 | a window longer than the history is clamped to the history's length |
| MathUtils.TurnsKeepSinesAndCosines | utils/math_utils.py:55-56 | with a sine and cosine of period one turn, headings a whole number of turns apart have equal sines and cosines |
| MathUtils.SmoothHeadingTurnInvariant | utils/math_utils.py:44-61 | with such a sine and cosine, shifting any heading by whole turns does not change the circular average |
| Slices.Last | utils/math_utils.py:39-40 | `s[-k:]` holds the min(k, length) newest entries, in order, and all of `s` when k is 0 |
| Slices.Trimmed | services/compass_service.py:102-103 | trimming keeps a suffix: exactly `keep` newest entries when the list is over its limit, the list itself otherwise |
| Slices.TrimmedKeepsNewest | services/compass_service.py:99-103 | the newest entry survives the trim, and a list at most one over its limit ends within it |
| Slices.LastOfConcat | utils/math_utils.py:40 | the newest k entries ignore everything older than them |
| Storage.NewSavedLocation | data/location_repository.py:24-34 | every constructed record has a truthy timestamp; a truthy timestamp argument is kept and a falsy one becomes now; the other fields are stored as given |
| Storage.ToDict | data/location_repository.py:36-47 | the flat form has exactly the seven numeric keys plus timestamp and label |
| Storage.Get | data/location_repository.py:59-60 | `d.get(key, default)` is the stored value when the key is present and the default otherwise |
| Storage.FromDict | data/location_repository.py:49-61 | a record is read exactly when all seven required keys are present; then each field is its key's value, a truthy stored timestamp is kept while a missing or falsy one becomes now, and a missing label is "" |
| Storage.FromDictToDict | data/location_repository.py:36-61 | `from_dict(to_dict(r))` is `r` with a falsy timestamp replaced by now, and exactly `r` when its timestamp is truthy |
| Storage.FromDictDefaultsLabel | data/location_repository.py:60 | a dictionary without a label reads as a record with an empty label |
| Storage.FromDicts | data/location_repository.py:85 | when the comprehension completes, it yields one record per element |
| Storage.Iterated | data/location_repository.py:85 | a `KeyError` can only come from a list document; a completed list yields one record per element, and any other completed document (empty object or string) yields none |
| Storage.ReadStore | data/location_repository.py:80-91 | a missing or undecodable file loads as empty; exactly an unreadable file raises a read error; a `TypeError` needs a decoded document; and records load all or none |
| Storage.FromDictsInOrder | data/location_repository.py:85 | complete records become records one for one, in file order |
| Storage.LoadPreservesOrder | data/location_repository.py:80-91 | loading a file of complete records gives them in the file's order |
| Storage.FromDictsStopsAt | data/location_repository.py:85 | the comprehension stops at the first record that is not a complete object: `KeyError` for an object missing a key, `TypeError` for anything else |
| Storage.MissingKeyEmptiesStore | data/location_repository.py:85-89 | one record without a required key empties the whole store |
| Storage.NonObjectRecordEscapes | data/location_repository.py:85-87 | a list holding a record that is not an object, after complete records only, raises `TypeError`, which `_load` does not catch |
| Storage.NonListDocumentEscapes | data/location_repository.py:85-87 | a document that is not a list escapes with `TypeError`, except an empty object or empty string, which load as an empty store |
| Storage.NonListDocumentExamples | data/location_repository.py:85-87 | the documents `[1.0]`, `{"src_lat": 1.0}`, `"x"`, `3.0` and `null` all escape with `TypeError` |
| Storage.Serialize | data/location_repository.py:97 | the written document is an array with one entry per record |
| Storage.RestampedAll | data/location_repository.py:85 | restamping keeps the number of records |
| Storage.ReloadAfterSave | data/location_repository.py:80-99 | loading what `_save` wrote gives back the saved records in order, unchanged when their timestamps are truthy |
| Storage.AfterSave | data/location_repository.py:93-99 | a successful write stores the document; a failed open leaves the file as it was |
| Storage.InterruptedSaveLosesRecords | data/location_repository.py:93-99 | a write that fails after truncating the file loses every record at the next load |
| Storage.LocationRepository.constructor | data/location_repository.py:64-77 | a new store is bound to its file and empty until loaded |
| Storage.LocationRepository.Count | data/location_repository.py:117-119 | the count is the length of the in-memory list |
| Storage.LocationRepository.Load | data/location_repository.py:80-91 | `_locations` becomes what the file yields; an escaping exception leaves it unassigned |
| Storage.LocationRepository.Save | data/location_repository.py:93-99 | the file becomes the outcome of writing the serialised list, and the list is unchanged |
| Storage.LocationRepository.Add | data/location_repository.py:101-103 | the new record is element 0, the old records follow in order, the count grows by one, and the change stands whatever the write does |
| Storage.LocationRepository.GetAll | data/location_repository.py:105-106 | returns a copy equal to the current list, whose length is the count |
| Storage.LocationRepository.Delete | data/location_repository.py:108-111 | an index out of range changes nothing and writes nothing; one in range removes exactly that record, keeps the rest in order and saves |
| Storage.LocationRepository.Clear | data/location_repository.py:113-115 | the list becomes empty, the count is 0, and the empty list is saved |
| Storage.ReopenAfterAdd | tests/test_services.py:53-65 | a store that added a record with a successful write, opened again on the same file and loaded, holds exactly that record |
| Compass.AppendAndTrimValid | services/compass_service.py:98-103 | appending a normalised reading and trimming keeps the history within 50 entries, all in [0, 360), with the reading newest |
| Compass.TrimKeepsSmoothedHeading | services/compass_service.py:102-105 | trimming to 30 does not change the heading smoothed over 8 |
| Compass.UpdateFacts | services/compass_service.py:98-105 | one reading added to a valid history: the result is valid, ends with the reading, is the 30 newest readings after an overflow, and smooths as the untrimmed history |
| Compass.CompassService.constructor | services/compass_service.py:15-28 | heading 0, raw heading 0, label N, inactive, empty history |
| Compass.CompassService.Start | services/compass_service.py:30-37 | the service is active afterwards, whether it was before or started the real or the mock compass, and its history stays valid |
| Compass.CompassService.Stop | services/compass_service.py:39-51 | the history is empty (and so valid) and the service inactive |
| Compass.CompassService.UpdateHeading | services/compass_service.py:97-106 | the raw heading is the normalised reading in [0, 360), and is the newest history entry. The history stays within 50 valid entries and becomes the 30 newest on overflow. The heading is the circular average of the last 8 in [0, 360), and the label is that heading's label |
| Sensors.Level | services/sensor_service.py:93 | the absolute pitch is below 30 exactly when the pitch lies strictly between -30 and 30 |
| Sensors.TrimKeepsSmoothedValue | services/sensor_service.py:87-92 | trimming to 20 does not change the value smoothed over 5 |
| Sensors.AppendReading | services/sensor_service.py:83-92 | the history gets the new reading as its newest entry, with the trimmed length; the returned value is its smoothed value, equal to that of the untrimmed history |
| Sensors.SensorService.constructor | services/sensor_service.py:17-30 | pitch and roll 0, tilt ok, no accelerometer, empty histories |
| Sensors.SensorService.StartMock | services/sensor_service.py:97-102 | pitch 0, roll 0 and tilt ok, which agrees with the level test; the histories stay valid |
| Sensors.SensorService.Start | services/sensor_service.py:32-70 | on a phone whose sensor import succeeds the accelerometer is taken, and kept even when enabling it fails; a failed import leaves it as it was. The mock state is set on a desktop or after any failure, and otherwise nothing else changes |
| Sensors.SensorService.ReadSensors | services/sensor_service.py:72-95 | with no accelerometer or no usable reading nothing changes. Otherwise both histories get their reading in lock step and stay of equal length within 30, trimmed to the 20 newest once over 30. Pitch and roll are their histories' smoothed values, and tilt ok holds exactly when the absolute pitch is below 30 |
| Gps.LocationService.constructor | services/location_service.py:14-22 | position and accuracy 0, inactive, not the mock, no pending update event |
| Gps.LocationService.StartMockGps | services/location_service.py:74-81 | position and accuracy 0, active and the mock |
| Gps.LocationService.Start | services/location_service.py:24-31 | when already active nothing changes; a phone whose GPS starts becomes active with its position kept; otherwise the mock starts |
| Gps.LocationService.Stop | services/location_service.py:33-48 | when inactive nothing changes; otherwise the service ends inactive with no pending update event |
| Gps.LocationService.SetManualLocation | services/location_service.py:66-72 | exactly the given coordinates, accuracy 1, active, and the mock flag untouched |
| Gps.GetOr | services/location_service.py:84-86 | `kwargs.get(key, current)` is the supplied value when the key is present and the current one otherwise |
| Gps.LocationService.OnLocation | services/location_service.py:83-86 | each of latitude, longitude and accuracy takes the supplied value and keeps its old one when the key is absent |

## Left out

- The trigonometric body of `smooth_heading` is abstracted: sin, cos and atan2 are parameters. Facts that need the real functions are not proved. One example is that headings 358, 359, 0, 1 and 2 average to near 0.
- The raw-sensor arithmetic is not modelled. This covers the heading from the magnetic field in `_read_compass` and pitch and roll from acceleration in `_read_sensors`. Their results are inputs: `UpdateHeading`'s reading and `Reading.Angles`.
- `_read_compass` is not modelled, and neither is the `needs_calibration` flag it sets. It is only that sensor arithmetic followed by `_update_heading`.
- Floating point is not modelled: values are exact reals and `math.pi` is its decimal value. One consequence is that Python's float `%` can return 360.0 for a tiny negative heading, which the exact model cannot.
- Negative smoothing windows are out: windows are `nat`. The app always passes 5 or 8.
- File system and JSON details are not modelled:
  - the path resolution through the Kivy `App` in `LocationRepository.__init__`;
  - `os.makedirs`;
  - JSON number formatting;
  - the `indent=2` layout.

  The file is modelled only by what reading it yields (`StoredFile`) and by the outcome of each write. The load that `__init__` runs is `Load`, called separately after the constructor.
- `Storage.LocationRepository.Load` uses one `now` for every record of a load. Python reads the clock once per record, so records without a timestamp could differ by microseconds.
- Logging (`Logger`, `_on_status`), plyer hardware calls, Kivy `Clock` scheduling and property binding are not modelled.
- The random mock ticks of the compass and tilt services are left out, and so is the gyroscope, which nothing reads.
- `SensorService.stop` is left out. It only disables the device handles and cancels the poll event, none of which the model holds.
- The compass mock's internal angle is not modelled.
- `Sensors.SensorService.ReadSensors` trims the roll history on its own length. The code trims it whenever the pitch history is over its limit. The two histories always have equal length, so the two conditions agree.
- `Compass.CompassService.Start`: after an early return the active flag is the only field it could have changed, and it stays true. So "nothing changes" is its single `ensures isActive`.
- domain/coordinate_calculator.py is not part of this model. It is the spherical projection and accuracy estimate: floating-point trigonometry whose callers must pass a positive distance.

/**
 * The tilt service: keeps bounded, equally long histories of pitch and roll,
 * publishes their moving averages, and flags the phone as level enough when the
 * smoothed pitch is within the tilt threshold.
 *
 * The pitch and roll computed from the accelerometer are inputs.
 */
module Sensors {
  import opened Slices
  import opened MathUtils

  /** `TILT_THRESHOLD`: the largest smoothed pitch, in degrees, still counted as level. */
  const TiltThreshold: real := 30.0
  /** The window `smooth_values` is called with. */
  const SmoothingWindow: nat := 5
  /** Both histories are trimmed once the pitch history is longer than this ... */
  const HistoryLimit: nat := 30
  /** ... down to this many most recent readings. */
  const HistoryKeep: nat := 20

  /** One poll of the accelerometer. `NoReading` covers no acceleration, one whose
      first component is `None`, and a reading whose conversion raised (the
      exception is swallowed before anything is stored). */
  datatype Reading = NoReading | Angles(pitch: real, roll: real)

  /** How `_start_real_sensors` fares on a phone: `from plyer import ...` raises
      before the accelerometer is taken; `accelerometer.enable()` (or scheduling
      the poll after it) raises; or everything succeeds. The optional gyroscope's
      failure is caught on its own and changes nothing modelled here. */
  datatype AccelStart = ImportFails | EnableFails | Enabled

  function Abs(x: real): real
  {
    if x < 0.0 then -x else x
  }

  /** `abs(pitch) < TILT_THRESHOLD` */
  predicate Level(pitch: real)
    ensures Level(pitch) <==> -TiltThreshold < pitch < TiltThreshold
  {
    Abs(pitch) < TiltThreshold
  }

  /** Trimming does not change the smoothed value, because the trim keeps more
      readings than the smoothing window. */
  lemma TrimKeepsSmoothedValue(appended: seq<real>)
    ensures SmoothValues(Trimmed(appended, HistoryLimit, HistoryKeep), SmoothingWindow)
         == SmoothValues(appended, SmoothingWindow)
  {
    if |appended| > HistoryLimit {
      var cut := |appended| - HistoryKeep;
      assert appended == appended[..cut] + appended[cut..];
      SmoothValuesIgnoresOlder(appended[..cut], appended[cut..], SmoothingWindow);
    }
  }

  /** Appends one angle to a history within its limit, trims it as
      `_read_sensors` does, and returns the trimmed history with its moving
      average. */
  method AppendReading(history: seq<real>, angle: real) returns (updated: seq<real>, smoothed: real)
    requires |history| <= HistoryLimit
    ensures updated == Trimmed(history + [angle], HistoryLimit, HistoryKeep)
    ensures |updated| == if |history| + 1 > HistoryLimit then HistoryKeep else |history| + 1
    ensures updated[|updated| - 1] == angle
    ensures smoothed == SmoothValues(updated, SmoothingWindow)
    ensures smoothed == SmoothValues(history + [angle], SmoothingWindow)
  {
    updated := history + [angle];
    if |updated| > HistoryLimit {
      updated := updated[|updated| - HistoryKeep..];
    }
    TrimmedKeepsNewest(history + [angle], HistoryLimit, HistoryKeep);
    TrimKeepsSmoothedValue(history + [angle]);
    smoothed := SmoothValues(updated, SmoothingWindow);
  }

  class SensorService {
    var pitch: real
    var roll: real
    var tiltOk: bool
    var hasAccel: bool            // `self._accel` is set
    var pitchHistory: seq<real>   // `_pitch_hist`, oldest first
    var rollHistory: seq<real>    // `_roll_hist`, oldest first

    /** The two histories grow and shrink together and stay within their limit. */
    ghost predicate Valid()
      reads this
    {
      |pitchHistory| == |rollHistory| <= HistoryLimit
    }

    constructor ()
      ensures Valid()
      ensures pitch == 0.0 && roll == 0.0 && tiltOk && !hasAccel
      ensures pitchHistory == [] && rollHistory == []
    {
      pitch, roll, tiltOk := 0.0, 0.0, true;
      hasAccel := false;
      pitchHistory, rollHistory := [], [];
    }

    /** `_start_mock`: a level phone. */
    method StartMock()
      requires Valid()
      modifies this`pitch, this`roll, this`tiltOk
      ensures Valid()
      ensures pitch == 0.0 && roll == 0.0 && tiltOk
      ensures tiltOk == Level(pitch)
    {
      pitch, roll, tiltOk := 0.0, 0.0, true;
    }

    /** `start`, which has no guard: on a phone the sensor module is imported and
        the accelerometer taken and enabled; if any of that raises (or on a
        desktop) the mock starts. The accelerometer stays set when enabling it or
        anything after it failed, and stays as it was when the import failed. */
    method Start(onMobile: bool, outcome: AccelStart)
      requires Valid()
      modifies this`pitch, this`roll, this`tiltOk, this`hasAccel
      ensures Valid()
      ensures hasAccel == (old(hasAccel) || (onMobile && !outcome.ImportFails?))
      ensures onMobile && outcome.Enabled? ==>
        pitch == old(pitch) && roll == old(roll) && tiltOk == old(tiltOk)
      ensures !(onMobile && outcome.Enabled?) ==> pitch == 0.0 && roll == 0.0 && tiltOk
    {
      if onMobile {
        if outcome.ImportFails? {
          StartMock();
          return;
        }
        hasAccel := true;
        if outcome.EnableFails? {
          StartMock();
        }
      } else {
        StartMock();
      }
    }

    /** `_read_sensors`: without an accelerometer or a usable reading nothing
        changes. Otherwise pitch and roll are appended together, both histories
        are cut to their 20 most recent entries once the pitch history exceeds 30,
        and pitch, roll and the tilt flag are recomputed from the histories. */
    method ReadSensors(reading: Reading)
      requires Valid()
      modifies this`pitch, this`roll, this`tiltOk, this`pitchHistory, this`rollHistory
      ensures Valid()
      ensures !hasAccel || reading.NoReading? ==>
        && pitch == old(pitch) && roll == old(roll) && tiltOk == old(tiltOk)
        && pitchHistory == old(pitchHistory) && rollHistory == old(rollHistory)
      ensures hasAccel && reading.Angles? ==>
        && pitchHistory == Trimmed(old(pitchHistory) + [reading.pitch], HistoryLimit, HistoryKeep)
        && rollHistory == Trimmed(old(rollHistory) + [reading.roll], HistoryLimit, HistoryKeep)
        && pitch == SmoothValues(pitchHistory, SmoothingWindow)
        && roll == SmoothValues(rollHistory, SmoothingWindow)
        && tiltOk == Level(pitch)
    {
      if !hasAccel || reading.NoReading? {
        return;
      }
      var pitches, smoothedPitch := AppendReading(pitchHistory, reading.pitch);
      var rolls, smoothedRoll := AppendReading(rollHistory, reading.roll);
      pitchHistory, rollHistory := pitches, rolls;
      pitch, roll, tiltOk := smoothedPitch, smoothedRoll, Abs(smoothedPitch) < TiltThreshold;
    }
  }
}

/**
 * The compass service: keeps a bounded history of normalised raw headings and
 * publishes their circular average and its cardinal label.
 *
 * The raw heading computed from the magnetometer is an input, and the
 * trigonometric functions the average uses are given at construction.
 */
module Compass {
  import opened Slices
  import opened MathUtils

  /** `SMOOTHING_WINDOW`: the number of recent readings averaged. */
  const SmoothingWindow: nat := 8
  /** The history is trimmed once it is longer than this ... */
  const HistoryLimit: nat := 50
  /** ... down to this many most recent readings. */
  const HistoryKeep: nat := 30

  /** A history the service can hold: within its limit, normalised headings only. */
  ghost predicate ValidHistory(history: seq<real>)
  {
    && |history| <= HistoryLimit
    && (forall i :: 0 <= i < |history| ==> 0.0 <= history[i] < 360.0)
  }

  /** Appending a normalised reading and trimming keeps a history valid and
      keeps the reading as the newest entry. */
  lemma AppendAndTrimValid(history: seq<real>, reading: real)
    requires ValidHistory(history) && 0.0 <= reading < 360.0
    ensures var trimmed := Trimmed(history + [reading], HistoryLimit, HistoryKeep);
      && ValidHistory(trimmed)
      && trimmed != [] && trimmed[|trimmed| - 1] == reading
  {
    var appended := history + [reading];
    var trimmed := Trimmed(appended, HistoryLimit, HistoryKeep);
    TrimmedKeepsNewest(appended, HistoryLimit, HistoryKeep);
    forall i | 0 <= i < |trimmed|
      ensures 0.0 <= trimmed[i] < 360.0
    {
      assert trimmed[i] == appended[|appended| - |trimmed| + i];
    }
  }

  /** Trimming does not change the smoothed heading, because the trim keeps more
      readings than the smoothing window. */
  lemma TrimKeepsSmoothedHeading(trig: Trig, appended: seq<real>)
    ensures SmoothHeading(trig, Trimmed(appended, HistoryLimit, HistoryKeep), SmoothingWindow)
         == SmoothHeading(trig, appended, SmoothingWindow)
  {
    if |appended| > HistoryLimit {
      var cut := |appended| - HistoryKeep;
      assert appended == appended[..cut] + appended[cut..];
      SmoothHeadingIgnoresOlder(trig, appended[..cut], appended[cut..], SmoothingWindow);
    }
  }

  /** Everything one reading does to a valid history: the normalised reading is
      kept as the newest entry of a valid trimmed history, and the smoothed
      heading of the trimmed history is the one of the untrimmed history. */
  lemma UpdateFacts(trig: Trig, history: seq<real>, normalized: real, updated: seq<real>)
    requires ValidHistory(history) && 0.0 <= normalized < 360.0
    requires updated == Trimmed(history + [normalized], HistoryLimit, HistoryKeep)
    ensures ValidHistory(updated)
    ensures updated != [] && updated[|updated| - 1] == normalized
    ensures |history| + 1 > HistoryLimit ==>
      updated == (history + [normalized])[|history| + 1 - HistoryKeep..]
    ensures SmoothHeading(trig, updated, SmoothingWindow)
         == SmoothHeading(trig, history + [normalized], SmoothingWindow)
  {
    AppendAndTrimValid(history, normalized);
    TrimKeepsSmoothedHeading(trig, history + [normalized]);
  }

  class CompassService {
    const trig: Trig
    var heading: real       // smoothed heading
    var rawHeading: real    // last normalised reading
    var cardinal: string
    var isActive: bool
    var history: seq<real>  // `_heading_history`, oldest first

    /** The history never exceeds its limit and holds only normalised headings. */
    ghost predicate Valid()
      reads this
    {
      ValidHistory(history)
    }

    constructor (trig: Trig)
      ensures Valid() && this.trig == trig
      ensures heading == 0.0 && rawHeading == 0.0 && cardinal == "N"
      ensures !isActive && history == []
    {
      this.trig := trig;
      heading, rawHeading, cardinal := 0.0, 0.0, "N";
      isActive, history := false, [];
    }

    /** `start`: does nothing when already active. Otherwise the real compass or,
        when it fails or on a desktop, the simulated one is started, and either
        way the service becomes active; the history and the published headings
        are not touched. */
    method Start()
      requires Valid()
      modifies this`isActive
      ensures Valid()
      ensures isActive
    {
      if isActive {
        return;
      }
      isActive := true;
    }

    /** `stop`: forgets the history and deactivates. */
    method Stop()
      modifies this`history, this`isActive
      ensures Valid()
      ensures history == [] && !isActive
    {
      history := [];
      isActive := false;
    }

    /** `_update_heading`: normalises the reading, appends it to the history,
        trims the history, and recomputes the smoothed heading and its label. */
    method UpdateHeading(raw: real)
      requires Valid()
      modifies this`rawHeading, this`history, this`heading, this`cardinal
      ensures Valid()
      ensures rawHeading == NormalizeHeading(raw) && 0.0 <= rawHeading < 360.0
      ensures history == Trimmed(old(history) + [rawHeading], HistoryLimit, HistoryKeep)
      ensures history != [] && history[|history| - 1] == rawHeading
      ensures |old(history)| + 1 > HistoryLimit ==>
        history == (old(history) + [rawHeading])[|old(history)| + 1 - HistoryKeep..]
      ensures heading == SmoothHeading(trig, history, SmoothingWindow)
      ensures heading == SmoothHeading(trig, old(history) + [rawHeading], SmoothingWindow)
      ensures 0.0 <= heading < 360.0
      ensures cardinal == HeadingToCardinal(heading)
    {
      var normalized := NormalizeHeading(raw);
      var updated := history + [normalized];
      if |updated| > HistoryLimit {
        updated := updated[|updated| - HistoryKeep..];
      }
      assert updated == Trimmed(history + [normalized], HistoryLimit, HistoryKeep);
      UpdateFacts(trig, history, normalized, updated);
      var smoothed := SmoothHeading(trig, updated, SmoothingWindow);
      rawHeading, history := normalized, updated;
      heading, cardinal := smoothed, HeadingToCardinal(smoothed);
    }
  }
}

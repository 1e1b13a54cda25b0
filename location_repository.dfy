/**
 * The saved-results store: `SavedLocation` records, their flat key/value form,
 * and `LocationRepository`, a newest-first list mirrored to a JSON file.
 *
 * The file is modelled by what reading it yields (`StoredFile`), and every write
 * by its outcome (`WriteOutcome`), which the environment decides. The current
 * time, read by `datetime.now()`, is a parameter.
 */
module Storage {
  import opened Wrappers

  /** A JSON value as Python's `json` module reads and writes it. Numbers are exact. */
  datatype Value =
    | Null
    | Bool(b: bool)
    | Num(x: real)
    | Str(s: string)
    | Array(items: seq<Value>)
    | Object(members: map<string, Value>)

  /** Python's truth value of a decoded JSON value. */
  predicate Truthy(v: Value)
  {
    match v
    case Null => false
    case Bool(b) => b
    case Num(x) => x != 0.0
    case Str(s) => s != ""
    case Array(items) => items != []
    case Object(m) => m != map[]
  }

  /** What `datetime.now().isoformat()` returns: an ISO 8601 date and time, never empty. */
  type Timestamp = s: string | s != "" witness "1970-01-01T00:00:00"

  /** One saved result. Python checks no types, so each attribute holds whatever
      JSON value it was given; the app itself passes numbers and strings. */
  datatype SavedLocation = SavedLocation(
    srcLat: Value, srcLon: Value,
    destLat: Value, destLon: Value,
    bearing: Value, distance: Value, accuracy: Value,
    timestamp: Value, note: Value)

  /** `SavedLocation.__init__`: a falsy timestamp, including the default `None`,
      is replaced by the current time. */
  function NewSavedLocation(
    srcLat: Value, srcLon: Value, destLat: Value, destLon: Value,
    bearing: Value, distance: Value, accuracy: Value,
    timestamp: Value, note: Value, now: Timestamp): (loc: SavedLocation)
    ensures Truthy(loc.timestamp)
    ensures Truthy(timestamp) ==> loc.timestamp == timestamp
    ensures !Truthy(timestamp) ==> loc.timestamp == Str(now)
    ensures loc.(timestamp := timestamp)
         == SavedLocation(srcLat, srcLon, destLat, destLon, bearing, distance, accuracy, timestamp, note)
  {
    SavedLocation(srcLat, srcLon, destLat, destLon, bearing, distance, accuracy,
                  if Truthy(timestamp) then timestamp else Str(now), note)
  }

  /** The seven keys `from_dict` reads with `d[...]`, so a record without any of
      them raises `KeyError`. */
  const RequiredKeys: set<string> :=
    {"src_lat", "src_lon", "dest_lat", "dest_lon", "bearing", "distance", "accuracy"}

  /** `to_dict`: the flat form written to the file. */
  function ToDict(loc: SavedLocation): (d: map<string, Value>)
    ensures d.Keys == RequiredKeys + {"timestamp", "label"}
  {
    map[
      "src_lat" := loc.srcLat, "src_lon" := loc.srcLon,
      "dest_lat" := loc.destLat, "dest_lon" := loc.destLon,
      "bearing" := loc.bearing, "distance" := loc.distance, "accuracy" := loc.accuracy,
      "timestamp" := loc.timestamp, "label" := loc.note]
  }

  /** `d.get(key, default)` */
  function Get(d: map<string, Value>, key: string, default: Value): (v: Value)
    ensures key in d ==> v == d[key]
    ensures key !in d ==> v == default
  {
    if key in d then d[key] else default
  }

  /** `from_dict`: `None` stands for the `KeyError` raised when a required key is
      missing. A missing timestamp reads as `""`, which the constructor then
      replaces by `now`, as it does any other falsy stored timestamp (`null`, `0`,
      `false`, an empty list or object); a missing label reads as `""`. */
  function FromDict(d: map<string, Value>, now: Timestamp): (r: Option<SavedLocation>)
    ensures r.Some? <==> RequiredKeys <= d.Keys
    ensures r.Some? ==>
      && r.value.srcLat == d["src_lat"] && r.value.srcLon == d["src_lon"]
      && r.value.destLat == d["dest_lat"] && r.value.destLon == d["dest_lon"]
      && r.value.bearing == d["bearing"] && r.value.distance == d["distance"]
      && r.value.accuracy == d["accuracy"]
      && r.value.timestamp ==
           (if "timestamp" in d && Truthy(d["timestamp"]) then d["timestamp"] else Str(now))
      && r.value.note == (if "label" in d then d["label"] else Str(""))
  {
    if RequiredKeys <= d.Keys then
      Some(NewSavedLocation(
        d["src_lat"], d["src_lon"], d["dest_lat"], d["dest_lon"],
        d["bearing"], d["distance"], d["accuracy"],
        Get(d, "timestamp", Str("")), Get(d, "label", Str("")), now))
    else
      None
  }

  /** What reading back a record gives: the record itself, except that a falsy
      timestamp has become `now`. */
  function Restamped(loc: SavedLocation, now: Timestamp): SavedLocation
  {
    if Truthy(loc.timestamp) then loc else loc.(timestamp := Str(now))
  }

  /** `from_dict(to_dict(r))` gives back `r` field for field, up to a falsy
      timestamp, which becomes `now`. */
  lemma FromDictToDict(loc: SavedLocation, now: Timestamp)
    ensures FromDict(ToDict(loc), now) == Some(Restamped(loc, now))
    ensures Truthy(loc.timestamp) ==> FromDict(ToDict(loc), now) == Some(loc)
  {
  }

  /** A dictionary without a label reads as a record with an empty label. */
  lemma FromDictDefaultsLabel(d: map<string, Value>, now: Timestamp)
    requires RequiredKeys <= d.Keys && "label" !in d
    ensures FromDict(d, now).Some? && FromDict(d, now).value.note == Str("")
  {
  }

  // ---------------------------------------------------------------------------
  // The backing file

  /** What opening and decoding the backing file yields. */
  datatype StoredFile =
    | Missing         // `os.path.exists` is false
    | Unreadable      // `open` or text decoding raises (an `OSError` or a `UnicodeDecodeError`)
    | Malformed       // the text is not JSON: `json.JSONDecodeError`
    | Json(document: Value)

  /** The exceptions `_load` does not catch, which escape to its caller. */
  datatype Uncaught = TypeError | ReadError

  /** The result of `_load`: the new in-memory list, or an escaping exception, in
      which case `_locations` is not assigned. */
  datatype LoadOutcome = Loaded(records: seq<SavedLocation>) | Raised(error: Uncaught)

  /** How `[SavedLocation.from_dict(d) for d in data]` ends: the first element
      that fails decides. */
  datatype Comprehension = Built(records: seq<SavedLocation>) | KeyErrorRaised | TypeErrorRaised

  /** The comprehension over the elements of a JSON array. An element that is not
      an object cannot be indexed by a string key: `TypeError`. */
  function FromDicts(items: seq<Value>, now: Timestamp): (c: Comprehension)
    ensures c.Built? ==> |c.records| == |items|
  {
    if items == [] then Built([])
    else
      match items[0]
      case Object(d) =>
        (match FromDict(d, now)
         case None => KeyErrorRaised
         case Some(loc) =>
           match FromDicts(items[1..], now)
           case Built(rest) => Built([loc] + rest)
           case failed => failed)
      case _ => TypeErrorRaised
  }

  /** The comprehension over any decoded document. Iterating an object yields its
      keys and iterating a string yields one-character strings, which cannot be
      indexed by a key; numbers, booleans and null are not iterable. */
  function Iterated(document: Value, now: Timestamp): (c: Comprehension)
    ensures c.KeyErrorRaised? ==> document.Array?
    ensures c.Built? && document.Array? ==> |c.records| == |document.items|
    ensures c.Built? && !document.Array? ==> c.records == []
  {
    match document
    case Array(items) => FromDicts(items, now)
    case Object(m) => if m == map[] then Built([]) else TypeErrorRaised
    case Str(s) => if s == "" then Built([]) else TypeErrorRaised
    case _ => TypeErrorRaised
  }

  /** `_load`: a missing file, undecodable JSON, or a record without a required
      key give an empty store; only `JSONDecodeError` and `KeyError` are caught.
      Records load all or none: the list comprehension either finishes or raises. */
  function ReadStore(file: StoredFile, now: Timestamp): (o: LoadOutcome)
    ensures file.Missing? || file.Malformed? ==> o == Loaded([])
    ensures file.Unreadable? <==> o == Raised(ReadError)
    ensures o == Raised(TypeError) ==> file.Json?
    ensures o.Loaded? ==>
      o.records == [] || (file.Json? && file.document.Array? && |o.records| == |file.document.items|)
  {
    match file
    case Missing => Loaded([])
    case Unreadable => Raised(ReadError)
    case Malformed => Loaded([])
    case Json(document) =>
      match Iterated(document, now)
      case Built(records) => Loaded(records)
      case KeyErrorRaised => Loaded([])
      case TypeErrorRaised => Raised(TypeError)
  }

  /** Every element is an object with all the required keys. */
  predicate AllComplete(items: seq<Value>)
  {
    forall i :: 0 <= i < |items| ==> items[i].Object? && RequiredKeys <= items[i].members.Keys
  }

  /** Complete records load one for one, in the order of the file. */
  lemma {:induction false} FromDictsInOrder(items: seq<Value>, now: Timestamp)
    requires AllComplete(items)
    ensures FromDicts(items, now).Built?
    ensures var rs := FromDicts(items, now).records;
      |rs| == |items| &&
      forall i :: 0 <= i < |items| ==> Some(rs[i]) == FromDict(items[i].members, now)
  {
    if items != [] {
      assert AllComplete(items[1..]) by {
        forall i | 0 <= i < |items[1..]|
          ensures items[1..][i].Object? && RequiredKeys <= items[1..][i].members.Keys
        {
          assert items[1..][i] == items[i + 1];
        }
      }
      FromDictsInOrder(items[1..], now);
      var rs := FromDicts(items, now).records;
      forall i | 0 <= i < |items|
        ensures Some(rs[i]) == FromDict(items[i].members, now)
      {
        if i > 0 {
          assert rs[i] == FromDicts(items[1..], now).records[i - 1];
          assert items[i] == items[1..][i - 1];
        }
      }
    }
  }

  /** Loading a file of complete records preserves their order. */
  lemma LoadPreservesOrder(items: seq<Value>, now: Timestamp)
    requires AllComplete(items)
    ensures ReadStore(Json(Array(items)), now).Loaded?
    ensures var rs := ReadStore(Json(Array(items)), now).records;
      |rs| == |items| &&
      forall i :: 0 <= i < |items| ==> Some(rs[i]) == FromDict(items[i].members, now)
  {
    FromDictsInOrder(items, now);
  }

  /** One record without a required key empties the whole store, provided every
      record before it is a complete object (a `TypeError` there would escape
      first). */
  lemma MissingKeyEmptiesStore(items: seq<Value>, bad: nat, now: Timestamp)
    requires bad < |items| && AllComplete(items[..bad])
    requires items[bad].Object? && !(RequiredKeys <= items[bad].members.Keys)
    ensures ReadStore(Json(Array(items)), now) == Loaded([])
  {
    FromDictsStopsAt(items, bad, now);
  }

  /** A well-formed JSON list holding a record that is not an object is not
      caught as corruption, provided every record before it is complete: the
      `TypeError` escapes `_load`. */
  lemma NonObjectRecordEscapes(items: seq<Value>, bad: nat, now: Timestamp)
    requires bad < |items| && AllComplete(items[..bad])
    requires !items[bad].Object?
    ensures ReadStore(Json(Array(items)), now) == Raised(TypeError)
  {
    FromDictsStopsAt(items, bad, now);
  }

  /** The comprehension stops at the first record that is not a complete object:
      with `KeyError` when it is an object, with `TypeError` otherwise. */
  lemma {:induction false} FromDictsStopsAt(items: seq<Value>, bad: nat, now: Timestamp)
    requires bad < |items| && AllComplete(items[..bad])
    requires !(items[bad].Object? && RequiredKeys <= items[bad].members.Keys)
    ensures FromDicts(items, now) == if items[bad].Object? then KeyErrorRaised else TypeErrorRaised
  {
    if bad > 0 {
      assert items[..bad][0] == items[0];
      assert items[1..][..bad - 1] == items[..bad][1..];
      assert AllComplete(items[1..][..bad - 1]) by {
        var rest := items[1..][..bad - 1];
        forall i | 0 <= i < |rest|
          ensures rest[i].Object? && RequiredKeys <= rest[i].members.Keys
        {
          assert rest[i] == items[..bad][i + 1];
        }
      }
      FromDictsStopsAt(items[1..], bad - 1, now);
    }
  }

  /** A well-formed JSON document that is not a list escapes `_load` with a
      `TypeError`, unless it is an empty object or an empty string, which
      iterate to nothing and give an empty store. */
  lemma NonListDocumentEscapes(document: Value, now: Timestamp)
    requires !document.Array?
    ensures document == Object(map[]) || document == Str("") ==>
      ReadStore(Json(document), now) == Loaded([])
    ensures document != Object(map[]) && document != Str("") ==>
      ReadStore(Json(document), now) == Raised(TypeError)
  {
  }

  /** Concrete documents: a list of numbers, a non-empty object, a non-empty
      string, a number, and `null` all escape. */
  lemma NonListDocumentExamples(now: Timestamp)
    ensures ReadStore(Json(Array([Num(1.0)])), now) == Raised(TypeError)
    ensures ReadStore(Json(Object(map["src_lat" := Num(1.0)])), now) == Raised(TypeError)
    ensures ReadStore(Json(Str("x")), now) == Raised(TypeError)
    ensures ReadStore(Json(Num(3.0)), now) == Raised(TypeError)
    ensures ReadStore(Json(Null), now) == Raised(TypeError)
  {
    assert "src_lat" in map["src_lat" := Num(1.0)];
  }

  /** The document `_save` writes: `[loc.to_dict() for loc in self._locations]`. */
  function Serialize(locations: seq<SavedLocation>): (document: Value)
    ensures document.Array? && |document.items| == |locations|
  {
    Array(seq(|locations|, i requires 0 <= i < |locations| => Object(ToDict(locations[i]))))
  }

  /** `Restamped` on every record. */
  function RestampedAll(locations: seq<SavedLocation>, now: Timestamp): (rs: seq<SavedLocation>)
    ensures |rs| == |locations|
  {
    seq(|locations|, i requires 0 <= i < |locations| => Restamped(locations[i], now))
  }

  /** Reading back what `_save` wrote gives the saved records in the same order;
      records whose timestamp is truthy, as every constructed record's is, come
      back unchanged. */
  lemma ReloadAfterSave(locations: seq<SavedLocation>, now: Timestamp)
    ensures ReadStore(Json(Serialize(locations)), now) == Loaded(RestampedAll(locations, now))
    ensures (forall i :: 0 <= i < |locations| ==> Truthy(locations[i].timestamp)) ==>
      ReadStore(Json(Serialize(locations)), now) == Loaded(locations)
  {
    var items := Serialize(locations).items;
    forall i | 0 <= i < |items|
      ensures items[i].Object? && RequiredKeys <= items[i].members.Keys
    {
    }
    LoadPreservesOrder(items, now);
    var rs := ReadStore(Json(Serialize(locations)), now).records;
    forall i | 0 <= i < |locations|
      ensures rs[i] == RestampedAll(locations, now)[i]
    {
      FromDictToDict(locations[i], now);
    }
  }

  /** The outcome of one `_save`. */
  datatype WriteOutcome =
    | Written       // the whole document was written
    | OpenFailed    // `os.makedirs` or `open` raised `OSError`: the file is untouched
    | WriteFailed   // `open(..., "w")` truncated the file, then writing raised `OSError`

  /** The backing file after `_save` of `document` with the given outcome. A write
      that fails part-way leaves truncated text, which no longer parses. */
  function AfterSave(file: StoredFile, document: Value, outcome: WriteOutcome): (f: StoredFile)
    ensures outcome == Written ==> f == Json(document)
    ensures outcome == OpenFailed ==> f == file
  {
    match outcome
    case Written => Json(document)
    case OpenFailed => file
    case WriteFailed => Malformed
  }

  /** A write interrupted after `open` truncated the file loses every saved
      record at the next load. */
  lemma InterruptedSaveLosesRecords(file: StoredFile, document: Value, now: Timestamp)
    ensures ReadStore(AfterSave(file, document, WriteFailed), now) == Loaded([])
  {
  }

  /** The store: an in-memory list, newest first, flushed to the backing file after
      every change. */
  class LocationRepository {
    var file: StoredFile
    var locations: seq<SavedLocation>

    /** `__init__` up to `self._locations = []`, with the storage path already
        resolved to `file`; `__init__` then runs `Load`. */
    constructor (file: StoredFile)
      ensures this.file == file && locations == []
    {
      this.file := file;
      locations := [];
    }

    /** `count` */
    function Count(): (n: nat)
      reads this
      ensures n == |locations|
    {
      |locations|
    }

    /** `_load`: replaces the list by the file's records; an exception it does not
        catch escapes and leaves the list as it was. */
    method Load(now: Timestamp) returns (raised: Option<Uncaught>)
      modifies this`locations
      ensures ReadStore(file, now).Loaded? ==>
        raised == None && locations == ReadStore(file, now).records
      ensures ReadStore(file, now).Raised? ==>
        raised == Some(ReadStore(file, now).error) && locations == old(locations)
    {
      match ReadStore(file, now)
      case Loaded(records) =>
        locations := records;
        raised := None;
      case Raised(error) =>
        raised := Some(error);
    }

    /** `_save`: writes the whole list; an `OSError` is logged and swallowed. */
    method Save(outcome: WriteOutcome)
      modifies this`file
      ensures file == AfterSave(old(file), Serialize(locations), outcome)
    {
      file := AfterSave(file, Serialize(locations), outcome);
    }

    /** `add`: the new record becomes element 0 and the older ones follow in
        order; the change stands whether or not the write succeeds. */
    method Add(location: SavedLocation, outcome: WriteOutcome)
      modifies this
      ensures locations == [location] + old(locations)
      ensures Count() == old(Count()) + 1
      ensures file == AfterSave(old(file), Serialize(locations), outcome)
    {
      locations := [location] + locations;
      Save(outcome);
    }

    /** `get_all`: a snapshot of the list; being a value, later changes to the
        store do not affect it. */
    method GetAll() returns (all: seq<SavedLocation>)
      ensures all == locations && |all| == Count()
    {
      all := locations;
    }

    /** `delete`: an index out of range changes nothing and writes nothing; one in
        range removes exactly that record and keeps the others in order. */
    method Delete(index: int, outcome: WriteOutcome)
      modifies this
      ensures !(0 <= index < old(Count())) ==> locations == old(locations) && file == old(file)
      ensures 0 <= index < old(Count()) ==>
        && locations == old(locations)[..index] + old(locations)[index + 1..]
        && Count() == old(Count()) - 1
        && file == AfterSave(old(file), Serialize(locations), outcome)
    {
      if 0 <= index < |locations| {
        locations := locations[..index] + locations[index + 1..];
        Save(outcome);
      }
    }

    /** `clear`: empties the list, then writes it. */
    method Clear(outcome: WriteOutcome)
      modifies this
      ensures locations == [] && Count() == 0
      ensures file == AfterSave(old(file), Serialize([]), outcome)
    {
      locations := [];
      Save(outcome);
    }
  }

  /** The scenario of the persistence test: a store that added a record with a
      successful write, opened again on the same file, holds that record. */
  method ReopenAfterAdd(location: SavedLocation, now: Timestamp) returns (reopened: LocationRepository)
    requires Truthy(location.timestamp)
    ensures reopened.locations == [location]
  {
    var repo := new LocationRepository(Missing);
    repo.Add(location, Written);
    assert repo.file == Json(Serialize([location]));
    reopened := new LocationRepository(repo.file);
    ReloadAfterSave([location], now);
    assert ReadStore(reopened.file, now) == Loaded([location]);
    var raised := reopened.Load(now);
  }
}

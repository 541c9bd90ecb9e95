/**
 * The record mapper: `Session.from_record` turns a raw schedule record into a
 * `Session` whose fields are all optional.
 */
module Records {
  import opened Wrappers
  import opened Json
  import opened Errors

  /** An instant, in seconds on one timezone-aware time line. */
  type Timestamp = int

  /** A `timedelta`, in seconds. */
  type Seconds = int

  /** `datetime.fromisoformat` on a string: an instant, or `None` where it raises ValueError. */
  type IsoParser = string -> Option<Timestamp>

  /**
   * One schedule entry. `start`, `end` and `duration` are decoded; every other
   * field holds the raw value of the record's key.
   */
  datatype Session = Session(
    room: Option<Value>,
    rooms: Option<Value>,
    start: Option<Timestamp>,
    end: Option<Timestamp>,
    duration: Option<Seconds>,
    kind: Option<Value>,
    section: Option<Value>,
    conf_key: Option<Value>,
    list_render: Option<Value>,
    license: Option<Value>,
    tags: Option<Value>,
    released: Option<Value>,
    contact: Option<Value>,
    name: Option<Value>,
    description: Option<Value>,
    authors: Option<Value>,
    speakers: Option<Value>,
    conf_url: Option<Value>,
    cancelled: Option<Value>)

  /** `Session()`: every field at its default, `None`. */
  const EmptySession: Session :=
    Session(None, None, None, None, None, None, None, None, None, None,
            None, None, None, None, None, None, None, None, None)

  /** The keys `from_record` looks up; every other key of a record is ignored. */
  const FieldNames: set<string> :=
    {"room", "rooms", "start", "end", "duration", "kind", "section", "conf_key",
     "list_render", "license", "tags", "released", "contact", "name",
     "description", "authors", "speakers", "conf_url", "cancelled"}

  /** Python's `int(v)` for the numbers a duration may hold (`bool` is an `int`). */
  function AsInt(v: Value): int {
    match v
    case Int(i) => i
    case Bool(b) => if b then 1 else 0
    case _ => 0
  }

  /** `datetime.fromisoformat(t) if (t := record.get(key)) else None`. */
  function TimeField(record: Record, key: string, parse: IsoParser): Result<Option<Timestamp>, Error> {
    match Get(record, key)
    case None => Ok(None)
    case Some(t) =>
      if !Truthy(t) then Ok(None)
      else if !t.Str? then Err(WrongType(key))
      else match parse(t.s)
        case None => Err(MalformedTimestamp(key, t.s))
        case Some(instant) => Ok(Some(instant))
  }

  /** `timedelta.min` and `timedelta.max`, in whole minutes: -999999999 days and 999999999 days 23:59. */
  const MinDurationMinutes: int := -1439999998560
  const MaxDurationMinutes: int := 1439999999999

  /** `timedelta(minutes=dt) if (dt := record.get("duration")) else None`. */
  function DurationField(record: Record): Result<Option<Seconds>, Error> {
    match Get(record, "duration")
    case None => Ok(None)
    case Some(dt) =>
      if !Truthy(dt) then Ok(None)
      else if !(dt.Int? || dt.Bool?) then Err(WrongType("duration"))
      else if !(MinDurationMinutes <= AsInt(dt) <= MaxDurationMinutes) then Err(Overflow("duration"))
      else Ok(Some(60 * AsInt(dt)))
  }

  /** The time field `key` holds a truthy value that `fromisoformat` rejects. */
  ghost predicate BadTime(record: Record, key: string, parse: IsoParser) {
    key in record && Truthy(record[key]) && (!record[key].Str? || parse(record[key].s).None?)
  }

  /** `duration` holds a truthy value that `timedelta` rejects: not a number, or out of range. */
  ghost predicate BadDuration(record: Record) {
    "duration" in record && Truthy(record["duration"])
    && (!(record["duration"].Int? || record["duration"].Bool?)
        || !(MinDurationMinutes <= AsInt(record["duration"]) <= MaxDurationMinutes))
  }

  /** The exception `from_record` raises for a bad time field `key`. */
  function TimeError(record: Record, key: string): Error
    requires key in record
  {
    if record[key].Str? then MalformedTimestamp(key, record[key].s) else WrongType(key)
  }

  /** The exception `from_record` raises for a bad `duration`. */
  function DurationError(record: Record): Error
    requires "duration" in record
  {
    if record["duration"].Int? || record["duration"].Bool? then Overflow("duration") else WrongType("duration")
  }

  /** `Session.from_record(record)`. */
  function FromRecord(record: Record, parse: IsoParser): (r: Result<Session, Error>)
    // the mapping fails exactly when a time field cannot be decoded ...
    ensures r.Err? <==> BadTime(record, "start", parse) || BadTime(record, "end", parse) || BadDuration(record)
    // ... and then reports the first such field, in argument order
    ensures BadTime(record, "start", parse) ==> r == Err(TimeError(record, "start"))
    ensures !BadTime(record, "start", parse) && BadTime(record, "end", parse) ==> r == Err(TimeError(record, "end"))
    ensures !BadTime(record, "start", parse) && !BadTime(record, "end", parse) && BadDuration(record) ==>
              r == Err(DurationError(record))
    // time fields: None when absent or falsy, else the parsed instant
    ensures r.Ok? ==> (r.value.start.None? <==> "start" !in record || !Truthy(record["start"]))
    ensures r.Ok? && r.value.start.Some? ==> r.value.start == parse(record["start"].s)
    ensures r.Ok? ==> (r.value.end.None? <==> "end" !in record || !Truthy(record["end"]))
    ensures r.Ok? && r.value.end.Some? ==> r.value.end == parse(record["end"].s)
    // duration: None when absent or zero, else that many minutes
    ensures r.Ok? ==> (r.value.duration.None? <==> "duration" !in record || !Truthy(record["duration"]))
    ensures r.Ok? && r.value.duration.Some? ==>
              && MinDurationMinutes <= AsInt(record["duration"]) <= MaxDurationMinutes
              && r.value.duration.value == 60 * AsInt(record["duration"])
    // every other field is `record.get(key)`
    ensures r.Ok? ==>
      && r.value.room == Get(record, "room")
      && r.value.rooms == Get(record, "rooms")
      && r.value.kind == Get(record, "kind")
      && r.value.section == Get(record, "section")
      && r.value.conf_key == Get(record, "conf_key")
      && r.value.list_render == Get(record, "list_render")
      && r.value.license == Get(record, "license")
      && r.value.tags == Get(record, "tags")
      && r.value.released == Get(record, "released")
      && r.value.contact == Get(record, "contact")
      && r.value.name == Get(record, "name")
      && r.value.description == Get(record, "description")
      && r.value.authors == Get(record, "authors")
      && r.value.speakers == Get(record, "speakers")
      && r.value.conf_url == Get(record, "conf_url")
      && r.value.cancelled == Get(record, "cancelled")
  {
    var start :- TimeField(record, "start", parse);
    var end :- TimeField(record, "end", parse);
    var duration :- DurationField(record);
    Ok(Session(
      room := Get(record, "room"),
      rooms := Get(record, "rooms"),
      start := start,
      end := end,
      duration := duration,
      kind := Get(record, "kind"),
      section := Get(record, "section"),
      conf_key := Get(record, "conf_key"),
      list_render := Get(record, "list_render"),
      license := Get(record, "license"),
      tags := Get(record, "tags"),
      released := Get(record, "released"),
      contact := Get(record, "contact"),
      name := Get(record, "name"),
      description := Get(record, "description"),
      authors := Get(record, "authors"),
      speakers := Get(record, "speakers"),
      conf_url := Get(record, "conf_url"),
      cancelled := Get(record, "cancelled")))
  }

  /** Two records that agree on the looked-up keys map alike. */
  ghost predicate AgreeOnFields(a: Record, b: Record) {
    forall key :: key in FieldNames ==> (key in a <==> key in b) && (key in a ==> a[key] == b[key])
  }

  /** `from_record` looks only at its own keys: extra keys never change the outcome. */
  lemma FromRecordReadsOnlyFields(a: Record, b: Record, parse: IsoParser)
    requires AgreeOnFields(a, b)
    ensures FromRecord(a, parse) == FromRecord(b, parse)
  {
  }

  /** Adding a key that `from_record` does not look up keeps the mapped session. */
  lemma FromRecordIgnoresExtraKey(record: Record, key: string, v: Value, parse: IsoParser)
    requires key !in FieldNames
    ensures FromRecord(record[key := v], parse) == FromRecord(record, parse)
  {
  }

  /** A record without keys maps to the all-`None` session. */
  lemma EmptyRecordMapsToDefaults(parse: IsoParser)
    ensures FromRecord(map[], parse) == Ok(EmptySession)
  {
  }

  /** A duration beyond 999999999 days raises OverflowError rather than decoding. */
  lemma HugeDurationOverflows(parse: IsoParser)
    ensures FromRecord(map["duration" := Int(10000000000000)], parse) == Err(Overflow("duration"))
  {
  }

  /** A start text and a 45-minute duration decode to that instant and 2700 seconds. */
  lemma StartAndDurationDecode(parse: IsoParser, text: string, instant: Timestamp)
    requires text != "" && parse(text) == Some(instant)
    ensures FromRecord(map["start" := Str(text), "duration" := Int(45)], parse)
         == Ok(EmptySession.(start := Some(instant), duration := Some(2700)))
  {
  }
}

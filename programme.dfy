/**
 * The schedule fetcher: `get_programme`, memoised by a single-slot cache that
 * `cache_clear` empties, and `get_sessions`, which maps the cached payload.
 */
module Programme {
  import opened Wrappers
  import opened Errors
  import opened Json
  import opened Records

  /** What one GET of the schedule URL yields; `body` is `None` when it is not valid JSON. */
  datatype Response = TransportError | Reply(status: int, body: Option<Value>)

  /**
   * The network: the response to the n-th underlying request (counting from 0).
   * A mock transport answers every request alike; a real server need not.
   */
  type Transport = nat -> Response

  /** httpx's `is_success`: only 2xx passes `raise_for_status`. */
  predicate IsSuccess(status: int) {
    200 <= status < 300
  }

  /** The uncached body of `get_programme`: the GET, `raise_for_status`, then `json()`. */
  function Fetch(response: Response): (r: Result<Value, Error>)
    ensures r.Ok? <==> response.Reply? && IsSuccess(response.status) && response.body.Some?
    ensures r.Ok? ==> r.value == response.body.value
    ensures response.TransportError? ==> r == Err(TransportFailure)
    ensures response.Reply? && !IsSuccess(response.status) ==> r == Err(HttpStatus(response.status))
    ensures response.Reply? && IsSuccess(response.status) && response.body.None? ==> r == Err(InvalidJson)
  {
    match response
    case TransportError => Err(TransportFailure)
    case Reply(status, body) =>
      if !IsSuccess(status) then Err(HttpStatus(status))
      else if body.None? then Err(InvalidJson)
      else Ok(body.value)
  }

  /** Maps one schedule item: `.get` exists only on a dict. */
  function MapItem(item: Value, parse: IsoParser): Result<Session, Error> {
    if item.Object? then FromRecord(item.fields, parse) else Err(NotARecord)
  }

  /** `Session.from_record(record) for record in items`, consumed in order. */
  function MapRecords(items: seq<Value>, parse: IsoParser): (r: Result<seq<Session>, Error>)
    // one session per item, in order, each the mapping of that item
    ensures r.Ok? ==> |r.value| == |items|
    ensures r.Ok? ==> forall i :: 0 <= i < |items| ==> MapItem(items[i], parse) == Ok(r.value[i])
    // failure is the error of the first item that cannot be mapped
    ensures r.Err? <==> exists i :: 0 <= i < |items| && MapItem(items[i], parse).Err?
    ensures r.Err? ==> exists i :: 0 <= i < |items| && MapItem(items[i], parse) == Err(r.error)
                                   && forall j :: 0 <= j < i ==> MapItem(items[j], parse).Ok?
  {
    if items == [] then Ok([])
    else
      var first :- MapItem(items[0], parse);
      var rest :- MapRecords(items[1..], parse);
      Ok([first] + rest)
  }

  /** `Session.from_record(record) for record in programme["schedule"]`, eagerly. */
  function SessionsOf(programme: Value, parse: IsoParser): (r: Result<seq<Session>, Error>)
    ensures !programme.Object? ==> r == Err(NotSubscriptable)
    ensures programme.Object? && "schedule" !in programme.fields ==> r == Err(MissingKey("schedule"))
    ensures programme.Object? && "schedule" in programme.fields && programme.fields["schedule"].List? ==>
              r == MapRecords(programme.fields["schedule"].items, parse)
    // a str or dict schedule iterates to strs, which have no `.get`; an empty one to nothing
    ensures programme.Object? && "schedule" in programme.fields && programme.fields["schedule"] in {Str(""), Object(map[])} ==>
              r == Ok([])
    ensures programme.Object? && "schedule" in programme.fields
            && (programme.fields["schedule"].Str? || programme.fields["schedule"].Object?)
            && programme.fields["schedule"] !in {Str(""), Object(map[])} ==>
              r == Err(NotARecord)
    // numbers, booleans and null cannot be iterated
    ensures programme.Object? && "schedule" in programme.fields
            && (programme.fields["schedule"].Int? || programme.fields["schedule"].Bool? || programme.fields["schedule"].Null?) ==>
              r == Err(NotIterable)
  {
    if !programme.Object? then Err(NotSubscriptable)
    else if "schedule" !in programme.fields then Err(MissingKey("schedule"))
    else
      match programme.fields["schedule"]
      case List(items) => MapRecords(items, parse)
      // iterating a str yields one-character strs, and a dict its str keys: none has `.get`
      case Str(s) => if s == "" then Ok([]) else Err(NotARecord)
      case Object(fields) => if fields == map[] then Ok([]) else Err(NotARecord)
      case _ => Err(NotIterable)
  }

  /** A payload without a `schedule` key fails; it never reads as an empty schedule. */
  lemma MissingScheduleFails(programme: map<string, Value>, parse: IsoParser)
    requires "schedule" !in programme
    ensures SessionsOf(Object(programme), parse).Err?
  {
  }

  /** A schedule list maps to one session per record, in order, when every record maps. */
  lemma ScheduleMapsEachRecord(records: seq<Record>, parse: IsoParser)
    requires forall i :: 0 <= i < |records| ==> FromRecord(records[i], parse).Ok?
    ensures SessionsOf(Object(map["schedule" := List(seq(|records|, i requires 0 <= i < |records| => Object(records[i])))]), parse).Ok?
    ensures var r := SessionsOf(Object(map["schedule" := List(seq(|records|, i requires 0 <= i < |records| => Object(records[i])))]), parse);
            |r.value| == |records| && forall i :: 0 <= i < |records| ==> Ok(r.value[i]) == FromRecord(records[i], parse)
  {
  }

  /**
   * The memoised `get_programme`: `slot` is the `lru_cache` entry and `requests`
   * counts the underlying GET requests made so far.
   */
  class ProgrammeCache {
    var slot: Option<Value>
    var requests: nat

    /** A cached payload was fetched by some earlier request. */
    ghost predicate Valid()
      reads this
    {
      slot.Some? ==> requests > 0
    }

    constructor ()
      ensures Valid() && slot == None && requests == 0
    {
      slot := None;
      requests := 0;
    }

    /** `get_programme()`: the cached payload, or one new request whose success fills the slot. */
    method Get(transport: Transport) returns (r: Result<Value, Error>)
      requires Valid()
      modifies this
      ensures Valid()
      ensures old(slot).Some? ==> r == Ok(old(slot).value) && slot == old(slot) && requests == old(requests)
      ensures old(slot).None? ==>
                && requests == old(requests) + 1
                && r == Fetch(transport(old(requests)))
                && slot == (if r.Ok? then Some(r.value) else None)
      // every payload served, cached or not, came from a request
      ensures r.Ok? ==> requests > 0
    {
      if slot.Some? {
        r := Ok(slot.value);
      } else {
        r := Fetch(transport(requests));
        requests := requests + 1;
        if r.Ok? {
          slot := Some(r.value);
        }
      }
    }

    /** `get_programme.cache_clear()`. */
    method Clear()
      requires Valid()
      modifies this
      ensures Valid() && slot == None && requests == old(requests)
    {
      slot := None;
    }

    /** `get_sessions()`: `get_programme()`, then the payload's schedule mapped record by record. */
    method Sessions(transport: Transport, parse: IsoParser) returns (r: Result<seq<Session>, Error>)
      requires Valid()
      modifies this
      ensures Valid()
      ensures old(slot).Some? ==> r == SessionsOf(old(slot).value, parse) && slot == old(slot) && requests == old(requests)
      ensures old(slot).None? ==>
                && requests == old(requests) + 1
                && slot == Fetch(transport(old(requests))).ToOption()
                && r == match Fetch(transport(old(requests)))
                        case Ok(programme) => SessionsOf(programme, parse)
                        case Err(e) => Err(e)
    {
      var programme := Get(transport);
      match programme
      case Ok(p) => r := SessionsOf(p, parse);
      case Err(e) => r := Err(e);
    }
  }

  /** Two calls with no clear in between: a filled slot serves both and at most one request is made. */
  method GetTwice(cache: ProgrammeCache, transport: Transport) returns (first: Result<Value, Error>, second: Result<Value, Error>)
    requires cache.Valid()
    modifies cache
    ensures cache.Valid()
    ensures first == (if old(cache.slot).Some? then Ok(old(cache.slot).value) else Fetch(transport(old(cache.requests))))
    ensures cache.slot == second.ToOption()
    ensures first.Ok? ==> second == first
    ensures first.Ok? ==> cache.requests == old(cache.requests) + (if old(cache.slot).None? then 1 else 0)
    ensures first.Err? ==> cache.requests == old(cache.requests) + 2 && second == Fetch(transport(old(cache.requests) + 1))
  {
    first := cache.Get(transport);
    second := cache.Get(transport);
  }

  /** After `cache_clear` the next call makes a new request, whatever was cached. */
  method ClearThenGet(cache: ProgrammeCache, transport: Transport) returns (r: Result<Value, Error>)
    requires cache.Valid()
    modifies cache
    ensures cache.Valid()
    ensures cache.requests == old(cache.requests) + 1
    ensures r == Fetch(transport(old(cache.requests)))
    ensures cache.slot == r.ToOption()
  {
    cache.Clear();
    r := cache.Get(transport);
  }

  /**
   * The caching scenario: a fresh cache over a mock transport that always answers
   * 200 with `{"some data": 123}`. Two calls make one request, and the payload
   * has no schedule, so `get_sessions` then fails.
   */
  method CachesResponse(parse: IsoParser) returns (requests: nat, sessions: Result<seq<Session>, Error>)
    ensures requests == 1
    ensures sessions == Err(MissingKey("schedule"))
  {
    var payload := Object(map["some data" := Int(123)]);
    var transport: Transport := _ => Reply(200, Some(payload));
    var cache := new ProgrammeCache();
    var first := cache.Get(transport);
    var second := cache.Get(transport);
    requests := cache.requests;
    sessions := cache.Sessions(transport, parse);
  }
}

# PyCon schedule helpers, modelled in Dafny

This project models the schedule module of a packaging tutorial
(`packaging_tutorial/validated_pycon.py`). The module fetches a conference
programme once and memoises it, turns each raw schedule record into a `Session`,
and answers two queries: the sessions still to come, and the sessions that start
next.

The model has three parts.

- **Record mapper** (`records.dfy`, module `Records`). `FromRecord` is
  `Session.from_record`. Every field of a `Session` is optional.
  - `start` and `end` are decoded by an abstract ISO-8601 parser, passed in as a
    partial function.
  - `duration` is turned from minutes into seconds.
  - Every other field is `record.get(key)`.
  - Python truthiness decides absence: an empty string, `0`, `False`, `[]`, `{}`
    and `null` all count as absent for the three time fields.
  - JSON values are the datatype `Json.Value`. `Json.Get` is `dict.get`, which gives
    `None` both for a missing key and for `null`.
- **Query layer** (`queries.dfy`, module `Queries`, over the generic filters and
  minimum of `sequences.dfy`). `FutureSessions` and `ImmediateSessions` are
  `get_future_sessions` and `get_immediate_sessions`, with `now` always passed in.
  `ImmediateSessions` returns `Err(EmptyMin)` where Python's `min` raises.
- **Fetcher** (`programme.dfy`, module `Programme`). `ProgrammeCache` is the
  `lru_cache` around `get_programme`.
  - `slot` holds the cached payload and `requests` counts the underlying GET requests.
  - `Get` is `get_programme()`, `Clear` is `cache_clear()`, and `Sessions` is `get_sessions()`.
  - The network is an oracle `Transport`, which gives the response to the n-th request.
  - `Fetch` is the uncached body: the GET, `raise_for_status`, then `json()`.

Exceptions are the constructors of `Errors.Error`; every operation that can
raise returns a `Wrappers.Result`.

How the code behaves in a few corner cases, as modelled:
- A datetime is always truthy, so `session.start and session.start > now` only
  tests that `start` is present and later than `now`. A timestamp of `0` is not
  treated as absent.
- `bool` is a subclass of `int`, so `duration: true` is one minute.
- `timedelta` holds at most 999999999 days either way, so a duration outside
  -1439999998560 to 1439999999999 minutes raises OverflowError (`Overflow`).
- `fromisoformat` on a truthy non-string raises TypeError (`WrongType`). So does
  `timedelta` on a truthy duration that is not a number.
- `from_record` evaluates its keyword arguments in order, so the reported error
  is the first bad field among `start`, `end` and `duration`.
- httpx's `raise_for_status` rejects every status outside 200-299, including
  redirects.
- `lru_cache` keeps only successful results. A failed fetch leaves the slot
  empty, and every attempt counts as a request.
- In `get_sessions`, a schedule value of `""` or `{}` iterates to nothing. A
  non-empty string or dict yields strings, which have no `.get` (`NotARecord`).
  Numbers, booleans and `null` cannot be iterated (`NotIterable`).
- The tests exercise the same API under the module name `packaging_tutorial.pycon`.

## Model

| member | source | states |
|---|---|---|
| `Json.Get` | uv/code/packaging-tutorial/src/packaging_tutorial/validated_pycon.py:39-57 | `record.get(key)` is `None` exactly when the key is absent or holds null, and is otherwise the stored value |
| `Records.FromRecord` | uv/code/packaging-tutorial/src/packaging_tutorial/validated_pycon.py:36-58 | mapping fails exactly when `start`/`end` holds a truthy value that is not a parseable string, or `duration` a truthy value that is not a number or lies outside `timedelta`'s range. The error is that of the first bad field among `start`, `end`, `duration`: `MalformedTimestamp` with the text for an unparseable string, `WrongType` for a non-string or non-number, `Overflow` for an out-of-range duration. On success: `start`/`end` are `None` iff absent or falsy, else the parsed instant; `duration` is `None` iff absent or falsy, else 60 seconds per minute; every other field is `record.get(key)` |
| `Records.FromRecordReadsOnlyFields` | uv/code/packaging-tutorial/src/packaging_tutorial/validated_pycon.py:38-57 | two records that agree on the nineteen looked-up keys map to the same outcome |
| `Records.FromRecordIgnoresExtraKey` | uv/code/packaging-tutorial/src/packaging_tutorial/validated_pycon.py:38-57 | adding a key that is not a Session field never changes the mapping |
| `Records.EmptyRecordMapsToDefaults` | uv/code/packaging-tutorial/src/packaging_tutorial/validated_pycon.py:15-58 | a record without keys maps to the all-`None` default session |
| `Records.HugeDurationOverflows` | uv/code/packaging-tutorial/src/packaging_tutorial/validated_pycon.py:43 | a duration of 10000000000000 minutes, beyond 999999999 days, fails with `Overflow` |
| `Records.StartAndDurationDecode` | uv/code/packaging-tutorial/src/packaging_tutorial/validated_pycon.py:41-43 | a record with a parseable `start` text and `duration: 45` maps to that instant and 2700 seconds, every other field `None` |
| `Sequences.Filter` | uv/code/packaging-tutorial/src/packaging_tutorial/validated_pycon.py:79 | a generator filter keeps no more elements than its input, each an input element satisfying the test, and keeps every input element that satisfies it |
| `Sequences.FilterIsSubsequence` | uv/code/packaging-tutorial/src/packaging_tutorial/validated_pycon.py:79 | a filter's result is a subsequence of its input (input order kept) |
| `Sequences.SubsequenceTransitive` | uv/code/packaging-tutorial/src/packaging_tutorial/validated_pycon.py:83-85 | a subsequence of a subsequence is a subsequence |
| `Sequences.FilterMultiplicity` | uv/code/packaging-tutorial/src/packaging_tutorial/validated_pycon.py:79 | each element satisfying the test is kept as often as it occurs; no other element is kept |
| `Sequences.SubsequenceWithinFilter` | uv/code/packaging-tutorial/src/packaging_tutorial/validated_pycon.py:79 | any subsequence made only of elements satisfying the test is no longer than the filter |
| `Sequences.FilterUnique` | uv/code/packaging-tutorial/src/packaging_tutorial/validated_pycon.py:79 | the filter is the only subsequence of the input, all of whose elements satisfy the test, that has its length |
| `Sequences.FilterConcat` | uv/code/packaging-tutorial/src/packaging_tutorial/validated_pycon.py:79 | filtering a concatenation is the concatenation of the filtered parts |
| `Sequences.FilterAllOrNone` | uv/code/packaging-tutorial/src/packaging_tutorial/validated_pycon.py:79 | a filter returns the whole input when every element passes and nothing when none does |
| `Sequences.Min` | uv/code/packaging-tutorial/src/packaging_tutorial/validated_pycon.py:84 | `min` of a non-empty sequence is one of its elements and no larger than any element |
| `Queries.FutureSessions` | uv/code/packaging-tutorial/src/packaging_tutorial/validated_pycon.py:76-79 | the result is no longer than the input. Each result element is an input session with a start strictly after `now`, and every such input session is in the result |
| `Queries.FutureSessionsInOrder` | uv/code/packaging-tutorial/src/packaging_tutorial/validated_pycon.py:79 | the future sessions are a subsequence of the input, and each future session appears as often as in the input |
| `Queries.FutureSessionsUnique` | uv/code/packaging-tutorial/src/packaging_tutorial/validated_pycon.py:79 | any in-order selection of future sessions with as many elements is exactly the future sessions |
| `Queries.Starts` | uv/code/packaging-tutorial/src/packaging_tutorial/validated_pycon.py:84 | the start generator holds the start of every session that has one, and only starts of such sessions |
| `Queries.ImmediateSessions` | uv/code/packaging-tutorial/src/packaging_tutorial/validated_pycon.py:82-85 | fails with `EmptyMin` iff no session is in the future, and never returns an empty result. Every result is a future session. All results share one start, after `now` and no later than any future start. Every future session with that start is kept (no tie-break) |
| `Queries.ImmediateSessionsInOrder` | uv/code/packaging-tutorial/src/packaging_tutorial/validated_pycon.py:83-85 | the immediate sessions are a subsequence of the future sessions and of the input, and keep every earliest future session as often as it occurs |
| `Queries.ImmediateSessionsIdempotent` | uv/code/packaging-tutorial/src/packaging_tutorial/validated_pycon.py:82-85 | the immediate sessions of the immediate sessions are the same sessions |
| `QueryScenarios.PastSessionsAreDropped` | pdm/code/packaging-tutorial/tests/test_packaging_tutorial.py:14-27 | with sessions at now-2h, now-1h, now-22h, now+1h and now+21h, exactly the last two are future, in order |
| `Programme.Fetch` | uv/code/packaging-tutorial/src/packaging_tutorial/validated_pycon.py:66-68 | a fetch succeeds iff the reply is 2xx with a valid JSON body, which it returns. A transport failure, a non-2xx status (with its code) and invalid JSON are each their own error |
| `Programme.MapRecords` | uv/code/packaging-tutorial/src/packaging_tutorial/validated_pycon.py:73 | on success, one session per schedule item, in order, each that item's mapping. It fails iff some item fails, with the error of the first failing item |
| `Programme.SessionsOf` | uv/code/packaging-tutorial/src/packaging_tutorial/validated_pycon.py:71-73 | a non-object payload and a payload without `schedule` fail. A `schedule` list is mapped record by record. An empty string or dict yields no sessions; a non-empty string or dict fails with `NotARecord`; a number, boolean or null fails with `NotIterable` |
| `Programme.MissingScheduleFails` | uv/code/packaging-tutorial/src/packaging_tutorial/validated_pycon.py:73 | a payload without a `schedule` key fails rather than yielding an empty schedule |
| `Programme.ScheduleMapsEachRecord` | uv/code/packaging-tutorial/src/packaging_tutorial/validated_pycon.py:71-73 | a schedule of records that all map yields exactly one session per record, each its `from_record`, in order |
| `Programme.ProgrammeCache.constructor` | uv/code/packaging-tutorial/src/packaging_tutorial/validated_pycon.py:64 | the cache starts empty, with no request made |
| `Programme.ProgrammeCache.Get` | uv/code/packaging-tutorial/src/packaging_tutorial/validated_pycon.py:64-68 | a filled slot is returned with no request. An empty slot makes exactly one request, returns its fetch outcome, and is filled only on success. A returned payload implies at least one request was made |
| `Programme.ProgrammeCache.Clear` | pdm/code/packaging-tutorial/tests/test_packaging_tutorial.py:9-11 | `cache_clear` empties the slot and makes no request |
| `Programme.ProgrammeCache.Sessions` | uv/code/packaging-tutorial/src/packaging_tutorial/validated_pycon.py:71-73 | `get_sessions` maps the cached payload without a request, or makes one request and maps its payload, or propagates its error |
| `Programme.GetTwice` | uv/code/packaging-tutorial/src/packaging_tutorial/validated_pycon.py:64-68 | two calls with no clear in between: the first returns the cached payload or the fetch outcome, and the slot ends holding the second result if it succeeded. After a success both return the same payload, with one request from an empty cache and none from a full one. After a failure, the second call requests again |
| `Programme.ClearThenGet` | pdm/code/packaging-tutorial/tests/test_packaging_tutorial.py:9-11 | after `cache_clear` the next call always makes a new request, returns its outcome, and leaves the slot holding it only on success |
| `Programme.CachesResponse` | pdm/code/packaging-tutorial/tests/test_packaging_tutorial.py:30-44 | with a mock that answers `{"some data": 123}`, two calls make exactly one request, and `get_sessions` fails because the payload has no `schedule` |

## Left out

- HTTP and JSON decoding (the `httpx` client, the real GET and `response.json()`) are foreign library calls. They are replaced by the `Transport` oracle, whose replies are already decoded or marked as not valid JSON.
- `datetime.fromisoformat` is the abstract `IsoParser` parameter. Timestamps are integers on one time line, so timezones are not modelled, and neither is the TypeError from comparing naive and aware datetimes.
- Defaulting `now` to `datetime.now(tz=UTC)` reads the clock. `now` is always passed in.
- pydantic's validation and coercion of the declared field types are library behaviour. The non-time fields are carried as raw JSON values, and a value of the wrong shape is not rejected.
- JSON floating-point numbers are not in `Json.Value`, so a fractional `duration` is not modelled.
- Generators are lazy in Python and eager sequences here. A mapping error in a later record surfaces at once, not when a consumer reaches that record.
- `main()`, the `rich` printing and the `scripts/get_charlas.py` script are presentation code and not modelled.
- The cache is single-threaded; concurrent callers are not modelled.

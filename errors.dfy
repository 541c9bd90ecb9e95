/** The exceptions the schedule module can raise, one constructor per cause. */
module Errors {

  datatype Error =
    /** `datetime.fromisoformat` rejected the text of a time field (ValueError). */
    | MalformedTimestamp(field: string, text: string)
    /** A time field held a truthy non-string, or `duration` a truthy non-number (TypeError). */
    | WrongType(field: string)
    /** `timedelta` rejected a duration beyond its limit of 999999999 days either way (OverflowError). */
    | Overflow(field: string)
    /** The GET request did not complete (transport error). */
    | TransportFailure
    /** `raise_for_status` rejected a reply whose status is not 2xx (HTTPStatusError). */
    | HttpStatus(code: int)
    /** The reply body is not valid JSON. */
    | InvalidJson
    /** `programme["schedule"]` on a payload that is not a JSON object (TypeError). */
    | NotSubscriptable
    /** `programme["schedule"]` on an object without that key (KeyError). */
    | MissingKey(key: string)
    /** The schedule value cannot be iterated (TypeError). */
    | NotIterable
    /** A schedule item has no `.get`, because it is not a JSON object (AttributeError). */
    | NotARecord
    /** `min` over no start times (ValueError). */
    | EmptyMin
}

/** The session query layer: `get_future_sessions` and `get_immediate_sessions`. */
module Queries {
  import opened Wrappers
  import opened Errors
  import opened Records
  import opened Sequences

  /** `session.start and session.start > now`; a datetime is always truthy. */
  predicate IsFuture(session: Session, now: Timestamp) {
    session.start.Some? && session.start.value > now
  }

  /** `get_future_sessions(sessions, now)`, with `now` always given. */
  function FutureSessions(sessions: seq<Session>, now: Timestamp): (r: seq<Session>)
    ensures |r| <= |sessions|
    ensures forall i :: 0 <= i < |r| ==> r[i] in sessions && IsFuture(r[i], now)
    ensures forall i :: 0 <= i < |sessions| && IsFuture(sessions[i], now) ==> sessions[i] in r
  {
    Filter(s => IsFuture(s, now), sessions)
  }

  /**
   * The future sessions are exactly the future elements of the input, in input
   * order, each kept as often as it occurs; no other selection of them has that shape.
   */
  lemma FutureSessionsInOrder(sessions: seq<Session>, now: Timestamp)
    ensures IsSubsequence(FutureSessions(sessions, now), sessions)
    ensures forall x :: multiset(FutureSessions(sessions, now))[x] ==
                        if IsFuture(x, now) then multiset(sessions)[x] else 0
  {
    FilterIsSubsequence(s => IsFuture(s, now), sessions);
    FilterMultiplicity(s => IsFuture(s, now), sessions);
  }

  /** Any in-order selection of as many future sessions is the future sessions. */
  lemma FutureSessionsUnique(sessions: seq<Session>, now: Timestamp, r: seq<Session>)
    requires IsSubsequence(r, sessions)
    requires forall i :: 0 <= i < |r| ==> IsFuture(r[i], now)
    requires |r| == |FutureSessions(sessions, now)|
    ensures r == FutureSessions(sessions, now)
  {
    FilterUnique(s => IsFuture(s, now), r, sessions);
  }

  /** `session.start for session in sessions if session.start`. */
  function Starts(sessions: seq<Session>): (r: seq<Timestamp>)
    ensures forall i :: 0 <= i < |sessions| && sessions[i].start.Some? ==> sessions[i].start.value in r
    ensures forall i :: 0 <= i < |r| ==> exists s :: s in sessions && s.start == Some(r[i])
  {
    if sessions == [] then []
    else
      var rest := Starts(sessions[1..]);
      assert forall s :: s in sessions[1..] ==> s in sessions;
      assert forall i :: 1 <= i < |sessions| ==> sessions[i] == sessions[1..][i - 1];
      if sessions[0].start.Some? then [sessions[0].start.value] + rest else rest
  }

  /** `get_immediate_sessions(sessions, now)`: the future sessions that share the earliest start. */
  function ImmediateSessions(sessions: seq<Session>, now: Timestamp): (r: Result<seq<Session>, Error>)
    // `min` raises exactly when nothing is in the future; no empty result is returned
    ensures r.Err? <==> FutureSessions(sessions, now) == []
    ensures r.Err? ==> r.error == EmptyMin
    ensures r.Ok? ==> r.value != []
    // every result is a future session, and all share one start ...
    ensures r.Ok? ==> forall i :: 0 <= i < |r.value| ==>
      r.value[i] in FutureSessions(sessions, now) && r.value[i].start == r.value[0].start
    // ... which is the earliest start of any future session ...
    ensures r.Ok? ==> r.value[0].start.Some? && r.value[0].start.value > now
    ensures r.Ok? ==> forall s :: s in FutureSessions(sessions, now) ==> r.value[0].start.value <= s.start.value
    // ... and every future session that starts then is kept
    ensures r.Ok? ==> forall s :: s in FutureSessions(sessions, now) && s.start == r.value[0].start ==> s in r.value
  {
    var future := FutureSessions(sessions, now);
    var starts := Starts(future);
    if starts == [] then
      Err(EmptyMin)
    else
      var earliest := Min(starts);
      Ok(Filter((s: Session) => s.start == Some(earliest), future))
  }

  /** The immediate sessions keep the order of the future sessions, and so of the input. */
  lemma ImmediateSessionsInOrder(sessions: seq<Session>, now: Timestamp)
    requires ImmediateSessions(sessions, now).Ok?
    ensures IsSubsequence(ImmediateSessions(sessions, now).value, FutureSessions(sessions, now))
    ensures IsSubsequence(ImmediateSessions(sessions, now).value, sessions)
    ensures var r := ImmediateSessions(sessions, now).value;
            forall x :: multiset(r)[x] ==
                        if x.start == r[0].start then multiset(FutureSessions(sessions, now))[x] else 0
  {
    var future := FutureSessions(sessions, now);
    var earliest := Min(Starts(future));
    FilterIsSubsequence((s: Session) => s.start == Some(earliest), future);
    FilterMultiplicity((s: Session) => s.start == Some(earliest), future);
    FutureSessionsInOrder(sessions, now);
    SubsequenceTransitive(ImmediateSessions(sessions, now).value, future, sessions);
  }

  /** Asking again for the immediate sessions of the immediate sessions changes nothing. */
  lemma ImmediateSessionsIdempotent(sessions: seq<Session>, now: Timestamp)
    requires ImmediateSessions(sessions, now).Ok?
    ensures ImmediateSessions(ImmediateSessions(sessions, now).value, now) == ImmediateSessions(sessions, now)
  {
    var r := ImmediateSessions(sessions, now).value;
    var t := r[0].start;
    assert forall i :: 0 <= i < |r| ==> IsFuture(r[i], now) && r[i].start == t;
    FilterAllOrNone(s => IsFuture(s, now), r);
    assert FutureSessions(r, now) == r;
    var m := Min(Starts(r));
    assert Some(m) == t;
    FilterAllOrNone((s: Session) => s.start == Some(m), r);
  }
}

/** The future-session scenario: three past and two future sessions around `now`. */
module QueryScenarios {
  import opened Wrappers
  import opened Records
  import opened Queries
  import Sequences

  function StartingAt(t: Timestamp): Session {
    EmptySession.(start := Some(t))
  }

  lemma PastSessionsAreDropped(now: Timestamp)
    ensures FutureSessions(
              [StartingAt(now - 7200), StartingAt(now - 3600), StartingAt(now - 79200),
               StartingAt(now + 3600), StartingAt(now + 75600)], now)
         == [StartingAt(now + 3600), StartingAt(now + 75600)]
  {
    var past := [StartingAt(now - 7200), StartingAt(now - 3600), StartingAt(now - 79200)];
    var future := [StartingAt(now + 3600), StartingAt(now + 75600)];
    assert past + future == [StartingAt(now - 7200), StartingAt(now - 3600), StartingAt(now - 79200),
                             StartingAt(now + 3600), StartingAt(now + 75600)];
    Sequences.FilterConcat(s => IsFuture(s, now), past, future);
    Sequences.FilterAllOrNone(s => IsFuture(s, now), past);
    Sequences.FilterAllOrNone(s => IsFuture(s, now), future);
  }
}

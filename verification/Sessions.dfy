/** Browser sessions: idle expiry with a throttled last-seen write, and the time
    bounds that survive the throttling over any run with a clock that does not
    go back. */
module Sessions {
  import opened Common

  const TOUCH_INTERVAL: Time := 15 * MINUTE
  const IDLE_TIMEOUT: Time := 14 * DAY

  /** Keyed by the session's token. */
  datatype Session = Session(createdAt: Time, lastSeenAt: Option<Time>)

  type Rows = map<Id, Session>

  function SeenAt(s: Session): Time {
    if s.lastSeenAt.Some? then s.lastSeenAt.value else s.createdAt
  }

  /** expired?, and the `expired` scope: the same comparison in Ruby and in SQL. */
  predicate Expired(s: Session, now: Time) {
    SeenAt(s) < now - IDLE_TIMEOUT
  }

  function Touched(s: Session, now: Time): Session {
    if s.lastSeenAt.Some? && s.lastSeenAt.value > now - TOUCH_INTERVAL then s else s.(lastSeenAt := Some(now))
  }

  datatype Event =
    | SignIn(token: Id, now: Time)
    | Resume(cookie: Option<Id>, now: Time)
    | Cleanup(now: Time)
    | SignOut(token: Id, now: Time)

  datatype Result = Resumed | Dropped | Ignored

  function ResultOf(rows: Rows, e: Event): Result {
    if !e.Resume? || e.cookie.None? || e.cookie.value !in rows then Ignored
    else if Expired(rows[e.cookie.value], e.now) then Dropped
    else Resumed
  }

  function Kept(rows: Rows, now: Time): Rows {
    map t | t in rows && !Expired(rows[t], now) :: rows[t]
  }

  function Step(rows: Rows, e: Event): Rows {
    match e
    case SignIn(token, now) => if token in rows then rows else rows[token := Session(now, None)]
    case Resume(cookie, now) =>
      if ResultOf(rows, e).Ignored? then rows
      else if ResultOf(rows, e).Dropped? then rows - {cookie.value}
      else rows[cookie.value := Touched(rows[cookie.value], now)]
    case Cleanup(now) => Kept(rows, now)
    case SignOut(token, _) => rows - {token}
  }

  class SessionStore {
    var rows: Rows

    constructor ()
      ensures rows == map[]
    {
      rows := map[];
    }

    /** resume_from_cookie */
    method ResumeFromCookie(cookie: Option<Id>, now: Time) returns (session: Option<Id>)
      modifies this
      ensures rows == Step(old(rows), Resume(cookie, now))
      ensures session.Some? <==> ResultOf(old(rows), Resume(cookie, now)) == Resumed
      ensures session.Some? ==> session == cookie
    {
      if cookie.None? || cookie.value !in rows {
        return None;
      }
      var token := cookie.value;
      if Expired(rows[token], now) {
        rows := rows - {token};
        return None;
      }
      TouchLastSeen(token, now);
      return cookie;
    }

    method TouchLastSeen(token: Id, now: Time)
      requires token in rows
      modifies this
      ensures rows == old(rows)[token := Touched(old(rows)[token], now)]
    {
      var seen := rows[token].lastSeenAt;
      if seen.Some? && seen.value > now - TOUCH_INTERVAL {
        assert rows == rows[token := rows[token]];
        return;
      }
      rows := rows[token := rows[token].(lastSeenAt := Some(now))];
    }

    /** Deletes exactly the sessions that resuming would refuse at this moment, and changes no other. */
    method Clean(now: Time)
      modifies this
      ensures rows == Step(old(rows), Cleanup(now))
      ensures forall t :: t in old(rows) ==> (t !in rows <==> ResultOf(old(rows), Resume(Some(t), now)) == Dropped)
      ensures forall t :: t in rows ==> t in old(rows) && rows[t] == old(rows)[t]
    {
      rows := map t | t in rows && !(SeenAt(rows[t]) < now - IDLE_TIMEOUT) :: rows[t];
    }
  }

  // ---- Runs

  predicate Ordered(run: seq<Event>) {
    forall i, j :: 0 <= i < j < |run| ==> run[i].now <= run[j].now
  }

  function After(run: seq<Event>): Rows {
    if run == [] then map[] else Step(After(run[..|run| - 1]), run[|run| - 1])
  }

  /** The last event signs `t` in, or resumes it. */
  predicate UsesNow(run: seq<Event>, t: Id)
    requires run != []
  {
    var (before, e) := (After(run[..|run| - 1]), run[|run| - 1]);
    (e.SignIn? && e.token == t && t !in before) || (e.Resume? && e.cookie == Some(t) && ResultOf(before, e) == Resumed)
  }

  /** When session `t` was last used: signed in with, or resumed. */
  function LastUse(run: seq<Event>, t: Id): Option<Time> {
    if run == [] then None
    else if UsesNow(run, t) then Some(run[|run| - 1].now)
    else LastUse(run[..|run| - 1], t)
  }

  /** The stored time is never ahead of the last use, and less than a touch interval behind it. */
  ghost predicate Tracks(run: seq<Event>, t: Id)
    requires t in After(run)
  {
    && LastUse(run, t).Some?
    && SeenAt(After(run)[t]) <= LastUse(run, t).value
    && LastUse(run, t).value - TOUCH_INTERVAL < SeenAt(After(run)[t])
  }

  lemma {:induction false} LastUseIsPast(run: seq<Event>, t: Id, now: Time)
    requires LastUse(run, t).Some? && forall i :: 0 <= i < |run| ==> run[i].now <= now
    ensures LastUse(run, t).value <= now
  {
    if !UsesNow(run, t) {
      LastUseIsPast(run[..|run| - 1], t, now);
    }
  }

  lemma {:induction false} RunTracks(run: seq<Event>, t: Id)
    requires Ordered(run) && t in After(run)
    ensures Tracks(run, t)
  {
    var before, e := run[..|run| - 1], run[|run| - 1];
    if t in After(before) {
      RunTracks(before, t);
      LastUseIsPast(before, t, e.now);
    }
  }

  /** A session is dropped as idle only when its last use lies more than 14 days
      minus 15 minutes back, and always when it lies more than 14 days back. */
  lemma IdleBounds(run: seq<Event>, t: Id, now: Time)
    requires Ordered(run) && t in After(run)
    ensures LastUse(run, t).Some?
    ensures var (result, last) := (ResultOf(After(run), Resume(Some(t), now)), LastUse(run, t).value);
            && (result == Dropped ==> now - last > 14 * DAY - 15 * MINUTE)
            && (now - last > 14 * DAY ==> result == Dropped)
            && (result == Resumed <==> result != Dropped)
  {
    RunTracks(run, t);
  }

  /** Both ends of the window in between happen: at 14 days minus 14 minutes after
      its last use one session is dropped and another is resumed. */
  lemma ThrottleIsVisible()
    ensures var late := [SignIn(0, 0), Resume(Some(0), 0), Resume(Some(0), 14 * MINUTE)];
            var sharp := [SignIn(0, 0), Resume(Some(0), 14 * MINUTE)];
            var now := IDLE_TIMEOUT + 1;
            && LastUse(late, 0) == LastUse(sharp, 0) == Some(14 * MINUTE)
            && ResultOf(After(late), Resume(Some(0), now)) == Dropped
            && ResultOf(After(sharp), Resume(Some(0), now)) == Resumed
  {
    var one: seq<Event> := [SignIn(0, 0)];
    var two: seq<Event> := [SignIn(0, 0), Resume(Some(0), 0)];
    var late: seq<Event> := [SignIn(0, 0), Resume(Some(0), 0), Resume(Some(0), 14 * MINUTE)];
    var sharp: seq<Event> := [SignIn(0, 0), Resume(Some(0), 14 * MINUTE)];
    assert one[..0] == [];
    assert After(one) == map[0 := Session(0, None)];
    assert two[..1] == one && sharp[..1] == one && late[..2] == two;
    assert After(two) == map[0 := Session(0, Some(0))];
    assert After(late) == map[0 := Session(0, Some(0))];
    assert After(sharp) == map[0 := Session(0, Some(14 * MINUTE))];
  }

  /** A token that is gone stays refused until someone signs in with it anew. */
  lemma {:induction false} GoneStaysGone(run: seq<Event>, more: seq<Event>, t: Id)
    requires t !in After(run) && forall i :: 0 <= i < |more| ==> !(more[i].SignIn? && more[i].token == t)
    ensures t !in After(run + more)
  {
    if more == [] {
      assert run + more == run;
    } else {
      var rest := more[..|more| - 1];
      assert (run + more)[..|run + more| - 1] == run + rest;
      assert (run + more)[|run + more| - 1] == more[|more| - 1];
      GoneStaysGone(run, rest, t);
    }
  }
}

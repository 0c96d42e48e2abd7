/** OAuth token refresh with a double-checked row lock, for any number of callers
    with stale copies of the row and any interleaving of their steps. */
module OauthRefresh {
  import opened Common

  /** The stored columns. An absent refresh token is a blank one. */
  datatype Grant = Grant(access: string, refresh: Option<string>, expiresAt: Option<Time>, invalidatedAt: Option<Time>)

  const EARLY: Time := 10 * MINUTE

  predicate Expired(t: Grant, now: Time) {
    t.expiresAt.Some? && t.expiresAt.value <= now + EARLY
  }

  /** `listed` says whether the provider is one of the refreshable ones. */
  predicate CanRefresh(t: Grant, listed: bool) {
    listed && t.refresh.Some? && t.invalidatedAt.None?
  }

  /** What the provider answers to a presented refresh token. */
  datatype Response =
    | Success(access: string, refresh: Option<string>, expiresAt: Option<Time>)
    | InvalidGrant
    | Failure

  /** A caller of `token`: queued for the lock, or holding it with the request under way. */
  datatype Phase = Waiting | Presenting(copy: Grant)

  datatype State = State(row: Grant, callers: map<Id, Phase>)

  datatype Event =
    | Ask(caller: Id, copy: Grant, now: Time)
    | Enter(caller: Id, now: Time)
    | Answer(caller: Id, response: Response, now: Time)

  predicate Locked(s: State) {
    exists c :: c in s.callers && s.callers[c].Presenting?
  }

  predicate Due(t: Grant, listed: bool, now: Time) {
    CanRefresh(t, listed) && Expired(t, now)
  }

  /** renew_token! after the answer. */
  function Renewed(row: Grant, r: Response, now: Time): Grant {
    match r
    case Success(access, refresh, expiresAt) =>
      Grant(access, if refresh.Some? then refresh else row.refresh, expiresAt, None)
    case InvalidGrant => row.(invalidatedAt := Some(now))
    case Failure => row
  }

  /** Whether the event can happen now: the lock admits one caller at a time. */
  predicate Enabled(s: State, e: Event) {
    match e
    case Ask(c, _, _) => c !in s.callers
    case Enter(c, _) => c in s.callers && s.callers[c].Waiting? && !Locked(s)
    case Answer(c, _, _) => c in s.callers && s.callers[c].Presenting?
  }

  function Step(s: State, listed: bool, e: Event): State
    requires Enabled(s, e)
  {
    match e
    case Ask(c, copy, now) => if Due(copy, listed, now) then s.(callers := s.callers[c := Waiting]) else s
    case Enter(c, now) =>
      if Due(s.row, listed, now) then s.(callers := s.callers[c := Presenting(s.row)]) else s.(callers := s.callers - {c})
    case Answer(c, r, now) => State(Renewed(s.row, r, now), s.callers - {c})
  }

  /** The record as its methods change it, one uninterrupted stretch each. */
  class Record {
    var state: State
    const listed: bool

    constructor (row: Grant, listed: bool)
      ensures state == State(row, map[]) && this.listed == listed
    {
      state := State(row, map[]);
      this.listed := listed;
    }

    /** The unlocked check of `token`; without need it hands out the copy's access token. */
    method Token(caller: Id, copy: Grant, now: Time) returns (access: Option<string>)
      requires caller !in state.callers
      modifies this
      ensures state == Step(old(state), listed, Ask(caller, copy, now))
      ensures access == if Due(copy, listed, now) then None else Some(copy.access)
    {
      if CanRefresh(copy, listed) && Expired(copy, now) {
        state := state.(callers := state.callers[caller := Waiting]);
        return None;
      }
      return Some(copy.access);
    }

    /** with_lock, reload, and the second check; the refresh token to present, if still due. */
    method LockAndReload(caller: Id, now: Time) returns (present: Option<string>)
      requires Enabled(state, Enter(caller, now))
      modifies this
      ensures state == Step(old(state), listed, Enter(caller, now))
      ensures present == if Due(state.row, listed, now) then state.row.refresh else None
    {
      var copy := state.row;
      if CanRefresh(copy, listed) && Expired(copy, now) {
        state := state.(callers := state.callers[caller := Presenting(copy)]);
        return copy.refresh;
      }
      state := state.(callers := state.callers - {caller});
      return None;
    }

    /** renew_token! once the provider answered; updates the copy it locked and saves it. */
    method RenewToken(caller: Id, r: Response, now: Time)
      requires Inv(state, listed) && Enabled(state, Answer(caller, r, now))
      modifies this
      ensures state == Step(old(state), listed, Answer(caller, r, now))
    {
      var copy := state.callers[caller].copy;
      match r {
        case Success(access, refresh, expiresAt) =>
          copy := Grant(access, if refresh.Some? then refresh else copy.refresh, expiresAt, None);
        case InvalidGrant =>
          copy := copy.(invalidatedAt := Some(now));
        case Failure =>
      }
      state := State(copy, state.callers - {caller});
    }
  }

  // ---- The invariant

  /** One caller at most is inside the lock, its copy is the stored row, and that row may be refreshed. */
  ghost predicate Inv(s: State, listed: bool) {
    && (forall b, c :: b in s.callers && c in s.callers && s.callers[b].Presenting? && s.callers[c].Presenting? ==> b == c)
    && (forall c :: c in s.callers && s.callers[c].Presenting? ==> s.callers[c].copy == s.row && CanRefresh(s.row, listed))
  }

  lemma StepKeepsInv(s: State, listed: bool, e: Event)
    requires Inv(s, listed) && Enabled(s, e)
    ensures Inv(Step(s, listed, e), listed)
  {
  }

  // ---- Runs

  predicate Possible(s: State, listed: bool, run: seq<Event>)
    decreases run
  {
    run == [] || (Enabled(s, run[0]) && Possible(Step(s, listed, run[0]), listed, run[1..]))
  }

  function Run(s: State, listed: bool, run: seq<Event>): State
    requires Possible(s, listed, run)
    decreases run
  {
    if run == [] then s else Run(Step(s, listed, run[0]), listed, run[1..])
  }

  lemma {:induction false} RunKeepsInv(s: State, listed: bool, run: seq<Event>)
    requires Inv(s, listed) && Possible(s, listed, run)
    ensures Inv(Run(s, listed, run), listed)
    decreases run
  {
    if run != [] {
      StepKeepsInv(s, listed, run[0]);
      RunKeepsInv(Step(s, listed, run[0]), listed, run[1..]);
    }
  }

  /** Whatever copies the callers came with, whoever has a request under way in a
      reachable state presents the stored refresh token of a row not invalidated. */
  lemma PresentsTheStoredToken(row: Grant, listed: bool, run: seq<Event>, c: Id)
    requires Possible(State(row, map[]), listed, run)
    ensures var s := Run(State(row, map[]), listed, run);
            c in s.callers && s.callers[c].Presenting? ==>
              && s.row.refresh.Some? && s.callers[c].copy.refresh == s.row.refresh && s.row.invalidatedAt.None?
              && forall b :: b in s.callers && s.callers[b].Presenting? ==> b == c
  {
    RunKeepsInv(State(row, map[]), listed, run);
  }

  /** The event presents the refresh token. */
  predicate Presents(s: State, listed: bool, e: Event) {
    e.Enter? && Due(s.row, listed, e.now)
  }

  function Presentations(s: State, listed: bool, run: seq<Event>): nat
    requires Possible(s, listed, run)
    decreases run
  {
    if run == [] then 0
    else (if Presents(s, listed, run[0]) then 1 else 0) + Presentations(Step(s, listed, run[0]), listed, run[1..])
  }

  /** A recorded invalidation is final: no refresh follows it, and the row never changes again. */
  lemma {:induction false} InvalidatedIsFinal(s: State, listed: bool, run: seq<Event>)
    requires Inv(s, listed) && s.row.invalidatedAt.Some? && Possible(s, listed, run)
    ensures Presentations(s, listed, run) == 0 && Run(s, listed, run).row == s.row
    decreases run
  {
    if run != [] {
      StepKeepsInv(s, listed, run[0]);
      InvalidatedIsFinal(Step(s, listed, run[0]), listed, run[1..]);
    }
  }

  /** An answered refresh that revokes the token leaves nothing to present. */
  lemma RevocationStopsRefreshing(s: State, listed: bool, e: Event, run: seq<Event>)
    requires Inv(s, listed) && e.Answer? && e.response.InvalidGrant? && Enabled(s, e) && Possible(Step(s, listed, e), listed, run)
    ensures Presentations(Step(s, listed, e), listed, run) == 0
  {
    StepKeepsInv(s, listed, e);
    InvalidatedIsFinal(Step(s, listed, e), listed, run);
  }

  // ---- What is stored

  /** The last answered tokens of a run: each success issues an access token with its expiry,
      and a refresh token only if the provider rotates it. */
  function LastAccess(run: seq<Event>, first: string): string {
    if run == [] then first
    else LastAccess(run[1..], if run[0].Answer? && run[0].response.Success? then run[0].response.access else first)
  }

  function LastExpiry(run: seq<Event>, first: Option<Time>): Option<Time> {
    if run == [] then first
    else LastExpiry(run[1..], if run[0].Answer? && run[0].response.Success? then run[0].response.expiresAt else first)
  }

  function LastRefresh(run: seq<Event>, first: Option<string>): Option<string> {
    if run == [] then first
    else LastRefresh(run[1..], if run[0].Answer? && run[0].response.Success? && run[0].response.refresh.Some?
                               then run[0].response.refresh else first)
  }

  /** After any run the row holds the last access token issued with its expiry and the last
      refresh token issued, and is invalidated only by an answer that revokes the grant. */
  lemma {:induction false} StoredWasIssuedLast(s: State, listed: bool, run: seq<Event>)
    requires Inv(s, listed) && Possible(s, listed, run)
    ensures var row := Run(s, listed, run).row;
            && row.access == LastAccess(run, s.row.access) && row.expiresAt == LastExpiry(run, s.row.expiresAt)
            && row.refresh == LastRefresh(run, s.row.refresh)
            && (row.invalidatedAt != s.row.invalidatedAt ==>
                  exists e :: e in run && e.Answer? && e.response.InvalidGrant? && row.invalidatedAt == Some(e.now))
    decreases run
  {
    if run != [] {
      var s' := Step(s, listed, run[0]);
      StepKeepsInv(s, listed, run[0]);
      StoredWasIssuedLast(s', listed, run[1..]);
      assert run[0] in run && forall e :: e in run[1..] ==> e in run;
    }
  }

  /** So the refresh token a caller presents is the last one the provider issued. */
  lemma PresentsTheLastIssued(row: Grant, listed: bool, run: seq<Event>, c: Id)
    requires Possible(State(row, map[]), listed, run)
    ensures var s := Run(State(row, map[]), listed, run);
            c in s.callers && s.callers[c].Presenting? ==> s.callers[c].copy.refresh == LastRefresh(run, row.refresh)
  {
    PresentsTheStoredToken(row, listed, run, c);
    StoredWasIssuedLast(State(row, map[]), listed, run);
  }

  /** A caller gets the lock's second look at the stored row, and presents exactly when that
      is refreshable, not invalidated, and within ten minutes of its expiry or past it. */
  lemma PresentsIff(s: State, listed: bool, c: Id, now: Time)
    requires Enabled(s, Enter(c, now))
    ensures var later := Step(s, listed, Enter(c, now));
            && later.row == s.row
            && (c in later.callers <==> listed && s.row.refresh.Some? && s.row.invalidatedAt.None?
                                        && s.row.expiresAt.Some? && s.row.expiresAt.value <= now + 10 * MINUTE)
            && (c in later.callers ==> later.callers[c] == Presenting(s.row))
  {
  }

  // ---- How often it refreshes

  predicate Succeeds(e: Event) { e.Answer? && e.response.Success? }

  function Successes(run: seq<Event>): nat {
    if run == [] then 0 else (if Succeeds(run[0]) then 1 else 0) + Successes(run[1..])
  }

  /** The clock does not go back, and stays between `from` and `to`. */
  predicate Within(run: seq<Event>, from: Time, to: Time)
    decreases run
  {
    if run == [] then from <= to else from <= run[0].now && Within(run[1..], run[0].now, to)
  }

  /** Every token the provider issues lives at least `life`, if it expires at all. */
  predicate Lives(run: seq<Event>, life: Time) {
    forall e :: e in run && Succeeds(e) && e.response.expiresAt.Some? ==> e.response.expiresAt.value >= e.now + life
  }

  lemma {:induction false} WithinIsOrdered(run: seq<Event>, from: Time, to: Time)
    requires Within(run, from, to)
    ensures from <= to
    decreases run
  {
    if run != [] {
      WithinIsOrdered(run[1..], run[0].now, to);
    }
  }

  /** After a success at `t` the next one is a full life, less the early margin, away. */
  lemma {:induction false} SuccessesAreSpaced(s: State, listed: bool, run: seq<Event>, t: Time, from: Time, to: Time, life: Time)
    requires Inv(s, listed) && Possible(s, listed, run) && Within(run, from, to) && Lives(run, life) && life > EARLY && t <= from
    requires s.row.expiresAt.Some? ==> s.row.expiresAt.value >= t + life
    requires Locked(s) ==> from >= t + life - EARLY
    ensures Successes(run) * (life - EARLY) <= to - t
    decreases run
  {
    WithinIsOrdered(run, from, to);
    if run != [] {
      var (e, rest, s') := (run[0], run[1..], Step(s, listed, run[0]));
      StepKeepsInv(s, listed, e);
      assert Lives(rest, life);
      if Succeeds(e) {
        assert e in run;
        SuccessesAreSpaced(s', listed, rest, e.now, e.now, to, life);
      } else {
        SuccessesAreSpaced(s', listed, rest, t, e.now, to, life);
      }
    }
  }

  /** In any window, from any reachable state: N successes take at least N - 1 token lives less the margin. */
  lemma {:induction false} RefreshRateIsBounded(s: State, listed: bool, run: seq<Event>, from: Time, to: Time, life: Time)
    requires Inv(s, listed) && Possible(s, listed, run) && Within(run, from, to) && Lives(run, life) && life > EARLY
    ensures (Successes(run) - 1) * (life - EARLY) <= to - from
    decreases run
  {
    WithinIsOrdered(run, from, to);
    if run != [] {
      var (e, rest, s') := (run[0], run[1..], Step(s, listed, run[0]));
      StepKeepsInv(s, listed, e);
      assert Lives(rest, life);
      if Succeeds(e) {
        assert e in run;
        SuccessesAreSpaced(s', listed, rest, e.now, e.now, to, life);
      } else {
        RefreshRateIsBounded(s', listed, rest, e.now, to, life);
      }
    }
  }
}

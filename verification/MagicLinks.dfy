/** One-time codes: one live row per user and slot, distinct codes, and every
    row consumed at most once and only for a purpose it was sent for. */
module MagicLinks {
  import opened Common

  datatype Purpose = SignIn | SignUp | EmailChange | Sudo

  datatype MagicLink = MagicLink(user: Id, purpose: Purpose, code: string, newEmail: Option<string>, expiresAt: Time)

  type Rows = map<Id, MagicLink>

  /** `nextId` is the id sequence. */
  datatype Store = Store(rows: Rows, nextId: Id)

  const NOTHING := Store(map[], 0)

  const CODE_LENGTH: nat := 6
  const EXPIRATION: Time := 15 * MINUTE

  // ---- Codes

  predicate IsCode(code: string) { |code| == CODE_LENGTH && forall i :: 0 <= i < |code| ==> IsDigit(code[i]) }

  predicate Blank(s: string) { Strip(s) == "" }

  function DigitOf(c: char): string { if IsDigit(c) then [c] else "" }

  function Digits(s: string): string {
    if s == "" then "" else DigitOf(s[0]) + Digits(s[1..])
  }

  /** MagicLink::Code.sanitize; None is nil. */
  function Sanitize(code: string): Option<string> {
    if Blank(code) then None else Some(Digits(code))
  }

  lemma {:induction false} DigitsOfTwo(a: string, b: string)
    ensures Digits(a + b) == Digits(a) + Digits(b)
  {
    hide DigitOf;
    if a == "" {
      assert a + b == b;
    } else {
      DigitsOfTwo(a[1..], b);
      assert (a + b)[0] == a[0] && (a + b)[1..] == a[1..] + b;
      Regroup(DigitOf(a[0]), Digits(a[1..]), Digits(b));
    }
  }

  lemma {:induction false} DigitsOfDigits(s: string)
    requires forall i :: 0 <= i < |s| ==> IsDigit(s[i])
    ensures Digits(s) == s
  {
    if s != "" {
      DigitsOfDigits(s[1..]);
    }
  }

  lemma {:induction false} StripKeepsDigit(s: string, k: nat)
    requires k < |s| && IsDigit(s[k])
    ensures Strip(s) != ""
  {
    StripLeftKeepsDigit(s, k);
    var i: nat :| i < |StripLeft(s)| && IsDigit(StripLeft(s)[i]);
    StripRightKeepsDigit(StripLeft(s), i);
  }

  lemma {:induction false} StripLeftKeepsDigit(s: string, k: nat)
    requires k < |s| && IsDigit(s[k])
    ensures exists i: nat :: i < |StripLeft(s)| && IsDigit(StripLeft(s)[i])
  {
    if IsSpace(s[0]) {
      StripLeftKeepsDigit(s[1..], k - 1);
      var i: nat :| i < |StripLeft(s[1..])| && IsDigit(StripLeft(s[1..])[i]);
      assert IsDigit(StripLeft(s)[i]);
    } else {
      assert IsDigit(StripLeft(s)[k]);
    }
  }

  lemma {:induction false} StripRightKeepsDigit(s: string, k: nat)
    requires k < |s| && IsDigit(s[k])
    ensures StripRight(s) != ""
  {
    if IsSpace(s[|s| - 1]) {
      StripRightKeepsDigit(s[..|s| - 1], k);
    }
  }

  lemma {:induction false} NoDigits(s: string)
    requires forall i :: 0 <= i < |s| ==> !IsDigit(s[i])
    ensures Digits(s) == ""
  {
    if s != "" {
      NoDigits(s[1..]);
    }
  }

  predicate Plain(s: string) { forall i :: 0 <= i < |s| ==> !IsDigit(s[i]) }

  lemma DigitsBehind(before: string, digits: string, rest: string)
    requires Plain(before) && forall i :: 0 <= i < |digits| ==> IsDigit(digits[i])
    ensures Digits(before + (digits + rest)) == digits + Digits(rest)
  {
    NoDigits(before);
    DigitsOfDigits(digits);
    hide Digits;
    DigitsOfTwo(before, digits + rest);
    DigitsOfTwo(digits, rest);
  }

  /** A code whose halves are separated and surrounded by other characters. */
  function Dressed(code: string, cut: nat, before: string, between: string, after: string): string
    requires cut <= |code|
  {
    before + (code[..cut] + (between + (code[cut..] + after)))
  }

  lemma DressedDigits(code: string, cut: nat, before: string, between: string, after: string)
    requires IsCode(code) && cut <= |code| && Plain(before) && Plain(between) && Plain(after)
    ensures Digits(Dressed(code, cut, before, between, after)) == code
  {
    var (a, b) := (code[..cut], code[cut..]);
    assert code == a + b;
    DigitsBehind(before, a, between + (b + after));
    DigitsBehind(between, b, after);
    NoDigits(after);
    hide Digits, Plain, IsCode;
    assert b + "" == b;
  }

  lemma DressedIsNotBlank(code: string, cut: nat, before: string, between: string, after: string)
    requires IsCode(code) && cut <= |code|
    ensures !Blank(Dressed(code, cut, before, between, after))
  {
    var s, rest := Dressed(code, cut, before, between, after), between + (code[cut..] + after);
    if cut > 0 {
      assert s[|before|] == (code[..cut] + rest)[0] == code[0];
      StripKeepsDigit(s, |before|);
    } else {
      assert code[..cut] + rest == rest && rest[|between|] == (code[cut..] + after)[0] == code[0];
      assert s[|before| + |between|] == rest[|between|];
      StripKeepsDigit(s, |before| + |between|);
    }
  }

  /** A code survives sanitizing however it is split and surrounded by other characters. */
  lemma SanitizeFindsCode(code: string, cut: nat, before: string, between: string, after: string)
    requires IsCode(code) && cut <= |code| && Plain(before) && Plain(between) && Plain(after)
    ensures Sanitize(Dressed(code, cut, before, between, after)) == Some(code)
  {
    hide IsCode, Plain, Dressed, Digits, Blank;
    DressedDigits(code, cut, before, between, after);
    DressedIsNotBlank(code, cut, before, between, after);
  }

  // ---- Sending

  /** purposes_sharing_slot_with */
  function Slot(p: Purpose): set<Purpose> {
    if p in {SignIn, SignUp} then {SignIn, SignUp} else {p}
  }

  function FreeSlot(rows: Rows, user: Id, p: Purpose): Rows {
    map k | k in rows && !(rows[k].user == user && rows[k].purpose in Slot(p)) :: rows[k]
  }

  predicate CodeTaken(rows: Rows, code: string) {
    exists k :: k in rows && rows[k].code == code
  }

  /** The first of the generated candidates no row has yet. */
  function FirstUnused(candidates: seq<string>, rows: Rows): (r: Option<string>)
    ensures r.Some? ==> r.value in candidates && !CodeTaken(rows, r.value)
  {
    if candidates == [] then None
    else if !CodeTaken(rows, candidates[0]) then Some(candidates[0])
    else FirstUnused(candidates[1..], rows)
  }

  datatype Event =
    | Send(user: Id, purpose: Option<Purpose>, newEmail: Option<string>, emailOk: bool, candidates: seq<string>, now: Time)
    | Consume(owner: Option<Id>, code: string, purposes: Option<set<Purpose>>, newEmail: Option<string>, now: Time)
    | Cleanup(now: Time)
    | DropUser(user: Id)

  /** The row a send creates; None when its validations fail, and the transaction with them.
      Without an unused candidate the generator is still looping and nothing is committed. */
  function NewLink(rows: Rows, e: Event): Option<MagicLink>
    requires e.Send?
  {
    var purpose := if e.purpose.Some? then e.purpose.value else SignIn;
    var code := FirstUnused(e.candidates, FreeSlot(rows, e.user, purpose));
    if code.None? || (purpose == EmailChange && (e.newEmail.None? || Blank(e.newEmail.value) || !e.emailOk)) then None
    else Some(MagicLink(e.user, purpose, code.value, e.newEmail, e.now + EXPIRATION))
  }

  // ---- Consuming

  /** The `active` scope narrowed by owner, purpose and new address, and the code. */
  predicate Matches(l: MagicLink, e: Event)
    requires e.Consume?
  {
    && l.expiresAt >= e.now
    && (e.owner.Some? ==> l.user == e.owner.value)
    && (e.purposes.Some? ==> l.purpose in e.purposes.value)
    && (e.newEmail.Some? && !Blank(e.newEmail.value) ==> l.newEmail == e.newEmail)
    && Sanitize(e.code) == Some(l.code)
  }

  ghost function Consumed(rows: Rows, e: Event): (r: Option<Id>)
    ensures r.Some? ==> e.Consume? && r.value in rows && Matches(rows[r.value], e)
    ensures r.None? && e.Consume? ==> forall k :: k in rows ==> !Matches(rows[k], e)
  {
    if !e.Consume? then None
    else if k :| k in rows && Matches(rows[k], e) then Some(k)
    else None
  }

  ghost function Step(s: Store, e: Event): Store {
    match e
    case Send(user, _, _, _, _, _) =>
      if NewLink(s.rows, e).None? then s
      else
        var link := NewLink(s.rows, e).value;
        Store(FreeSlot(s.rows, user, link.purpose)[s.nextId := link], s.nextId + 1)
    case Consume(_, _, _, _, _) => if Consumed(s.rows, e).Some? then s.(rows := s.rows - {Consumed(s.rows, e).value}) else s
    case Cleanup(now) => s.(rows := map k | k in s.rows && s.rows[k].expiresAt > now :: s.rows[k])
    case DropUser(user) => s.(rows := map k | k in s.rows && s.rows[k].user != user :: s.rows[k])
  }

  // ---- The invariant

  ghost predicate OnePerSlot(rows: Rows) {
    forall j, k :: j in rows && k in rows && rows[j].user == rows[k].user && rows[j].purpose in Slot(rows[k].purpose) ==> j == k
  }

  ghost predicate DistinctCodes(rows: Rows) {
    forall j, k :: j in rows && k in rows && rows[j].code == rows[k].code ==> j == k
  }

  ghost predicate Inv(s: Store) {
    OnePerSlot(s.rows) && DistinctCodes(s.rows) && forall k :: k in s.rows ==> k < s.nextId
  }

  lemma StepKeepsInv(s: Store, e: Event)
    requires Inv(s)
    ensures Inv(Step(s, e)) && s.nextId <= Step(s, e).nextId
  {
    if e.Send? && NewLink(s.rows, e).Some? {
      var link := NewLink(s.rows, e).value;
      var rest := FreeSlot(s.rows, e.user, link.purpose);
      forall k | k in rest ensures rest[k].code != link.code { assert !CodeTaken(rest, link.code); }
    }
  }

  /** What a caller of consume asks for, field by field. */
  predicate Answers(l: MagicLink, owner: Option<Id>, code: string, purposes: Option<set<Purpose>>, newEmail: Option<string>, now: Time) {
    && owner in {None, Some(l.user)}
    && (purposes == None || l.purpose in purposes.value)
    && (newEmail == None || newEmail == l.newEmail || Strip(newEmail.value) == "")
    && Strip(code) != "" && l.code == Digits(code)
    && now <= l.expiresAt
  }

  class MagicLinkStore {
    var store: Store

    ghost predicate Valid()
      reads this
    {
      Inv(store)
    }

    constructor ()
      ensures Valid() && store == NOTHING
    {
      store := NOTHING;
    }

    /** generate_code: draw until a candidate is free. */
    method GenerateCode(candidates: seq<string>) returns (code: Option<string>)
      ensures code == FirstUnused(candidates, store.rows)
    {
      var i := 0;
      assert candidates[0..] == candidates;
      while i < |candidates|
        invariant i <= |candidates| && FirstUnused(candidates, store.rows) == FirstUnused(candidates[i..], store.rows)
      {
        if !CodeTaken(store.rows, candidates[i]) {
          return Some(candidates[i]);
        }
        assert candidates[i..][1..] == candidates[i + 1..];
        i := i + 1;
      }
      return None;
    }

    /** send_magic_link, under the user's row lock. */
    method SendMagicLink(user: Id, purpose: Option<Purpose>, newEmail: Option<string>, emailOk: bool,
                         candidates: seq<string>, now: Time) returns (id: Option<Id>)
      requires Valid()
      modifies this
      ensures Valid() && store == Step(old(store), Send(user, purpose, newEmail, emailOk, candidates, now))
      ensures id.Some? ==> id.value == old(store).nextId && id.value in store.rows
      ensures id.None? ==> store == old(store)
    {
      ghost var e := Send(user, purpose, newEmail, emailOk, candidates, now);
      hide Inv, FirstUnused, FreeSlot, CodeTaken;
      StepKeepsInv(store, e);
      var before, p := store, if purpose.Some? then purpose.value else SignIn;
      store := store.(rows := FreeSlot(store.rows, user, p));
      var code := GenerateCode(candidates);
      if code.None? || (p == EmailChange && (newEmail.None? || Blank(newEmail.value) || !emailOk)) {
        store := before;
        return None;
      }
      var link := MagicLink(user, p, code.value, newEmail, now + EXPIRATION);
      store := Store(store.rows[store.nextId := link], store.nextId + 1);
      return Some(before.nextId);
    }

    /** MagicLink.consume: lock the match, destroy it, hand it out. */
    method ConsumeCode(owner: Option<Id>, code: string, purposes: Option<set<Purpose>>, newEmail: Option<string>, now: Time)
      returns (link: Option<MagicLink>)
      requires Valid()
      modifies this
      ensures Valid() && store == Step(old(store), Consume(owner, code, purposes, newEmail, now))
      ensures var id := Consumed(old(store).rows, Consume(owner, code, purposes, newEmail, now));
              link == if id.Some? then Some(old(store).rows[id.value]) else None
      ensures link.Some? ==> Answers(link.value, owner, code, purposes, newEmail, now)
      ensures link.None? ==> store == old(store) && forall k :: k in store.rows ==> !Answers(store.rows[k], owner, code, purposes, newEmail, now)
    {
      var e := Consume(owner, code, purposes, newEmail, now);
      StepKeepsInv(store, e);
      forall l ensures Matches(l, e) <==> Answers(l, owner, code, purposes, newEmail, now) { MatchingAnswers(l, e); }
      hide Matches, Answers;
      if k: Id :| k in store.rows && Matches(store.rows[k], e) {
        MatchIsUnique(store.rows, e, k);
        link := Some(store.rows[k]);
        store := store.(rows := store.rows - {k});
      } else {
        link := None;
      }
    }
  }

  /** Distinct codes leave a consume one candidate: it takes the row that matches, and fails when none does. */
  lemma MatchIsUnique(rows: Rows, e: Event, k: Id)
    requires DistinctCodes(rows) && e.Consume?
    ensures Consumed(rows, e) == Some(k) <==> k in rows && Matches(rows[k], e)
  {
  }

  // ---- Runs

  ghost function Run(s: Store, run: seq<Event>): Store
    decreases run
  {
    if run == [] then s else Run(Step(s, run[0]), run[1..])
  }

  /** How many events of the run consume row `k`. */
  ghost function Consumptions(s: Store, run: seq<Event>, k: Id): nat
    decreases run
  {
    if run == [] then 0 else (if Consumed(s.rows, run[0]) == Some(k) then 1 else 0) + Consumptions(Step(s, run[0]), run[1..], k)
  }

  /** After any run each user holds at most one row per slot, and all codes differ. */
  lemma {:induction false} RunKeepsInv(s: Store, run: seq<Event>)
    requires Inv(s)
    ensures Inv(Run(s, run))
    decreases run
  {
    if run != [] {
      StepKeepsInv(s, run[0]);
      RunKeepsInv(Step(s, run[0]), run[1..]);
    }
  }

  /** Spelled out: one row for signing in or up, one for changing the address, one for sudo. */
  lemma OneCodePerSlot(run: seq<Event>, j: Id, k: Id)
    requires var rows := Run(NOTHING, run).rows;
             && j in rows && k in rows && j != k && rows[j].user == rows[k].user
    ensures var (p, q) := (Run(NOTHING, run).rows[j].purpose, Run(NOTHING, run).rows[k].purpose);
            p != q && !(p.SignIn? && q.SignUp?) && !(p.SignUp? && q.SignIn?)
    ensures Run(NOTHING, run).rows[j].code != Run(NOTHING, run).rows[k].code
  {
    RunKeepsInv(NOTHING, run);
  }

  lemma {:induction false} GoneIsNeverConsumed(s: Store, run: seq<Event>, k: Id)
    requires Inv(s) && k !in s.rows && k < s.nextId
    ensures Consumptions(s, run, k) == 0
    decreases run
  {
    if run != [] {
      StepKeepsInv(s, run[0]);
      GoneIsNeverConsumed(Step(s, run[0]), run[1..], k);
    }
  }

  lemma {:induction false} ConsumedAtMostOnce(s: Store, run: seq<Event>, k: Id)
    requires Inv(s)
    ensures Consumptions(s, run, k) <= 1
    decreases run
  {
    if run != [] {
      StepKeepsInv(s, run[0]);
      if Consumed(s.rows, run[0]) == Some(k) {
        GoneIsNeverConsumed(Step(s, run[0]), run[1..], k);
      } else {
        ConsumedAtMostOnce(Step(s, run[0]), run[1..], k);
      }
    }
  }

  /** Once a newer code of the same slot is sent, the older row is never consumed. */
  lemma SupersededIsNeverConsumed(s: Store, e: Event, k: Id, run: seq<Event>)
    requires Inv(s) && e.Send? && NewLink(s.rows, e).Some?
    requires k in s.rows && s.rows[k].user == e.user && s.rows[k].purpose in Slot(NewLink(s.rows, e).value.purpose)
    ensures Consumptions(Step(s, e), run, k) == 0
  {
    StepKeepsInv(s, e);
    GoneIsNeverConsumed(Step(s, e), run, k);
  }

  /** The newest code of a slot works as long as it lasts, for whoever types it with any separators. */
  lemma FreshCodeWorks(s: Store, e: Event, c: Event)
    requires Inv(s) && e.Send? && NewLink(s.rows, e).Some? && c.Consume?
    requires var link := NewLink(s.rows, e).value;
             Sanitize(c.code) == Some(link.code) && c.now <= e.now + EXPIRATION && c.owner in {None, Some(e.user)}
             && c.purposes in {None, Some({link.purpose}), Some(Slot(link.purpose))} && c.newEmail in {None, link.newEmail}
    ensures Consumed(Step(s, e).rows, c) == Some(s.nextId)
  {
    StepKeepsInv(s, e);
    MatchIsUnique(Step(s, e).rows, c, s.nextId);
  }

  // ---- What a consumed code answers

  lemma MatchingAnswers(l: MagicLink, e: Event)
    requires e.Consume?
    ensures Matches(l, e) <==> Answers(l, e.owner, e.code, e.purposes, e.newEmail, e.now)
  {
    hide Strip, Digits;
  }

  /** Send `i` of the run is what row `l` holds. */
  predicate SentAs(run: seq<Event>, i: nat, l: MagicLink) {
    && i < |run| && run[i].Send? && run[i].user == l.user && run[i].newEmail == l.newEmail
    && l.purpose == (if run[i].purpose.Some? then run[i].purpose.value else SignIn)
    && l.expiresAt == run[i].now + 15 * MINUTE && l.code in run[i].candidates
  }

  lemma RowWasSent(s: Store, e: Event, k: Id)
    requires k in Step(s, e).rows
    ensures (k in s.rows && s.rows[k] == Step(s, e).rows[k]) || SentAs([e], 0, Step(s, e).rows[k])
  {
    hide CodeTaken, FirstUnused;
  }

  lemma {:induction false} RowsWereSent(s: Store, run: seq<Event>, k: Id)
    requires k in Run(s, run).rows
    ensures (k in s.rows && s.rows[k] == Run(s, run).rows[k]) || exists i: nat :: SentAs(run, i, Run(s, run).rows[k])
    decreases run
  {
    hide Step;
    if run != [] {
      var s', l := Step(s, run[0]), Run(s, run).rows[k];
      RowsWereSent(s', run[1..], k);
      if i: nat :| SentAs(run[1..], i, l) {
        assert SentAs(run, i + 1, l);
      } else {
        RowWasSent(s, run[0], k);
        assert SentAs([run[0]], 0, l) ==> SentAs(run, 0, l);
      }
    }
  }

  /** Whatever a consume hands out was sent to that user at most fifteen minutes before, for
      a purpose it asked for and to the new address it asked for, with that very code. */
  lemma ConsumedWasSent(run: seq<Event>, c: Event, k: Id)
    requires c.Consume? && Consumed(Run(NOTHING, run).rows, c) == Some(k)
    ensures exists i: nat :: i < |run| && run[i].Send?
              && c.owner in {None, Some(run[i].user)}
              && (c.purposes.Some? ==> (if run[i].purpose.Some? then run[i].purpose.value else SignIn) in c.purposes.value)
              && (c.newEmail.Some? && Strip(c.newEmail.value) != "" ==> run[i].newEmail == c.newEmail)
              && Digits(c.code) in run[i].candidates && c.now <= run[i].now + 15 * MINUTE
  {
    var l := Run(NOTHING, run).rows[k];
    RowsWereSent(NOTHING, run, k);
    MatchingAnswers(l, c);
    hide Run, Matches, Strip, Digits;
    var i: nat :| SentAs(run, i, l);
  }

  /** A send creates its row exactly when a candidate is free once the slot is, and an
      address change names a valid new address; otherwise it leaves the old rows. */
  lemma SendCommitsIff(s: Store, e: Event)
    requires Inv(s) && e.Send?
    ensures var (p, later) := (if e.purpose.Some? then e.purpose.value else SignIn, Step(s, e));
            if (exists code :: code in e.candidates && Usable(s.rows, e.user, p, code))
               && (p == EmailChange ==> e.emailOk && e.newEmail.Some? && Strip(e.newEmail.value) != "")
            then s.nextId in later.rows && SentAs([e], 0, later.rows[s.nextId])
                 && forall k :: k in later.rows && k != s.nextId <==> k in s.rows && !(s.rows[k].user == e.user && SharesSlot(s.rows[k].purpose, p))
            else later == s
  {
    var p := if e.purpose.Some? then e.purpose.value else SignIn;
    FirstUnusedIff(e.candidates, FreeSlot(s.rows, e.user, p));
    forall code ensures CodeTaken(FreeSlot(s.rows, e.user, p), code) <==> !Usable(s.rows, e.user, p, code) {
      FreedIff(s.rows, e.user, p, code);
    }
    hide CodeTaken, Usable, FirstUnused, Strip;
  }

  predicate SharesSlot(p: Purpose, q: Purpose) {
    p == q || (p in {SignIn, SignUp} && q in {SignIn, SignUp})
  }

  /** No row outside the slot has the code. */
  predicate Usable(rows: Rows, user: Id, p: Purpose, code: string) {
    forall k :: k in rows && rows[k].code == code ==> rows[k].user == user && SharesSlot(rows[k].purpose, p)
  }

  lemma FreedIff(rows: Rows, user: Id, p: Purpose, code: string)
    ensures CodeTaken(FreeSlot(rows, user, p), code) <==> !Usable(rows, user, p, code)
  {
    var rest := FreeSlot(rows, user, p);
    forall k | k in rows ensures k in rest <==> !(rows[k].user == user && SharesSlot(rows[k].purpose, p)) {
    }
    if k :| k in rows && rows[k].code == code && !(rows[k].user == user && SharesSlot(rows[k].purpose, p)) {
      assert rest[k].code == code;
    }
  }

  lemma {:induction false} FirstUnusedIff(candidates: seq<string>, rows: Rows)
    ensures FirstUnused(candidates, rows).Some? <==> exists code :: code in candidates && !CodeTaken(rows, code)
  {
    hide CodeTaken;
    if candidates != [] {
      FirstUnusedIff(candidates[1..], rows);
      assert forall code :: code in candidates <==> code == candidates[0] || code in candidates[1..];
    }
  }

  /** A row goes when it is handed out, superseded, cleaned up after its time, or its user
      goes, and for no other reason; until then it stays as it was sent. */
  lemma RowGoesIff(s: Store, e: Event, k: Id)
    requires Inv(s) && k in s.rows
    ensures var l := s.rows[k];
            k !in Step(s, e).rows <==>
              match e
              case Send(u, purpose, _, _, _, _) =>
                s.nextId in Step(s, e).rows && l.user == u && SharesSlot(l.purpose, if purpose.Some? then purpose.value else SignIn)
              case Consume(owner, code, purposes, newEmail, now) => Answers(l, owner, code, purposes, newEmail, now)
              case Cleanup(now) => l.expiresAt <= now
              case DropUser(u) => l.user == u
    ensures k in Step(s, e).rows ==> Step(s, e).rows[k] == s.rows[k]
  {
    match e
    case Send(u, _, _, _, _, _) => hide FirstUnused;
    case Consume(_, _, _, _, _) =>
      MatchingAnswers(s.rows[k], e);
      MatchIsUnique(s.rows, e, k);
      hide Matches, Answers;
    case _ =>
  }
}

/** The virus-scan status of uploaded files: attaching, sweeping, scanning with
    retries, and the guard in front of every download. */
module VirusScan {
  import opened Common

  datatype Status = Pending | Clean | Failed

  /** `status` is what the metadata records, if anything. */
  datatype Blob = Blob(status: Option<Status>, createdAt: Time)

  /** `covered` says whether the record's class has this attachment scanned. */
  datatype Attachment = Attachment(blob: Id, covered: bool)

  /** A queued scan with the attempts that ended in an error and in an unavailable scanner. */
  datatype Job = Job(blob: Id, errors: nat, unavailable: nat)

  /** A blob as a file analysis loaded it, with the status its metadata recorded then. */
  datatype Copy = Copy(blob: Id, status: Option<Status>)

  /** `marked` are the processes between marking a blob pending and queueing its job,
      `loaded` the analyses between loading a blob and saving its metadata; `cleared`
      the blobs some scan found clean; ids below `nextId` have been used. */
  datatype State = State(blobs: map<Id, Blob>, attachments: map<Id, Attachment>, marked: multiset<Id>, jobs: multiset<Job>,
                         loaded: multiset<Copy>, cleared: set<Id>, nextId: Id)

  const EMPTY := State(map[], map[], multiset{}, multiset{}, multiset{}, {}, 0)

  const GRACE_PERIOD: Time := HOUR
  const ERROR_ATTEMPTS: nat := 3
  const UNAVAILABLE_ATTEMPTS: nat := 5

  datatype ScanResult = FoundClean | FoundInfected | ScannerUnavailable | ScannerError

  datatype Event =
    | Upload(now: Time)
    | Attach(blob: Id, covered: bool)
    | Detach(attachment: Id)
    | Mark(attachment: Id)
    | Push(blob: Id)
    | Crash(blob: Id)
    | SweepItem(attachment: Id, seen: Option<Status>)
    | Perform(job: Job, result: ScanResult)
    | LoseJob(job: Job)
    | Load(blob: Id)
    | Save(copy: Copy)
    | Discard(copy: Copy)

  // ---- What each operation does

  function Recorded(s: State, b: Id): Option<Status> {
    if b in s.blobs then s.blobs[b].status else None
  }

  function WithStatus(s: State, b: Id, status: Status): State {
    if b in s.blobs then s.(blobs := s.blobs[b := s.blobs[b].(status := Some(status))]) else s
  }

  /** The locked part of enqueue_scan. */
  function AfterMark(s: State, b: Id): State {
    if b in s.blobs && s.blobs[b].status.None?
    then WithStatus(s, b, Pending).(marked := s.marked + multiset{b})
    else s
  }

  /** perform_later behind it. */
  function AfterPush(s: State, b: Id): State {
    if b in s.marked then s.(marked := s.marked - multiset{b}, jobs := s.jobs + multiset{Job(b, 0, 0)}) else s
  }

  /** One attachment of a sweep that was loaded when its blob's status read `seen`. */
  function AfterSweepItem(s: State, a: Id, seen: Option<Status>): State {
    if a !in s.attachments || !s.attachments[a].covered then s
    else
      var b := s.attachments[a].blob;
      if seen.Some? then s.(jobs := s.jobs + multiset{Job(b, 0, 0)})
      else if AfterMark(s, b) == s then s
      else AfterPush(AfterMark(s, b), b)
  }

  /** Purging every attachment of the blob takes the blob along. */
  function Purged(s: State, b: Id): State {
    s.(blobs := s.blobs - {b}, attachments := map a | a in s.attachments && s.attachments[a].blob != b :: s.attachments[a])
  }

  /** perform's result, with the job already taken off the queue. */
  function AfterResult(s: State, j: Job, result: ScanResult): State {
    match result
    case FoundClean => WithStatus(s, j.blob, Clean).(cleared := s.cleared + {j.blob})
    case FoundInfected => Purged(s, j.blob)
    case ScannerUnavailable =>
      if j.unavailable + 1 < UNAVAILABLE_ATTEMPTS
      then s.(jobs := s.jobs + multiset{j.(unavailable := j.unavailable + 1)})
      else s
    case ScannerError =>
      if j.errors + 1 < ERROR_ATTEMPTS
      then s.(jobs := s.jobs + multiset{j.(errors := j.errors + 1)})
      else WithStatus(s, j.blob, Failed)
  }

  function AfterPerform(s: State, j: Job, result: ScanResult): State {
    var rest := s.(jobs := s.jobs - multiset{j});
    if j !in s.jobs then s
    else if j.blob !in s.blobs then rest
    else AfterResult(rest, j, result)
  }

  /** An analysis saves the whole metadata column from its copy, without lock or reload. */
  function AfterSave(s: State, c: Copy): State {
    if c !in s.loaded then s
    else
      var rest := s.(loaded := s.loaded - multiset{c});
      if c.blob in s.blobs then rest.(blobs := s.blobs[c.blob := s.blobs[c.blob].(status := c.status)]) else rest
  }

  function Step(s: State, e: Event): State {
    match e
    case Upload(now) => s.(blobs := s.blobs[s.nextId := Blob(None, now)], nextId := s.nextId + 1)
    case Attach(b, covered) =>
      if b in s.blobs then s.(attachments := s.attachments[s.nextId := Attachment(b, covered)], nextId := s.nextId + 1) else s
    case Detach(a) => s.(attachments := s.attachments - {a})
    case Mark(a) => if a in s.attachments && s.attachments[a].covered then AfterMark(s, s.attachments[a].blob) else s
    case Push(b) => AfterPush(s, b)
    case Crash(b) => s.(marked := s.marked - multiset{b})
    case SweepItem(a, seen) => AfterSweepItem(s, a, seen)
    case Perform(j, result) => AfterPerform(s, j, result)
    case LoseJob(j) => s.(jobs := s.jobs - multiset{j})
    case Load(b) => if b in s.blobs then s.(loaded := s.loaded + multiset{Copy(b, s.blobs[b].status)}) else s
    case Save(c) => AfterSave(s, c)
    case Discard(c) => s.(loaded := s.loaded - multiset{c})
  }

  // ---- The guard

  predicate Covered(s: State, b: Id) {
    exists a :: a in s.attachments && s.attachments[a].blob == b && s.attachments[a].covered
  }

  /** scan_status */
  function ScanStatus(s: State, b: Id): Option<Status> {
    if Recorded(s, b).Some? then Recorded(s, b) else if Covered(s, b) then Some(Pending) else None
  }

  /** reject_unscanned_blob lets the request through. */
  predicate Served(s: State, b: Id) {
    b in s.blobs && ScanStatus(s, b) in [None, Some(Clean)]
  }

  // ---- Status over a run

  /** Only a clean scan records a clean status, and only a recorded one is copied; ids
      are never handed out twice. */
  ghost predicate Inv(s: State) {
    && (forall b :: b in s.blobs ==> b < s.nextId && (s.blobs[b].status == Some(Clean) ==> b in s.cleared))
    && (forall a :: a in s.attachments ==> a < s.nextId)
    && (forall c :: c in s.loaded ==> c.blob < s.nextId && (c.status == Some(Clean) ==> c.blob in s.cleared))
  }

  predicate IsFinal(status: Option<Status>) { status in [Some(Clean), Some(Failed)] }

  predicate Final(s: State, b: Id) { b in s.blobs && IsFinal(s.blobs[b].status) }

  /** No analysis is under way that loaded `b` before its status was final. */
  predicate NoStaleCopy(s: State, b: Id) {
    forall c :: c in s.loaded && c.blob == b ==> IsFinal(c.status)
  }

  /** What every step keeps. */
  ghost predicate Keeps(s: State, later: State) {
    Inv(later) && s.nextId <= later.nextId && forall b :: b in later.blobs && b < s.nextId ==> b in s.blobs
  }

  /** What every step but an analysis's save keeps, too. */
  ghost predicate KeepsFinal(s: State, later: State) {
    && (forall b :: b in later.blobs && Final(s, b) ==> Final(later, b))
    && (forall c :: c in later.loaded ==> c in s.loaded || (c.blob in s.blobs && c.status == s.blobs[c.blob].status))
  }

  lemma StatusKeeps(s: State, b: Id, status: Status)
    requires Inv(s) && (status == Clean ==> b in s.cleared) && (status == Pending ==> Recorded(s, b).None?)
    ensures Keeps(s, WithStatus(s, b, status)) && KeepsFinal(s, WithStatus(s, b, status))
  {
  }

  lemma QueueKeeps(s: State, marked: multiset<Id>, jobs: multiset<Job>, cleared: set<Id>)
    requires Inv(s) && s.cleared <= cleared
    ensures var later := s.(marked := marked, jobs := jobs, cleared := cleared); Keeps(s, later) && KeepsFinal(s, later)
  {
  }

  lemma PurgeKeeps(s: State, b: Id)
    requires Inv(s)
    ensures Keeps(s, Purged(s, b)) && KeepsFinal(s, Purged(s, b))
  {
  }

  lemma PerformKeeps(s: State, j: Job, result: ScanResult)
    requires Inv(s)
    ensures Keeps(s, AfterPerform(s, j, result)) && KeepsFinal(s, AfterPerform(s, j, result))
  {
    var later := AfterPerform(s, j, result);
    var queue := s.(jobs := later.jobs, cleared := later.cleared);
    QueueKeeps(s, s.marked, later.jobs, later.cleared);
    hide Inv, Keeps, KeepsFinal;
    match result
    case FoundClean => if j in s.jobs && j.blob in s.blobs { CleanKeeps(s, j); }
    case FoundInfected => PurgeKeeps(queue, j.blob); LaterKeeps(s, queue, Purged(queue, j.blob));
    case ScannerError => StatusKeeps(queue, j.blob, Failed); LaterKeeps(s, queue, WithStatus(queue, j.blob, Failed));
    case ScannerUnavailable =>
  }

  lemma CleanKeeps(s: State, j: Job)
    requires Inv(s) && j in s.jobs && j.blob in s.blobs
    ensures Keeps(s, AfterPerform(s, j, FoundClean)) && KeepsFinal(s, AfterPerform(s, j, FoundClean))
  {
    var queue := s.(jobs := s.jobs - multiset{j}, cleared := s.cleared + {j.blob});
    QueueKeeps(s, s.marked, queue.jobs, queue.cleared);
    StatusKeeps(queue, j.blob, Clean);
    LaterKeeps(s, queue, WithStatus(queue, j.blob, Clean));
    hide Inv;
  }

  lemma LaterKeeps(s: State, queue: State, later: State)
    requires queue.blobs == s.blobs && queue.loaded == s.loaded && queue.nextId == s.nextId && Keeps(queue, later) && KeepsFinal(queue, later)
    ensures Keeps(s, later) && KeepsFinal(s, later)
  {
    hide Inv;
  }

  lemma SweepItemKeeps(s: State, a: Id, seen: Option<Status>)
    requires Inv(s)
    ensures Keeps(s, AfterSweepItem(s, a, seen)) && KeepsFinal(s, AfterSweepItem(s, a, seen))
  {
    var later := AfterSweepItem(s, a, seen);
    QueueKeeps(s, later.marked, later.jobs, s.cleared);
    if later.blobs != s.blobs {
      var b := s.attachments[a].blob;
      StatusKeeps(s.(marked := later.marked, jobs := later.jobs), b, Pending);
    }
    hide Inv;
  }

  lemma MarkKeeps(s: State, b: Id)
    requires Inv(s)
    ensures Keeps(s, AfterMark(s, b)) && KeepsFinal(s, AfterMark(s, b))
  {
    if Recorded(s, b).None? {
      StatusKeeps(s, b, Pending);
    }
  }

  lemma RowsKeep(s: State, e: Event)
    requires Inv(s) && (e.Upload? || e.Attach? || e.Detach?)
    ensures Keeps(s, Step(s, e)) && KeepsFinal(s, Step(s, e))
  {
  }

  lemma CopiesKeep(s: State, e: Event)
    requires Inv(s) && (e.Load? || e.Discard?)
    ensures Keeps(s, Step(s, e)) && KeepsFinal(s, Step(s, e))
  {
  }

  lemma SaveKeeps(s: State, c: Copy)
    requires Inv(s)
    ensures Keeps(s, AfterSave(s, c))
  {
  }

  lemma StepKeeps(s: State, e: Event)
    requires Inv(s)
    ensures Keeps(s, Step(s, e)) && (e.Save? || KeepsFinal(s, Step(s, e)))
  {
    hide Inv, Keeps, KeepsFinal, AfterPerform, AfterSweepItem, AfterMark, AfterSave;
    QueueKeeps(s, Step(s, e).marked, Step(s, e).jobs, s.cleared);
    match e
    case Perform(j, result) => PerformKeeps(s, j, result);
    case SweepItem(a, seen) => SweepItemKeeps(s, a, seen);
    case Mark(a) => if a in s.attachments { MarkKeeps(s, s.attachments[a].blob); }
    case Save(c) => SaveKeeps(s, c);
    case Push(_) =>
    case Crash(_) =>
    case LoseJob(_) =>
    case Load(_) => CopiesKeep(s, e);
    case Discard(_) => CopiesKeep(s, e);
    case _ => RowsKeep(s, e);
  }

  /** One step undoes a final status exactly when it is an analysis saving a copy that
      was loaded before the status was final. */
  lemma FinalIsUndoneIff(s: State, e: Event, b: Id)
    requires Inv(s) && Final(s, b) && b in Step(s, e).blobs
    ensures !Final(Step(s, e), b) <==> e.Save? && e.copy in s.loaded && e.copy.blob == b && !IsFinal(e.copy.status)
  {
    StepKeeps(s, e);
    if !e.Save? {
      hide Step, Inv, IsFinal;
    }
  }

  function Run(s: State, run: seq<Event>): State
    decreases run
  {
    if run == [] then s else Run(Step(s, run[0]), run[1..])
  }

  lemma RunFirst(s: State, e: Event, rest: seq<Event>)
    ensures Run(s, [e] + rest) == Run(Step(s, e), rest)
  {
    assert ([e] + rest)[1..] == rest;
  }

  lemma {:induction false} RunKeepsInv(s: State, run: seq<Event>)
    requires Inv(s)
    ensures Inv(Run(s, run))
    decreases run
  {
    if run != [] {
      StepKeeps(s, run[0]);
      RunKeepsInv(Step(s, run[0]), run[1..]);
    }
  }

  /** Event `i` of the run is a scan of `b` that found it clean. */
  ghost predicate ScannedClean(s: State, run: seq<Event>, i: nat, b: Id) {
    i < |run| && run[i].Perform? && run[i].result == FoundClean && run[i].job.blob == b && run[i].job in Run(s, run[..i]).jobs
  }

  lemma ClearedByScan(s: State, e: Event, b: Id)
    requires b in Step(s, e).cleared && b !in s.cleared
    ensures e.Perform? && e.result == FoundClean && e.job.blob == b && e.job in s.jobs
  {
  }

  lemma {:induction false} ClearedWasScanned(s: State, run: seq<Event>, b: Id)
    requires b in Run(s, run).cleared
    ensures b in s.cleared || exists i: nat :: ScannedClean(s, run, i, b)
    decreases run
  {
    hide Step;
    if run != [] {
      var s', rest := Step(s, run[0]), run[1..];
      ClearedWasScanned(s', rest, b);
      if b !in s'.cleared {
        var i: nat :| ScannedClean(s', rest, i, b);
        assert run[..i + 1][1..] == rest[..i];
        assert ScannedClean(s, run, i + 1, b);
      } else if b !in s.cleared {
        ClearedByScan(s, run[0], b);
        assert run[..0] == [];
        assert ScannedClean(s, run, 0, b);
      }
    }
  }

  /** A covered file is served only after some scan of it came back clean. */
  lemma ServedWasScanned(run: seq<Event>, b: Id)
    requires Served(Run(EMPTY, run), b) && Covered(Run(EMPTY, run), b)
    ensures exists i: nat :: ScannedClean(EMPTY, run, i, b)
  {
    RunKeepsInv(EMPTY, run);
    ClearedWasScanned(EMPTY, run, b);
  }

  lemma {:induction false} GoneStaysGone(s: State, run: seq<Event>, b: Id)
    requires Inv(s) && b < s.nextId && b !in s.blobs
    ensures b !in Run(s, run).blobs
    decreases run
  {
    if run != [] {
      StepKeeps(s, run[0]);
      GoneStaysGone(Step(s, run[0]), run[1..], b);
    }
  }

  lemma StepKeepsFinal(s: State, e: Event, b: Id)
    requires Inv(s) && Final(s, b) && NoStaleCopy(s, b)
    ensures NoStaleCopy(Step(s, e), b) && (b in Step(s, e).blobs ==> Final(Step(s, e), b))
  {
    StepKeeps(s, e);
    if e.Save? {
      hide Inv;
    } else {
      hide Step, Inv, IsFinal;
    }
  }

  lemma {:induction false} FinalStaysFinal(s: State, run: seq<Event>, b: Id)
    requires Inv(s) && Final(s, b) && NoStaleCopy(s, b)
    ensures FinalAfter(s, run, b)
    decreases run
  {
    hide Step, Final, NoStaleCopy;
    if run != [] {
      StepKeeps(s, run[0]);
      StepKeepsFinal(s, run[0], b);
      assert b < s.nextId by { FinalIsKnown(s, b); }
      hide Inv;
      var s' := Step(s, run[0]);
      if b in s'.blobs {
        FinalStaysFinal(s', run[1..], b);
      } else {
        GoneStaysGone(s', run[1..], b);
      }
    }
  }

  lemma FinalIsKnown(s: State, b: Id)
    requires Inv(s) && Final(s, b)
    ensures b < s.nextId
  {
  }

  /** If the file is still there after the run, its status is final. */
  ghost predicate FinalAfter(s: State, run: seq<Event>, b: Id) {
    b in Run(s, run).blobs ==> Final(Run(s, run), b)
  }

  /** A clean or failed status survives every later run exactly when no analysis is under
      way that loaded the file before: such an analysis is all that takes it back. */
  lemma FinalSurvivesIff(s: State, b: Id)
    requires Inv(s) && Final(s, b)
    ensures (forall run :: FinalAfter(s, run, b)) <==> NoStaleCopy(s, b)
  {
    if NoStaleCopy(s, b) {
      forall run ensures FinalAfter(s, run, b) { FinalStaysFinal(s, run, b); }
    } else {
      var c :| c in s.loaded && c.blob == b && !IsFinal(c.status);
      RunFirst(s, Save(c), []);
      assert [Save(c)] + [] == [Save(c)];
      assert !FinalAfter(s, [Save(c)], b);
    }
  }

  /** One file, uploaded and attached under a covered name. */
  function Attached(): (s: State)
    ensures s.blobs == map[0 := Blob(None, 0)] && s.attachments == map[1 := Attachment(0, true)]
  {
    Step(Step(EMPTY, Upload(0)), Attach(0, true))
  }

  /** It happens: an analysis that loaded the file while its scan was pending saves after
      the clean result. Nothing is queued then, and the file is refused until a sweep. */
  lemma AnalysisTakesCleanToPending()
    ensures var s := Run(EMPTY, [Upload(0)] + ([Attach(0, true)] + ([Mark(1)] + ([Load(0)] + Undoing(Some(Pending))))));
            0 in s.cleared && Recorded(s, 0) == Some(Pending) && s.jobs == multiset{} && !Served(s, 0)
  {
    var (s1, s2) := (Step(EMPTY, Upload(0)), Attached());
    var s3 := Step(s2, Mark(1));
    var s4 := Step(s3, Load(0));
    assert s4 == Attached().(blobs := map[0 := Blob(Some(Pending), 0)], marked := multiset{0}, loaded := multiset{Copy(0, Some(Pending))});
    CleanThenSaved(s4, Some(Pending));
    var undo := Undoing(Some(Pending));
    hide Run, Step, Undoing;
    RunFirst(s3, Load(0), undo);
    RunFirst(s2, Mark(1), [Load(0)] + undo);
    RunFirst(s1, Attach(0, true), [Mark(1)] + ([Load(0)] + undo));
    RunFirst(EMPTY, Upload(0), [Attach(0, true)] + ([Mark(1)] + ([Load(0)] + undo)));
  }

  /** Loaded before the marking, the same analysis takes the status back to none. */
  lemma AnalysisTakesCleanToNone()
    ensures var s := Run(EMPTY, [Upload(0)] + ([Attach(0, true)] + ([Load(0)] + ([Mark(1)] + Undoing(None)))));
            0 in s.cleared && Recorded(s, 0) == None && s.jobs == multiset{} && !Served(s, 0)
  {
    var (s1, s2) := (Step(EMPTY, Upload(0)), Attached());
    var s3 := Step(s2, Load(0));
    var s4 := Step(s3, Mark(1));
    assert s4 == Attached().(blobs := map[0 := Blob(Some(Pending), 0)], marked := multiset{0}, loaded := multiset{Copy(0, None)});
    CleanThenSaved(s4, None);
    var undo := Undoing(None);
    hide Run, Step, Undoing;
    RunFirst(s3, Mark(1), undo);
    RunFirst(s2, Load(0), [Mark(1)] + undo);
    RunFirst(s1, Attach(0, true), [Load(0)] + ([Mark(1)] + undo));
    RunFirst(EMPTY, Upload(0), [Attach(0, true)] + ([Load(0)] + ([Mark(1)] + undo)));
  }

  /** The job is queued, the scan comes back clean, and the analysis saves what it had loaded. */
  function Undoing(seen: Option<Status>): seq<Event> {
    [Push(0)] + ([Perform(Job(0, 0, 0), FoundClean)] + ([Save(Copy(0, seen))] + []))
  }

  predicate AwaitsScan(s: State, seen: Option<Status>) {
    && s.blobs == map[0 := Blob(Some(Pending), 0)] && s.attachments == map[1 := Attachment(0, true)]
    && s.marked == multiset{0} && s.jobs == multiset{} && s.loaded == multiset{Copy(0, seen)} && seen in [None, Some(Pending)]
  }

  lemma PushedAndScanned(s: State, seen: Option<Status>)
    requires AwaitsScan(s, seen)
    ensures var later := Step(Step(s, Push(0)), Perform(Job(0, 0, 0), FoundClean));
            && later.blobs == map[0 := Blob(Some(Clean), 0)] && later.attachments == s.attachments
            && later.jobs == multiset{} && later.loaded == s.loaded && 0 in later.cleared
  {
    assert Step(s, Push(0)).jobs == multiset{Job(0, 0, 0)};
  }

  lemma CleanThenSaved(s: State, seen: Option<Status>)
    requires AwaitsScan(s, seen)
    ensures var later := Run(s, Undoing(seen));
            0 in later.cleared && Recorded(later, 0) == seen && later.jobs == multiset{} && !Served(later, 0)
  {
    var pushed := Step(s, Push(0));
    var scanned := Step(pushed, Perform(Job(0, 0, 0), FoundClean));
    var saved := Step(scanned, Save(Copy(0, seen)));
    PushedAndScanned(s, seen);
    hide AfterPush, AfterPerform;
    RunFirst(s, Push(0), [Perform(Job(0, 0, 0), FoundClean)] + ([Save(Copy(0, seen))] + []));
    RunFirst(pushed, Perform(Job(0, 0, 0), FoundClean), [Save(Copy(0, seen))] + []);
    RunFirst(scanned, Save(Copy(0, seen)), []);
    assert Run(saved, []) == saved;
    hide Run;
    assert 1 in saved.attachments && saved.attachments[1].covered;
  }

  // ---- Failure

  predicate FailsIn(s: State, e: Event, b: Id) {
    e.Perform? && e.result == ScannerError && e.job in s.jobs && e.job.blob == b && b in s.blobs
  }

  /** How many scans of `b` in the run ended in an error. */
  function Errors(s: State, run: seq<Event>, b: Id): nat
    decreases run
  {
    if run == [] then 0 else (if FailsIn(s, run[0], b) then 1 else 0) + Errors(Step(s, run[0]), run[1..], b)
  }

  /** `n` errors account for every attempt a job carries, and three for a recorded or copied failure. */
  ghost predicate Owed(s: State, b: Id, n: nat) {
    && (forall j :: j in s.jobs && j.blob == b ==> j.errors <= n)
    && (Recorded(s, b) == Some(Failed) ==> 3 <= n)
    && (forall c :: c in s.loaded && c.blob == b && c.status == Some(Failed) ==> 3 <= n)
  }

  lemma PerformOwes(s: State, j: Job, result: ScanResult, b: Id, n: nat)
    requires Owed(s, b, n)
    ensures Owed(AfterPerform(s, j, result), b, if FailsIn(s, Perform(j, result), b) then n + 1 else n)
  {
  }

  lemma SweepItemOwes(s: State, a: Id, seen: Option<Status>, b: Id, n: nat)
    requires Owed(s, b, n)
    ensures Owed(AfterSweepItem(s, a, seen), b, n)
  {
  }

  lemma MarkOwes(s: State, a: Id, b: Id, n: nat)
    requires Owed(s, a, n)
    ensures Owed(AfterMark(s, b), a, n) && Owed(AfterPush(s, b), a, n)
  {
  }

  lemma CopyOwes(s: State, e: Event, b: Id, n: nat)
    requires Owed(s, b, n) && (e.Load? || e.Discard? || e.LoseJob? || e.Crash?)
    ensures Owed(Step(s, e), b, n)
  {
  }

  lemma SaveOwes(s: State, c: Copy, b: Id, n: nat)
    requires Owed(s, b, n)
    ensures Owed(AfterSave(s, c), b, n)
  {
  }

  lemma RowsOwe(s: State, e: Event, b: Id, n: nat)
    requires Inv(s) && Owed(s, b, n) && (e.Upload? || e.Attach? || e.Detach?)
    ensures Owed(Step(s, e), b, n)
  {
  }

  lemma StepOwes(s: State, e: Event, b: Id, n: nat)
    requires Inv(s) && Owed(s, b, n)
    ensures Owed(Step(s, e), b, if FailsIn(s, e, b) then n + 1 else n)
  {
    hide Inv, Owed, AfterPerform, AfterSweepItem, AfterMark, AfterPush, AfterSave;
    match e
    case Perform(j, result) => PerformOwes(s, j, result, b, n);
    case SweepItem(a, seen) => SweepItemOwes(s, a, seen, b, n);
    case Mark(a) => if a in s.attachments { MarkOwes(s, b, s.attachments[a].blob, n); }
    case Push(c) => MarkOwes(s, b, c, n);
    case Save(c) => SaveOwes(s, c, b, n);
    case Upload(_) => RowsOwe(s, e, b, n);
    case Attach(_, _) => RowsOwe(s, e, b, n);
    case Detach(_) => RowsOwe(s, e, b, n);
    case _ => CopyOwes(s, e, b, n);
  }

  lemma {:induction false} RunOwes(s: State, run: seq<Event>, b: Id, n: nat)
    requires Inv(s) && Owed(s, b, n)
    ensures Owed(Run(s, run), b, n + Errors(s, run, b))
    decreases run
  {
    hide Inv, Owed, Step;
    if run != [] {
      StepKeeps(s, run[0]);
      StepOwes(s, run[0], b, n);
      KeepsInv(s, Step(s, run[0]));
      RunOwes(Step(s, run[0]), run[1..], b, if FailsIn(s, run[0], b) then n + 1 else n);
    }
  }

  lemma KeepsInv(s: State, later: State)
    requires Keeps(s, later)
    ensures Inv(later)
  {
  }

  /** A failed status means that at least three scans of the file ended in an error. */
  lemma FailedMeansThreeErrors(run: seq<Event>, b: Id)
    requires Recorded(Run(EMPTY, run), b) == Some(Failed)
    ensures Errors(EMPTY, run, b) >= 3
  {
    RunOwes(EMPTY, run, b, 0);
  }

  // ---- What a scan leaves

  /** Nothing but file `b` and the queue differ. */
  ghost predicate OthersStay(s: State, later: State, b: Id) {
    && (forall c :: c != b ==> (c in later.blobs <==> c in s.blobs) && (c in s.blobs ==> later.blobs[c] == s.blobs[c]))
    && (forall a :: a in later.attachments ==> a in s.attachments && later.attachments[a] == s.attachments[a])
    && (forall a :: a in s.attachments && s.attachments[a].blob != b ==> a in later.attachments)
    && later.marked == s.marked && later.loaded == s.loaded && later.nextId == s.nextId
  }

  /** The job is over: an infected file is gone with every attachment, a clean one is
      recorded clean, the third error records failed, and the fifth time the scanner is
      unavailable ends the job with the status it had. Before that the job is queued again
      with one attempt more. */
  lemma ScanOutcome(s: State, j: Job, result: ScanResult)
    requires j in s.jobs && j.blob in s.blobs
    ensures var later := Step(s, Perform(j, result));
            var (b, rest) := (j.blob, s.jobs - multiset{j});
            && OthersStay(s, later, b)
            && match result
               case FoundInfected =>
                 later.jobs == rest && b !in later.blobs && forall a :: a in later.attachments ==> later.attachments[a].blob != b
               case FoundClean => later.jobs == rest && later.attachments == s.attachments && Recorded(later, b) == Some(Clean)
               case ScannerError =>
                 && later.attachments == s.attachments
                 && if j.errors >= 2 then later.jobs == rest && Recorded(later, b) == Some(Failed)
                    else later.jobs == rest + multiset{Job(b, j.errors + 1, j.unavailable)} && later.blobs == s.blobs
               case ScannerUnavailable =>
                 && later.attachments == s.attachments && later.blobs == s.blobs
                 && later.jobs == if j.unavailable >= 4 then rest else rest + multiset{Job(b, j.errors, j.unavailable + 1)}
  {
  }

  /** A file some scan found infected is never served again, in any later state. */
  lemma InfectedIsNeverServed(s: State, j: Job, run: seq<Event>)
    requires Inv(s) && j in s.jobs && j.blob in s.blobs
    ensures var later := Run(Step(s, Perform(j, FoundInfected)), run); j.blob !in later.blobs && !Served(later, j.blob)
  {
    var s' := Step(s, Perform(j, FoundInfected));
    StepKeeps(s, Perform(j, FoundInfected));
    GoneStaysGone(s', run, j.blob);
  }

  /** Served is exactly a file recorded clean, or one no covered attachment holds and no
      status is recorded for. */
  lemma ServedIff(s: State, b: Id)
    ensures Served(s, b) <==>
            b in s.blobs && (s.blobs[b].status == Some(Clean) ||
                             (s.blobs[b].status.None? && forall a :: a in s.attachments && s.attachments[a].blob == b ==> !s.attachments[a].covered))
  {
  }

  // ---- The sweep

  predicate Queued(jobs: multiset<Job>, b: Id) {
    exists j :: j in jobs && j.blob == b
  }

  /** A sweep item leaves a job behind, unless the status it was loaded with has been
      overtaken: read as none, recorded by now, and whoever recorded it has not queued. */
  lemma SweepItemQueuesIff(s: State, a: Id, seen: Option<Status>)
    requires a in s.attachments && s.attachments[a].covered && s.attachments[a].blob in s.blobs
    ensures var b := s.attachments[a].blob;
            Queued(AfterSweepItem(s, a, seen).jobs, b) <==> seen.Some? || Recorded(s, b).None? || Queued(s.jobs, b)
  {
    var b, later := s.attachments[a].blob, AfterSweepItem(s, a, seen);
    if seen.Some? || Recorded(s, b).None? {
      assert Job(b, 0, 0) in later.jobs;
    } else {
      assert later == s;
    }
  }

  /** Overtaken by a process that dies between marking and queueing, the sweep leaves none. */
  lemma OvertakenSweepMisses(s: State, a: Id)
    requires a in s.attachments && s.attachments[a].covered && s.attachments[a].blob in s.blobs
    requires Recorded(s, s.attachments[a].blob).None? && !Queued(s.jobs, s.attachments[a].blob)
    ensures var b := s.attachments[a].blob;
            var later := Run(s, [Mark(a), Crash(b), SweepItem(a, None)]);
            Recorded(later, b) == Some(Pending) && !Queued(later.jobs, b)
  {
    var b := s.attachments[a].blob;
    var s1 := Step(s, Mark(a));
    var s2 := Step(s1, Crash(b));
    var s3 := Step(s2, SweepItem(a, None));
    assert Run(s3, []) == s3;
    assert Run(s2, [SweepItem(a, None)]) == s3;
    assert Run(s1, [Crash(b), SweepItem(a, None)]) == s3;
  }

  /** unscanned_files */
  predicate Unscanned(s: State, a: Id, now: Time) {
    && a in s.attachments && s.attachments[a].blob in s.blobs
    && s.blobs[s.attachments[a].blob].createdAt < now - GRACE_PERIOD
    && s.blobs[s.attachments[a].blob].status in [None, Some(Pending)]
  }

  /** A covered file older than an hour that is neither clean nor failed. */
  predicate Overdue(s: State, a: Id, now: Time) {
    && a in s.attachments && s.attachments[a].covered && s.attachments[a].blob in s.blobs
    && s.blobs[s.attachments[a].blob].createdAt < now - 1 * HOUR && !IsFinal(s.blobs[s.attachments[a].blob].status)
  }

  lemma OverdueIsUnscanned(s: State, a: Id, now: Time)
    requires Overdue(s, a, now)
    ensures Unscanned(s, a, now)
  {
    match s.blobs[s.attachments[a].blob].status
    case None =>
    case Some(Pending) =>
    case Some(Clean) =>
    case Some(Failed) =>
  }

  /** Blobs stay, and a status changes only from none to pending. */
  predicate OnlyMarks(s: State, later: State) {
    && later.blobs.Keys == s.blobs.Keys
    && (forall b :: b in s.blobs ==> MarkedAtMost(s.blobs[b], later.blobs[b]))
  }

  predicate MarkedAtMost(was: Blob, later: Blob) {
    later == was || (was.status.None? && later == was.(status := Some(Pending)))
  }

  /** What the sweep that loaded `seen` from `start` has done, but for the attachments in `todo`. */
  ghost predicate Swept(start: State, s: State, seen: map<Id, Option<Status>>, todo: set<Id>, now: Time) {
    && s.attachments == start.attachments && start.jobs <= s.jobs && OnlyMarks(start, s)
    && (forall a :: a in seen <==> Unscanned(start, a, now))
    && (forall a :: a in seen ==> seen[a] == start.blobs[start.attachments[a].blob].status)
    && (forall a :: a in seen && start.attachments[a].covered ==>
          var b := start.attachments[a].blob;
          Queued(s.jobs, b) || (a in todo && s.blobs[b].status == start.blobs[b].status))
  }

  /** What one item does to the queue. */
  ghost predicate Advances(s: State, later: State, a: Id, seen: Option<Status>)
    requires a in s.attachments && s.attachments[a].blob in s.blobs
  {
    && later.attachments == s.attachments && OnlyMarks(s, later) && s.jobs <= later.jobs
    && (s.attachments[a].covered && (seen.Some? || Recorded(s, s.attachments[a].blob).None?) ==> Queued(later.jobs, s.attachments[a].blob))
    && (forall b :: b in later.blobs && later.blobs[b].status != s.blobs[b].status ==> Queued(later.jobs, b))
  }

  lemma SweptOneMore(start: State, s: State, later: State, seen: map<Id, Option<Status>>, todo: set<Id>, a: Id, now: Time)
    requires a in todo && todo <= seen.Keys && Swept(start, s, seen, todo, now) && Advances(s, later, a, seen[a])
    ensures Swept(start, later, seen, todo - {a}, now)
  {
    forall c | c in seen && start.attachments[c].covered
      ensures var b := start.attachments[c].blob;
              Queued(later.jobs, b) || (c in todo && c != a && later.blobs[b].status == start.blobs[b].status)
    {
      var b := start.attachments[c].blob;
      if Queued(s.jobs, b) {
        var j :| j in s.jobs && j.blob == b;
        assert j in later.jobs;
      }
    }
  }

  /** The files with their jobs; every method is one uninterrupted stretch of its code. */
  class Scanning {
    var state: State

    constructor ()
      ensures state == EMPTY
    {
      state := EMPTY;
    }

    /** enqueue_scan: mark under the lock, then queue. */
    method EnqueueScan(b: Id)
      requires b in state.blobs
      modifies this
      ensures state == if Recorded(old(state), b).None? then AfterPush(AfterMark(old(state), b), b) else old(state)
      ensures var (before, unmarked) := (old(state), Recorded(old(state), b).None?);
              && state.jobs == before.jobs + (if unmarked then multiset{Job(b, 0, 0)} else multiset{})
              && state.blobs == (if unmarked then before.blobs[b := Blob(Some(Pending), before.blobs[b].createdAt)] else before.blobs)
    {
      if state.blobs[b].status.Some? {
        return;
      }
      UpdateScanStatus(b, Pending);
      state := state.(marked := state.marked + multiset{b});
      state := state.(marked := state.marked - multiset{b}, jobs := state.jobs + multiset{Job(b, 0, 0)});
    }

    /** update_scan_status!, under the blob's lock; a missing blob changes nothing. */
    method UpdateScanStatus(b: Id, status: Status)
      modifies this
      ensures state == WithStatus(old(state), b, status)
    {
      if b in state.blobs {
        state := state.(blobs := state.blobs[b := state.blobs[b].(status := Some(status))]);
      }
    }

    /** VirusScanJob#perform with its retry and discard rules. */
    method PerformJob(j: Job, result: ScanResult)
      requires j in state.jobs
      modifies this
      ensures state == Step(old(state), Perform(j, result))
    {
      hide AfterResult;
      state := state.(jobs := state.jobs - multiset{j});
      if j.blob in state.blobs {
        Conclude(j, result);
      }
    }

    method Conclude(j: Job, result: ScanResult)
      modifies this
      ensures state == AfterResult(old(state), j, result)
    {
      hide Purged;
      match result {
        case FoundClean =>
          UpdateScanStatus(j.blob, Clean);
          state := state.(cleared := state.cleared + {j.blob});
        case FoundInfected =>
          PurgeAttachments(j.blob);
        case ScannerUnavailable =>
          RetryUnavailable(j);
        case ScannerError =>
          RetryError(j);
      }
    }

    /** retry_on ScannerUnavailableError: five attempts, then the error is reported and the file stays pending. */
    method RetryUnavailable(j: Job)
      modifies this
      ensures state.(jobs := old(state).jobs) == old(state)
      ensures state.jobs == if j.unavailable + 1 < UNAVAILABLE_ATTEMPTS
                            then old(state).jobs + multiset{j.(unavailable := j.unavailable + 1)} else old(state).jobs
    {
      if j.unavailable + 1 < UNAVAILABLE_ATTEMPTS {
        state := state.(jobs := state.jobs + multiset{j.(unavailable := j.unavailable + 1)});
      }
    }

    /** retry_on StandardError: three attempts, then mark_failed. */
    method RetryError(j: Job)
      modifies this
      ensures state == if j.errors + 1 < ERROR_ATTEMPTS
                       then old(state).(jobs := old(state).jobs + multiset{j.(errors := j.errors + 1)})
                       else WithStatus(old(state), j.blob, Failed)
    {
      if j.errors + 1 < ERROR_ATTEMPTS {
        state := state.(jobs := state.jobs + multiset{j.(errors := j.errors + 1)});
      } else {
        UpdateScanStatus(j.blob, Failed);
      }
    }

    /** blob.attachments.each(&:purge) */
    method PurgeAttachments(b: Id)
      modifies this
      ensures state == Purged(old(state), b)
    {
      ghost var start := state;
      var todo := set a | a in state.attachments && state.attachments[a].blob == b;
      while todo != {}
        invariant state == start.(attachments := state.attachments)
        invariant forall a :: a in todo ==> a in start.attachments && start.attachments[a].blob == b
        invariant forall a :: a in state.attachments <==> a in start.attachments && (a in todo || start.attachments[a].blob != b)
        invariant forall a :: a in state.attachments ==> state.attachments[a] == start.attachments[a]
      {
        var a: Id :| a in todo;
        state := state.(attachments := state.attachments - {a});
        todo := todo - {a};
      }
      state := state.(blobs := state.blobs - {b});
      assert state.attachments == Purged(start, b).attachments;
    }

    /** VirusScanSweepJob#perform. After it every covered file older than the grace
        period that is neither clean nor failed has a scan queued. */
    method Sweep(now: Time)
      modifies this
      ensures state.attachments == old(state).attachments && OnlyMarks(old(state), state) && old(state).jobs <= state.jobs
      ensures forall a :: Overdue(state, a, now) ==> Queued(state.jobs, state.attachments[a].blob)
    {
      ghost var start := state;
      var todo := set a | a in state.attachments && Unscanned(state, a, now);
      var seen := map a | a in todo :: state.blobs[state.attachments[a].blob].status;
      hide Queued;
      while todo != {}
        invariant todo <= seen.Keys && Swept(start, state, seen, todo, now)
      {
        var a: Id :| a in todo;
        ghost var before := state;
        SweepOne(a, seen[a]);
        SweptOneMore(start, before, state, seen, todo, a, now);
        todo := todo - {a};
      }
      forall a | Overdue(state, a, now) ensures Queued(state.jobs, state.attachments[a].blob) {
        OverdueIsUnscanned(state, a, now);
      }
    }

    method SweepOne(a: Id, seen: Option<Status>)
      requires a in state.attachments && state.attachments[a].blob in state.blobs
      modifies this
      ensures state == AfterSweepItem(old(state), a, seen)
      ensures Advances(old(state), state, a, seen)
    {
      var attachment := state.attachments[a];
      if !attachment.covered {
        return;
      }
      if seen.Some? {
        state := state.(jobs := state.jobs + multiset{Job(attachment.blob, 0, 0)});
        assert Job(attachment.blob, 0, 0) in state.jobs;
      } else {
        ghost var before := state;
        EnqueueScan(attachment.blob);
        if Recorded(before, attachment.blob).None? {
          assert Job(attachment.blob, 0, 0) in state.jobs;
        }
      }
    }
  }
}

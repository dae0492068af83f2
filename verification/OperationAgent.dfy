/** The operation loop as imperative code over a ledger object; every item it handles is a run of the
    protocol, so the guarantees proved there are guarantees of this code. */
module OperationAgent {
  import opened OperationLedger
  import opened OperationLoop
  import opened OperationLanding
  import opened OperationReports

  /** Everything outside the loop's control while it handles one work item: what the handler returns,
      where the ledger fails, and how the hub answers each attempt to report. */
  datatype Circumstances = Circumstances(dispatch: Fault, result: Report, completion: Fault, answers: seq<Answer>, removal: Fault)

  /** The steps of one ledger write, and of one removal. */
  function WriteEvents(fault: Fault): seq<Event> {
    match fault
    case NoFault => [Ok, Ok]
    case Unchanged => [Fail]
    case NotSynced => [Ok, Fail]
  }

  lemma WriteRuns(store: Store, e: Entry, enabled: bool, log: Log, orphans: multiset<Orphan>, fault: Fault)
    ensures var (store', ok) := Replace(store, e, fault);
            Run(Loop(store, Rename(e), enabled, log, orphans), WriteEvents(fault)) ==
            Loop(store', if ok then SyncedPhase(e) else Idle, enabled,
                 if ok && e.InProgress? && enabled then log + [Executed(e.key)] else log, orphans)
  {
    hide Run, Dispatch, WrittenBack, Orphaned, Unlinked, Forgotten;
    RunTwo(Loop(store, Rename(e), enabled, log, orphans), Ok, Ok);
    RunTwo(Loop(store, Rename(e), enabled, log, orphans), Ok, Fail);
    RunOne(Loop(store, Rename(e), enabled, log, orphans), Fail);
  }

  lemma RemovalRuns(store: Store, k: Key, enabled: bool, log: Log, orphans: multiset<Orphan>, fault: Fault)
    ensures var (store', ok) := Remove(store, k, fault);
            Run(Loop(store, Unlink(k), enabled, log, orphans), WriteEvents(fault)) ==
            Loop(store', Idle, enabled, if ok then log + [Pruned(k)] else log, orphans)
  {
    hide Run, Dispatch, WrittenBack, Orphaned, Renamed, Committed, Unlinked, Forgotten;
    var s := Loop(store, Unlink(k), enabled, log, orphans);
    match fault
    case NoFault => RunTwo(s, Ok, Ok);
    case NotSynced => RunTwo(s, Ok, Fail);
    case Unchanged => RunOne(s, Fail);
  }

  /** The process kept running. */
  predicate Uninterrupted(evs: seq<Event>) {
    forall i :: 0 <= i < |evs| ==> !evs[i].Restart? && !evs[i].Crash? && !evs[i].WriteBack? && !evs[i].Land?
  }

  /** A report is transmitted at least once. */
  predicate Reports(evs: seq<Event>) { exists i :: 0 <= i < |evs| && evs[i].Attempt? }

  lemma ReportsJoin(a: seq<Event>, b: seq<Event>)
    ensures Reports(a + b) <==> Reports(a) || Reports(b)
  {
    if Reports(a) { var i :| 0 <= i < |a| && a[i].Attempt?; assert (a + b)[i].Attempt?; }
    if Reports(b) { var i :| 0 <= i < |b| && b[i].Attempt?; assert (a + b)[|a| + i].Attempt?; }
    if Reports(a + b) { var i :| 0 <= i < |a + b| && (a + b)[i].Attempt?; assert i < |a| ==> a[i].Attempt?; assert i >= |a| ==> b[i - |a|].Attempt?; }
  }

  lemma LeaseReportsNothing(k: Key, claim: Claim)
    ensures forall command :: !Reports([Lease(k, claim, command)])
  {
  }

  lemma HandlerReportsNothing(report: Report)
    ensures !Reports([Handler(report)])
  {
  }

  lemma WritesReportNothing(fault: Fault)
    ensures !Reports(WriteEvents(fault))
  {
  }

  /** Milliseconds waited before the attempt after `n` failed ones: 1 s, 2 s, 4 s, 8 s. */
  function Waited(n: nat): nat { if n == 0 then 0 else Waited(n - 1) + Backoff(n - 1) }

  function Backoff(n: nat): nat { if n == 0 then 1000 else 2 * Backoff(n - 1) }

  lemma WaitedIs(n: nat)
    ensures Waited(n) == Backoff(n) - 1000
  {
  }

  lemma Extend(start: Loop, evs: seq<Event>, more: seq<Event>, middle: Loop)
    requires Run(start, evs) == middle && Uninterrupted(evs) && Uninterrupted(more)
    ensures Run(start, evs + more) == Run(middle, more) && Uninterrupted(evs + more)
  {
    hide Run;
    RunConcat(start, evs, more);
  }

  lemma ExtendOne(start: Loop, evs: seq<Event>, e: Event, middle: Loop)
    requires Run(start, evs) == middle && Uninterrupted(evs) && !e.Restart? && !e.Crash? && !e.WriteBack? && !e.Land?
    ensures Run(start, evs + [e]) == Step(middle, e) && Uninterrupted(evs + [e])
  {
    hide Run, Step;
    Extend(start, evs, [e], middle);
    RunOne(middle, e);
  }

  datatype Work = Work(k: Key, claim: Claim, command: bool, circumstances: Circumstances)

  class Agent {
    const ledger: Ledger
    const enabled: bool
    var log: Log
    ghost const orphans: multiset<Orphan>

    constructor (ledger: Ledger, enabled: bool, ghost orphans: multiset<Orphan>)
      ensures this.ledger == ledger && this.enabled == enabled && log == [] && this.orphans == orphans
    {
      this.ledger, this.enabled, log, this.orphans := ledger, enabled, [], orphans;
    }

    ghost function State(phase: Phase): Loop
      reads this, ledger, ledger.directory
    {
      Loop(ledger.State(), phase, enabled, log, orphans)
    }

    /** `report_operation_step_with_retry`: up to five attempts, ended early by any answer. */
    method ReportWithRetry(k: Key, report: Report, answers: seq<Answer>) returns (acknowledged: bool, waited: nat, ghost evs: seq<Event>)
      requires |answers| == MAX_ATTEMPTS
      modifies this
      ensures |evs| <= MAX_ATTEMPTS && Uninterrupted(evs) && forall i :: 0 <= i < |evs| ==> evs[i] == Attempt(answers[i])
      ensures Run(old(State(Tell(k, report, 1))), evs) == State(if acknowledged then Unlink(k) else Idle)
      ensures acknowledged <==> exists n :: 0 <= n < MAX_ATTEMPTS && answers[n].Accepted? && forall i :: 0 <= i < n ==> answers[i].Lost?
      ensures evs != [] && waited == Waited(|evs| - 1) <= 15000
      ensures acknowledged || (exists n :: 0 <= n < |evs| && answers[n].Rejected?) || |evs| == MAX_ATTEMPTS
    {
      hide Run;
      ghost var start := State(Tell(k, report, 1));
      var retryDelay := 1000;
      var attempt := 1;
      waited, evs := 0, [];
      assert Run(start, evs) == start by { RunNothing(start); }
      while attempt <= MAX_ATTEMPTS
        invariant 1 <= attempt <= MAX_ATTEMPTS + 1 && |evs| == attempt - 1
        invariant forall i :: 0 <= i < |evs| ==> evs[i] == Attempt(answers[i]) && answers[i].Lost?
        invariant Uninterrupted(evs) && Run(start, evs) == State(if attempt <= MAX_ATTEMPTS then Tell(k, report, attempt) else Idle)
        invariant attempt <= MAX_ATTEMPTS ==> retryDelay == Backoff(attempt - 1) && waited == Waited(attempt - 1)
        invariant waited <= 15000 && (attempt > MAX_ATTEMPTS ==> waited == Waited(MAX_ATTEMPTS - 1))
      {
        var answer := answers[attempt - 1];
        ExtendOne(start, evs, Attempt(answer), State(Tell(k, report, attempt)));
        evs := evs + [Attempt(answer)];
        log := log + [Transmitted(k, report)];
        match answer
        case Accepted =>
          log := log + [Acknowledged(k)];
          return true, waited, evs;
        case Rejected =>
          return false, waited, evs;
        case Lost =>
          if attempt < MAX_ATTEMPTS {
            waited := waited + retryDelay;
            retryDelay := retryDelay * 2;
            WaitedIs(attempt);
          }
          attempt := attempt + 1;
      }
      acknowledged := false;
    }

    lemma RunNothing(s: Loop)
      ensures Run(s, []) == s
    {
    }

    /** A ledger write as steps of the protocol. */
    method WriteEntry(e: Entry, fault: Fault, ghost start: Loop, ghost evs: seq<Event>) returns (ok: bool)
      requires Run(start, evs) == State(Rename(e)) && Uninterrupted(evs)
      modifies this, ledger, ledger.directory
      ensures ok <==> fault.NoFault?
      ensures Uninterrupted(evs + WriteEvents(fault))
      ensures Run(start, evs + WriteEvents(fault)) == State(if ok then SyncedPhase(e) else Idle)
    {
      hide Run;
      Extend(start, evs, WriteEvents(fault), State(Rename(e)));
      WriteRuns(ledger.State(), e, enabled, log, orphans, fault);
      ok := ledger.ReplaceEntry(e, fault);
      if ok && e.InProgress? && enabled { log := log + [Executed(e.key)]; }
    }

    /** Bring the execution of leased work to a stored report, if possible without executing again. */
    method Execute(k: Key, claim: Claim, c: Circumstances) returns (report: Report, ok: bool, ghost evs: seq<Event>)
      modifies this, ledger, ledger.directory
      ensures Uninterrupted(evs) && evs != [] && evs[0] == Lease(k, claim, true) && !Reports(evs)
      ensures Run(old(State(Idle)), evs) == State(if ok then Tell(k, report, 1) else Idle)
    {
      hide Run, Reports;
      ghost var start := State(Idle);
      evs := [Lease(k, claim, true)];
      assert !Reports(evs) by { LeaseReportsNothing(k, claim); }
      assert !Reports([Handler(c.result)]) by { HandlerReportsNothing(c.result); }
      RunOne(start, Lease(k, claim, true));
      var previous := ledger.Look(k);
      match previous {
        case Finished(saved) => report := saved;
        case Interrupted => report := INTERRUPTED;
        case Nothing =>
          ok := WriteEntry(InProgress(k, claim), c.dispatch, start, evs);
          WritesReportNothing(c.dispatch);
          ReportsJoin(evs, WriteEvents(c.dispatch));
          evs := evs + WriteEvents(c.dispatch);
          if !ok { return NOT_ENABLED, false, evs; }
          ExtendOne(start, evs, Handler(c.result), State(Phase.Execute(k, claim)));
          ReportsJoin(evs, [Handler(c.result)]);
          evs := evs + [Handler(c.result)];
          if enabled {
            report := c.result;
            log := log + [Returned(k, report)];
          } else {
            report := NOT_ENABLED;
          }
      }
      ok := WriteEntry(Completed(k, claim, report), c.completion, start, evs);
      WritesReportNothing(c.completion);
      ReportsJoin(evs, WriteEvents(c.completion));
      evs := evs + WriteEvents(c.completion);
    }

    /** One work item. The steps it takes are steps of the protocol, without interruption; so the
        invariant of every promise, and what it says of the log, are kept, whatever fails. */
    method Process(w: Work) returns (foundWork: bool, ghost evs: seq<Event>)
      requires |w.circumstances.answers| == MAX_ATTEMPTS
      modifies this, ledger, ledger.directory
      ensures Uninterrupted(evs) && evs != [] && evs[0] == Lease(w.k, w.claim, w.command)
      ensures State(Idle) == Run(old(State(Idle)), evs)
      ensures foundWork <==> Reports(evs)
      ensures forall promise, k: Key :: Kept(promise, old(State(Idle)), k) && LogKeeps(promise, old(log), k) ==>
                Kept(promise, State(Idle), k) && LogKeeps(promise, log, k)
    {
      hide Run, Kept, LogKeeps;
      ghost var start := State(Idle);
      LeaseReportsNothing(w.k, w.claim);
      KeepsForAll(start);
      evs := [Lease(w.k, w.claim, w.command)];
      RunOne(start, Lease(w.k, w.claim, w.command));
      var previous := ledger.Look(w.k);
      if previous.Nothing? && !w.command { return false, evs; }
      SameLease(start, w);
      var report, ok;
      report, ok, evs := Execute(w.k, w.claim, w.circumstances);
      LeaseAgain(start, evs, w);
      evs := [Lease(w.k, w.claim, w.command)] + evs[1..];
      if !ok { return false, evs; }
      ghost var told := State(Tell(w.k, report, 1));
      var acknowledged, waited;
      ghost var attempts;
      acknowledged, waited, attempts := ReportWithRetry(w.k, report, w.circumstances.answers);
      Extend(start, evs, attempts, told);
      assert Reports(attempts) by { assert attempts[0].Attempt?; }
      ReportsJoin(evs, attempts);
      evs := evs + attempts;
      if acknowledged {
        Extend(start, evs, WriteEvents(w.circumstances.removal), State(Unlink(w.k)));
        RemovalRuns(ledger.State(), w.k, enabled, log, orphans, w.circumstances.removal);
        ReportsJoin(evs, WriteEvents(w.circumstances.removal));
        evs := evs + WriteEvents(w.circumstances.removal);
        ok := ledger.RemoveEntry(w.k, w.circumstances.removal);
        if ok { log := log + [Pruned(w.k)]; }
      }
      foundWork := true;
    }
  }

  lemma KeepsForAll(s: Loop)
    ensures forall evs, promise, k: Key :: Uninterrupted(evs) && Kept(promise, s, k) && LogKeeps(promise, s.log, k) ==>
              Kept(promise, Run(s, evs), k) && LogKeeps(promise, Run(s, evs).log, k)
  {
    hide Run, Kept, LogKeeps, Spared;
    forall evs, promise, k: Key | Uninterrupted(evs) && Kept(promise, s, k) && LogKeeps(promise, s.log, k)
      ensures Kept(promise, Run(s, evs), k) && LogKeeps(promise, Run(s, evs).log, k)
    {
      NoLandingSpared(promise, s, evs, k);
      RunLog(promise, s, evs, k);
    }
  }

  /** With a record of the key, the kind of the work does not matter. */
  lemma SameLease(s: Loop, w: Work)
    requires s.phase.Idle? && (PreviousOf(s.store.entries, w.k).Nothing? ==> w.command)
    ensures Step(s, Lease(w.k, w.claim, w.command)) == Step(s, Lease(w.k, w.claim, true))
  {
  }

  lemma LeaseAgain(s: Loop, evs: seq<Event>, w: Work)
    requires evs != [] && evs[0] == Lease(w.k, w.claim, true) && Uninterrupted(evs) && !Reports(evs)
    requires Step(s, Lease(w.k, w.claim, w.command)) == Step(s, evs[0])
    ensures Run(s, [Lease(w.k, w.claim, w.command)] + evs[1..]) == Run(s, evs)
    ensures Uninterrupted([Lease(w.k, w.claim, w.command)] + evs[1..]) && !Reports([Lease(w.k, w.claim, w.command)] + evs[1..])
  {
    hide Step;
    assert ([Lease(w.k, w.claim, w.command)] + evs[1..])[1..] == evs[1..];
  }
}

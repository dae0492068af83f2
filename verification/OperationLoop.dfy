/** The operation loop as a crash-recovery protocol: persist dispatch, execute, persist the result,
    report, and prune once acknowledged. */
module OperationLoop {
  import opened OperationLedger

  const MAX_ATTEMPTS: nat := 5

  const INTERRUPTED: Report :=
    Report(Failed, "", "previous command execution was interrupted after dispatch; refusing unsafe automatic replay")

  const NOT_ENABLED: Report := Report(Failed, "", "commands not enabled")

  // ---------- What an observer sees ----------

  datatype Observation =
    | Executed(k: Key)
    | Returned(k: Key, report: Report)
    | Transmitted(k: Key, report: Report)
    | Acknowledged(k: Key)
    | Pruned(k: Key)

  type Log = seq<Observation>

  function Executions(log: Log, k: Key): nat {
    if log == [] then 0 else Executions(log[..|log| - 1], k) + if log[|log| - 1] == Executed(k) then 1 else 0
  }

  function Acknowledgements(log: Log, k: Key): nat {
    if log == [] then 0 else Acknowledgements(log[..|log| - 1], k) + if log[|log| - 1] == Acknowledged(k) then 1 else 0
  }

  /** Executions since the last acknowledgement. */
  function Unacknowledged(log: Log, k: Key): nat {
    if log == [] || log[|log| - 1] == Acknowledged(k) then 0
    else Unacknowledged(log[..|log| - 1], k) + if log[|log| - 1] == Executed(k) then 1 else 0
  }

  datatype Latest = Never | Running | Result(report: Report)

  /** How the latest execution went. */
  function LatestOutcome(log: Log, k: Key): Latest {
    if log == [] then Never
    else match log[|log| - 1]
      case Executed(x) => if x == k then Running else LatestOutcome(log[..|log| - 1], k)
      case Returned(x, report) => if x == k then Result(report) else LatestOutcome(log[..|log| - 1], k)
      case _ => LatestOutcome(log[..|log| - 1], k)
  }

  /** The report transmitted last, if any was since the last acknowledgement. */
  function LastReport(log: Log, k: Key): Latest {
    if log == [] then Never
    else match log[|log| - 1]
      case Transmitted(x, report) => if x == k then Result(report) else LastReport(log[..|log| - 1], k)
      case Acknowledged(x) => if x == k then Never else LastReport(log[..|log| - 1], k)
      case _ => LastReport(log[..|log| - 1], k)
  }

  /** The report that the hub acknowledged last, if any. */
  function LastAcknowledged(log: Log, k: Key): Latest {
    if log == [] then Never
    else if log[|log| - 1] == Acknowledged(k) then LastReport(log[..|log| - 1], k)
    else LastAcknowledged(log[..|log| - 1], k)
  }

  /** The entry was pruned since the last acknowledgement. */
  predicate PrunedSince(log: Log, k: Key) {
    log != [] && log[|log| - 1] != Acknowledged(k)
    && (log[|log| - 1] == Pruned(k) || PrunedSince(log[..|log| - 1], k))
  }

  // ---------- The loop ----------

  /** What the loop is about to do. */
  datatype Phase =
    | Idle
    | Rename(e: Entry)
    | Sync(e: Entry)
    | Execute(k: Key, claim: Claim)
    | Tell(k: Key, report: Report, attempt: nat)
    | Unlink(k: Key)
    | SyncRemoval(k: Key)

  /** A file operation whose session was aborted while a blocking thread was about to perform it. */
  datatype Orphan = LateRename(e: Entry) | LateUnlink(k: Key)

  datatype Loop = Loop(store: Store, phase: Phase, enabled: bool, log: Log, orphans: multiset<Orphan>)

  datatype Answer = Accepted | Rejected | Lost

  /** Steps of the loop with their outcome, the file system writing an entry back on its own, the
      end of a session followed by reloading the directory, a power failure, and an orphaned file
      operation taking effect. Commands may be enabled or not in each session. */
  datatype Event =
    | Lease(k: Key, claim: Claim, command: bool)
    | Ok
    | Fail
    | Handler(report: Report)
    | Attempt(answer: Answer)
    | WriteBack(k: Key)
    | Restart(enabled: bool)
    | Crash(enabled: bool)
    | Land(o: Orphan)

  function Dispatch(s: Loop, k: Key, claim: Claim, command: bool): Phase {
    match PreviousOf(s.store.entries, k)
    case Finished(report) => Rename(Completed(k, claim, report))
    case Interrupted => Rename(Completed(k, claim, INTERRUPTED))
    case Nothing => if command then Rename(InProgress(k, claim)) else Idle
  }

  function SyncedPhase(e: Entry): Phase {
    match e
    case InProgress(k, claim) => Execute(k, claim)
    case Completed(k, _, report) => Tell(k, report, 1)
  }

  function Step(s: Loop, ev: Event): Loop {
    match (ev, s.phase)
    case (Lease(k, claim, command), Idle) => s.(phase := Dispatch(s, k, claim, command))
    case (Ok, Rename(e)) => s.(store := Renamed(s.store, e), phase := Sync(e))
    case (Ok, Sync(e)) =>
      s.(store := Committed(s.store, e), phase := SyncedPhase(e),
         log := if e.InProgress? && s.enabled then s.log + [Executed(e.key)] else s.log)
    case (Handler(report), Execute(k, claim)) =>
      if s.enabled then s.(phase := Rename(Completed(k, claim, report)), log := s.log + [Returned(k, report)])
      else s.(phase := Rename(Completed(k, claim, NOT_ENABLED)))
    case (Attempt(answer), Tell(k, report, attempt)) =>
      var told := s.(log := s.log + [Transmitted(k, report)]);
      (match answer
       case Accepted => told.(phase := Unlink(k), log := told.log + [Acknowledged(k)])
       case Rejected => told.(phase := Idle)
       case Lost => told.(phase := if attempt < MAX_ATTEMPTS then Tell(k, report, attempt + 1) else Idle))
    case (Ok, Unlink(k)) => s.(store := Unlinked(s.store, k), phase := SyncRemoval(k))
    case (Ok, SyncRemoval(k)) => s.(store := Forgotten(s.store, k), phase := Idle, log := s.log + [Pruned(k)])
    case (Fail, Rename(_)) => s.(phase := Idle)
    case (Fail, Sync(_)) => s.(phase := Idle)
    case (Fail, Unlink(_)) => s.(phase := Idle)
    case (Fail, SyncRemoval(_)) => s.(phase := Idle)
    case (WriteBack(k), _) => s.(store := s.store.(durable := WrittenBack(s.store, k)))
    case (Restart(enabled), _) =>
      s.(store := s.store.(entries := s.store.volatile), phase := Idle, enabled := enabled, orphans := s.orphans + Orphaned(s.phase))
    case (Crash(enabled), _) =>
      s.(store := Store(s.store.durable, s.store.durable, s.store.durable), phase := Idle, enabled := enabled, orphans := multiset{})
    case (Land(o), _) =>
      if o !in s.orphans then s
      else s.(store := if o.LateRename? then Renamed(s.store, o.e) else Unlinked(s.store, o.k), orphans := s.orphans - multiset{o})
    case _ => s
  }

  /** What the end of a session leaves to a blocking thread. */
  function Orphaned(phase: Phase): multiset<Orphan> {
    match phase
    case Rename(e) => multiset{LateRename(e)}
    case Unlink(k) => multiset{LateUnlink(k)}
    case _ => multiset{}
  }

  /** Every file operation takes effect before the next session loads the ledger, or never. */
  predicate NoLanding(evs: seq<Event>) { forall i :: 0 <= i < |evs| ==> !evs[i].Land? }

  function WrittenBack(s: Store, k: Key): Files {
    if k in s.volatile then s.durable[k := s.volatile[k]] else s.durable - {k}
  }

  function Start(enabled: bool): Loop { Loop(Store(map[], map[], map[]), Idle, enabled, [], multiset{}) }

  function Run(s: Loop, evs: seq<Event>): Loop
    decreases |evs|
  {
    if evs == [] then s else Run(Step(s, evs[0]), evs[1..])
  }

  // ---------- What a report may be ----------

  /** A report was returned by the latest execution, or says that there is no result to report. */
  predicate Backed(log: Log, k: Key, report: Report) {
    report == INTERRUPTED || report == NOT_ENABLED || LatestOutcome(log, k) == Result(report)
  }

  /** A success that is stored although nothing was executed since the last acknowledgement is the
      one that was acknowledged, and its entry was not pruned. */
  predicate Settled(log: Log, k: Key, report: Report) {
    report.status.Succeeded? && Unacknowledged(log, k) == 0 ==> !PrunedSince(log, k) && LastAcknowledged(log, k) == Result(report)
  }

  /** Appending one observation. */
  lemma Append(log: Log, o: Observation, k: Key)
    ensures Executions(log + [o], k) == Executions(log, k) + if o == Executed(k) then 1 else 0
    ensures Acknowledgements(log + [o], k) == Acknowledgements(log, k) + if o == Acknowledged(k) then 1 else 0
    ensures Unacknowledged(log + [o], k) ==
            if o == Acknowledged(k) then 0 else Unacknowledged(log, k) + if o == Executed(k) then 1 else 0
    ensures LatestOutcome(log + [o], k) ==
            if o == Executed(k) then Running else if o.Returned? && o.k == k then Result(o.report) else LatestOutcome(log, k)
    ensures LastReport(log + [o], k) ==
            if o == Acknowledged(k) then Never else if o.Transmitted? && o.k == k then Result(o.report) else LastReport(log, k)
    ensures LastAcknowledged(log + [o], k) == if o == Acknowledged(k) then LastReport(log, k) else LastAcknowledged(log, k)
    ensures PrunedSince(log + [o], k) <==> o != Acknowledged(k) && (o == Pruned(k) || PrunedSince(log, k))
  {
    assert (log + [o])[..|log + [o]| - 1] == log;
  }

  /** The handler returned this report since the last acknowledgement. */
  predicate ReturnedSince(log: Log, k: Key, report: Report) {
    log != [] && log[|log| - 1] != Acknowledged(k)
    && (log[|log| - 1] == Returned(k, report) || ReturnedSince(log[..|log| - 1], k, report))
  }

  // ---------- The ledger can always be loaded ----------

  ghost predicate AllNamed(s: Store) { WellNamed(s.volatile) && WellNamed(s.durable) && WellNamed(s.entries) }

  lemma StepNamed(s: Loop, ev: Event)
    requires AllNamed(s.store)
    ensures AllNamed(Step(s, ev).store)
  {
    hide Dispatch, SyncedPhase, Orphaned, AllNamed, Renamed, Committed, Unlinked, Forgotten, WrittenBack;
    match (ev, s.phase)
    case (Ok, Rename(e)) => PiecesNamed(s.store, e, e.key);
    case (Ok, Sync(e)) => PiecesNamed(s.store, e, e.key);
    case (Ok, Unlink(k)) => PiecesNamed(s.store, InProgress(k, ""), k);
    case (Ok, SyncRemoval(k)) => PiecesNamed(s.store, InProgress(k, ""), k);
    case (Land(LateRename(e)), _) => PiecesNamed(s.store, e, e.key);
    case (Land(LateUnlink(k)), _) => PiecesNamed(s.store, InProgress(k, ""), k);
    case _ => RecoveryNamed(s.store);
  }

  lemma PiecesNamed(s: Store, e: Entry, k: Key)
    requires AllNamed(s)
    ensures AllNamed(Renamed(s, e)) && AllNamed(Committed(s, e)) && AllNamed(Unlinked(s, k)) && AllNamed(Forgotten(s, k))
  {
  }

  lemma RecoveryNamed(s: Store)
    requires AllNamed(s)
    ensures forall k :: AllNamed(s.(durable := WrittenBack(s, k)))
    ensures AllNamed(s.(entries := s.volatile)) && AllNamed(Store(s.durable, s.durable, s.durable))
  {
  }

  lemma {:induction false} RunNamed(s: Loop, evs: seq<Event>)
    requires AllNamed(s.store)
    ensures AllNamed(Run(s, evs).store)
    decreases |evs|
  {
    if evs != [] {
      hide Step, AllNamed;
      StepNamed(s, evs[0]);
      RunNamed(Step(s, evs[0]), evs[1..]);
    }
  }

  /** Whatever survives a crash can be loaded: every file describes the execution it is named after. */
  lemma LedgerAlwaysLoads(enabled: bool, evs: seq<Event>)
    ensures var s := Run(Start(enabled), evs).store; WellNamed(s.volatile) && WellNamed(s.durable) && WellNamed(s.entries)
  {
    RunNamed(Start(enabled), evs);
    hide Run;
  }

  // ---------- Exactly when an acknowledged success is reported again ----------

  /** A success that the handler did not return since the last acknowledgement. */
  predicate Stale(log: Log, k: Key, report: Report) { report.status.Succeeded? && !ReturnedSince(log, k, report) }

  /** The ledger has a success on record. */
  predicate RecordsSuccess(files: Files, k: Key) { k in files && files[k].Completed? && files[k].report.status.Succeeded? }

  lemma ReturnedAppend(log: Log, o: Observation, k: Key, report: Report)
    ensures ReturnedSince(log + [o], k, report) <==> o != Acknowledged(k) && (o == Returned(k, report) || ReturnedSince(log, k, report))
  {
    assert (log + [o])[..|log + [o]| - 1] == log;
  }

  /** Where the report for work leased in `s` comes from. */
  predicate ComesFrom(s: Loop, log: Log, k: Key, report: Report) {
    match PreviousOf(s.store.entries, k)
    case Finished(saved) => report == saved && (ReturnedSince(log, k, saved) <==> ReturnedSince(s.log, k, saved))
    case Interrupted => report == INTERRUPTED
    case Nothing => report == NOT_ENABLED || ReturnedSince(log, k, report)
  }

  predicate Handling(s: Loop, k: Key, t: Loop) {
    match t.phase
    case Rename(e) => Writing(s, k, t.log, e)
    case Sync(e) => Writing(s, k, t.log, e)
    case Execute(x, _) => x == k && k !in s.store.entries
    case Tell(x, report, _) => x == k && ComesFrom(s, t.log, k, report)
    case _ => true
  }

  predicate Writing(s: Loop, k: Key, log: Log, e: Entry) {
    e.key == k && if e.InProgress? then k !in s.store.entries else ComesFrom(s, log, k, e.report)
  }

  lemma HandlingGoesOn(s: Loop, k: Key, t: Loop, ev: Event)
    requires Handling(s, k, t) && !ev.Lease?
    ensures Handling(s, k, Step(t, ev))
  {
    hide ReturnedSince, Renamed, Committed, Unlinked, Forgotten, WrittenBack, Orphaned, PreviousOf;
    match (ev, t.phase)
    case (Handler(report), Execute(_, _)) =>
      ReturnedAppend(t.log, Returned(k, report), k, report);
      NothingSaved(s, k);
    case (Attempt(_), Tell(_, report, _)) =>
      ReturnedAppend(t.log, Transmitted(k, report), k, report);
    case _ =>
  }

  lemma NothingSaved(s: Loop, k: Key)
    ensures k !in s.store.entries <==> PreviousOf(s.store.entries, k).Nothing?
  {
  }

  lemma {:induction false} HandlingRuns(s: Loop, k: Key, t: Loop, evs: seq<Event>)
    requires Handling(s, k, t) && forall i :: 0 <= i < |evs| ==> !evs[i].Lease?
    ensures Handling(s, k, Run(t, evs))
    decreases |evs|
  {
    hide Handling, Step;
    if evs != [] {
      HandlingGoesOn(s, k, t, evs[0]);
      HandlingRuns(s, k, Step(t, evs[0]), evs[1..]);
    }
  }

  lemma LeaseHandles(s: Loop, k: Key, claim: Claim, command: bool)
    requires s.phase.Idle?
    ensures Handling(s, k, Step(s, Lease(k, claim, command)))
  {
    hide ReturnedSince;
  }

  /** Work is leased in any state between two work items, and its report is about to be transmitted,
      whatever happened in between. It is a success that was not returned since the last
      acknowledgement if and only if such a success is on record when the work is leased. */
  lemma SuccessRepeated(enabled: bool, evs: seq<Event>, k: Key, claim: Claim, command: bool, more: seq<Event>)
    requires Run(Start(enabled), evs).phase.Idle? && forall i :: 0 <= i < |more| ==> !more[i].Lease?
    requires Run(Step(Run(Start(enabled), evs), Lease(k, claim, command)), more).phase.Tell?
    ensures var s := Run(Start(enabled), evs);
            var t := Run(Step(s, Lease(k, claim, command)), more);
            && t.phase.k == k
            && (Stale(t.log, k, t.phase.report) <==>
                  RecordsSuccess(s.store.entries, k) && !ReturnedSince(s.log, k, s.store.entries[k].report))
            && (Stale(t.log, k, t.phase.report) ==> t.phase.report == s.store.entries[k].report)
  {
    hide Run, Step, ReturnedSince, Handling, ComesFrom;
    var s := Run(Start(enabled), evs);
    LeaseHandles(s, k, claim, command);
    HandlingRuns(s, k, Step(s, Lease(k, claim, command)), more);
    var t := Run(Step(s, Lease(k, claim, command)), more);
    HandlingTells(s, k, t);
    StaleOrigin(s, t.log, k, t.phase.report);
  }

  lemma HandlingTells(s: Loop, k: Key, t: Loop)
    requires Handling(s, k, t) && t.phase.Tell?
    ensures t.phase.k == k && ComesFrom(s, t.log, k, t.phase.report)
  {
    hide ComesFrom;
  }

  lemma StaleOrigin(s: Loop, log: Log, k: Key, report: Report)
    requires ComesFrom(s, log, k, report)
    ensures Stale(log, k, report) <==> RecordsSuccess(s.store.entries, k) && !ReturnedSince(s.log, k, s.store.entries[k].report)
    ensures Stale(log, k, report) ==> report == s.store.entries[k].report
  {
    hide ReturnedSince;
  }

  // ---------- The current claim is on record before it is used ----------

  /** Work leased under `claim` is written and told under it; while `settled`, also on disk. */
  predicate Claiming(t: Loop, k: Key, claim: Claim, settled: bool) {
    match t.phase
    case Rename(e) => e.key == k && e.claim == claim
    case Sync(e) => e.key == k && e.claim == claim && (settled ==> k in t.store.volatile && t.store.volatile[k] == e)
    case Execute(x, c) => x == k && c == claim
    case Tell(x, report, _) =>
      && x == k && k in t.store.entries && t.store.entries[k] == Completed(k, claim, report)
      && (settled ==> k in t.store.volatile && t.store.volatile[k] == t.store.entries[k]
                      && k in t.store.durable && t.store.durable[k] == t.store.entries[k])
    case _ => true
  }

  lemma ClaimingGoesOn(t: Loop, k: Key, claim: Claim, settled: bool, ev: Event)
    requires Claiming(t, k, claim, settled) && !ev.Lease? && (settled ==> !ev.Land?)
    ensures Claiming(Step(t, ev), k, claim, settled)
  {
    hide Dispatch, Orphaned, Forgotten;
  }

  lemma {:induction false} ClaimingRuns(t: Loop, k: Key, claim: Claim, settled: bool, evs: seq<Event>)
    requires Claiming(t, k, claim, settled) && (settled ==> NoLanding(evs)) && forall i :: 0 <= i < |evs| ==> !evs[i].Lease?
    ensures Claiming(Run(t, evs), k, claim, settled)
    decreases |evs|
  {
    hide Claiming, Step;
    if evs != [] {
      ClaimingGoesOn(t, k, claim, settled, evs[0]);
      ClaimingRuns(Step(t, evs[0]), k, claim, settled, evs[1..]);
    }
  }

  /** Whenever a report for leased work is about to be transmitted, memory holds exactly that report
      under the claim of the lease; and so do the directory and the disk, unless a file operation landed
      since. A crash cannot leave the result tied to an expired claim. */
  lemma ClaimCommitted(s: Loop, k: Key, claim: Claim, command: bool, more: seq<Event>)
    requires s.phase.Idle? && forall i :: 0 <= i < |more| ==> !more[i].Lease?
    requires Run(Step(s, Lease(k, claim, command)), more).phase.Tell?
    ensures var t := Run(Step(s, Lease(k, claim, command)), more);
            var e := Completed(k, claim, t.phase.report);
            && t.phase.k == k && k in t.store.entries && t.store.entries[k] == e
            && (NoLanding(more) ==> k in t.store.volatile && t.store.volatile[k] == e && k in t.store.durable && t.store.durable[k] == e)
  {
    hide Run, Step, NoLanding, Claiming;
    var t := Step(s, Lease(k, claim, command));
    LeaseClaims(s, k, claim, command, NoLanding(more));
    ClaimingRuns(t, k, claim, NoLanding(more), more);
    ClaimingTells(Run(t, more), k, claim, NoLanding(more));
  }

  lemma LeaseClaims(s: Loop, k: Key, claim: Claim, command: bool, settled: bool)
    requires s.phase.Idle?
    ensures Claiming(Step(s, Lease(k, claim, command)), k, claim, settled)
  {
  }

  lemma ClaimingTells(t: Loop, k: Key, claim: Claim, settled: bool)
    requires Claiming(t, k, claim, settled) && t.phase.Tell?
    ensures t.phase.k == k && k in t.store.entries && t.store.entries[k] == Completed(k, claim, t.phase.report)
    ensures settled ==> k in t.store.volatile && t.store.volatile[k] == t.store.entries[k]
                        && k in t.store.durable && t.store.durable[k] == t.store.entries[k]
  {
  }

  // ---------- Without pruning ----------

  /** A run in which pruning fails after the acknowledgement and the work is leased once more. */
  function UnprunedRun(k: Key, claim: Claim, report: Report): seq<Event> {
    [Lease(k, claim, true), Ok, Ok, Handler(report), Ok, Ok, Attempt(Accepted)] + [Fail, Lease(k, claim, true), Ok, Ok, Attempt(Lost)]
  }

  /** Without the prune a success is reported again although nothing was executed since the
      acknowledgement, so the equivalence in `ReportedSuccess` cannot be improved. */
  lemma SuccessRepeatedWithoutPrune(k: Key, claim: Claim, report: Report)
    requires report.status.Succeeded?
    ensures var log := Run(Start(true), UnprunedRun(k, claim, report)).log;
            && log == [Executed(k), Returned(k, report), Transmitted(k, report), Acknowledged(k), Transmitted(k, report)]
            && !ReturnedSince(log[..4], k, report)
  {
    var files := map[k := Completed(k, claim, report)];
    var acked := Loop(Store(files, files, files), Unlink(k), true, [Executed(k), Returned(k, report), Transmitted(k, report), Acknowledged(k)], multiset{});
    FirstLease(k, claim, report, acked);
    SecondLease(k, claim, report, acked);
    RunConcat(Start(true), [Lease(k, claim, true), Ok, Ok, Handler(report), Ok, Ok, Attempt(Accepted)], [Fail, Lease(k, claim, true), Ok, Ok, Attempt(Lost)]);
    hide Run;
    assert acked.log[..4] == acked.log;
    assert (acked.log + [Transmitted(k, report)])[..4] == acked.log;
  }

  lemma FirstLease(k: Key, claim: Claim, report: Report, acked: Loop)
    requires var files := map[k := Completed(k, claim, report)];
      acked == Loop(Store(files, files, files), Unlink(k), true, [Executed(k), Returned(k, report), Transmitted(k, report), Acknowledged(k)], multiset{})
    ensures Run(Start(true), [Lease(k, claim, true), Ok, Ok, Handler(report), Ok, Ok, Attempt(Accepted)]) == acked
  {
    var running := map[k := InProgress(k, claim)];
    var files := map[k := Completed(k, claim, report)];
    var s := Loop(Store(running, running, running), Execute(k, claim), true, [Executed(k)], multiset{});
    var t := Loop(Store(files, files, files), Tell(k, report, 1), true, [Executed(k), Returned(k, report)], multiset{});
    RunThree(Start(true), Lease(k, claim, true), Ok, Ok, s);
    RunThree(s, Handler(report), Ok, Ok, t);
    RunConcat(Start(true), [Lease(k, claim, true), Ok, Ok], [Handler(report), Ok, Ok]);
    RunConcat(Start(true), [Lease(k, claim, true), Ok, Ok, Handler(report), Ok, Ok], [Attempt(Accepted)]);
    assert [Lease(k, claim, true), Ok, Ok] + [Handler(report), Ok, Ok] == [Lease(k, claim, true), Ok, Ok, Handler(report), Ok, Ok];
    assert [Lease(k, claim, true), Ok, Ok, Handler(report), Ok, Ok] + [Attempt(Accepted)]
        == [Lease(k, claim, true), Ok, Ok, Handler(report), Ok, Ok, Attempt(Accepted)];
    assert [Attempt(Accepted)][1..] == [];
  }

  lemma SecondLease(k: Key, claim: Claim, report: Report, acked: Loop)
    requires var files := map[k := Completed(k, claim, report)];
      acked.store == Store(files, files, files) && acked.phase == Unlink(k)
    ensures Run(acked, [Fail, Lease(k, claim, true), Ok, Ok, Attempt(Lost)]).log == acked.log + [Transmitted(k, report)]
  {
    hide WrittenBack, Orphaned, Unlinked, Forgotten;
    var s := acked.(phase := Sync(Completed(k, claim, report)));
    RunThree(acked, Fail, Lease(k, claim, true), Ok, s);
    RunConcat(acked, [Fail, Lease(k, claim, true), Ok], [Ok, Attempt(Lost)]);
    assert [Fail, Lease(k, claim, true), Ok] + [Ok, Attempt(Lost)] == [Fail, Lease(k, claim, true), Ok, Ok, Attempt(Lost)];
    assert [Ok, Attempt(Lost)][1..] == [Attempt(Lost)] && [Attempt(Lost)][1..] == [];
  }

  lemma RunOne(s: Loop, e: Event)
    ensures Run(s, [e]) == Step(s, e)
  {
    assert [e][1..] == [];
    assert Run(Step(s, e), []) == Step(s, e);
  }

  lemma RunTwo(s: Loop, e: Event, f: Event)
    ensures Run(s, [e, f]) == Step(Step(s, e), f)
  {
    hide Step;
    assert [e, f][1..] == [f];
    RunOne(Step(s, e), f);
  }

  lemma RunThree(s: Loop, e0: Event, e1: Event, e2: Event, t: Loop)
    requires Step(Step(Step(s, e0), e1), e2) == t
    ensures Run(s, [e0, e1, e2]) == t
  {
    hide Step;
    assert [e0, e1, e2][1..] == [e1, e2] && [e1, e2][1..] == [e2] && [e2][1..] == [];
    assert Run(Step(Step(s, e0), e1), [e2]) == t;
    assert Run(Step(s, e0), [e1, e2]) == t;
  }

  lemma {:induction false} RunConcat(s: Loop, a: seq<Event>, b: seq<Event>)
    ensures Run(s, a + b) == Run(Run(s, a), b)
    decreases |a|
  {
    hide Step;
    if a == [] {
      assert a + b == b;
    } else {
      assert (a + b)[1..] == a[1..] + b;
      RunConcat(Step(s, a[0]), a[1..], b);
    }
  }
}

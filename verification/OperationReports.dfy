/** What an observer of the loop can rely on, as long as no file operation of an aborted session does
    harm when it takes effect. */
module OperationReports {
  import opened OperationLedger
  import opened OperationLoop
  import opened OperationLanding

  // ---------- What every log says ----------

  /** What the promise says of an observation, given everything before it. */
  predicate Allows(promise: Promise, before: Log, o: Observation, k: Key) {
    match promise
    case CleanStart => (o == Executed(k) ==> Unacknowledged(before, k) == 0) && (o.Returned? && o.k == k ==> Unacknowledged(before, k) > 0)
    case StableReport => o.Transmitted? && o.k == k && LastReport(before, k).Result? ==> LastReport(before, k) == Result(o.report)
    case TrueReport => o.Transmitted? && o.k == k ==> Backed(before, k, o.report)
    case SettledReport => o.Transmitted? && o.k == k ==> Settled(before, k, o.report)
  }

  ghost predicate LogKeeps(promise: Promise, log: Log, k: Key) {
    forall i :: 0 <= i < |log| ==> Allows(promise, log[..i], log[i], k)
  }

  lemma LogAppend(promise: Promise, log: Log, o: Observation, k: Key)
    requires LogKeeps(promise, log, k) && Allows(promise, log, o, k)
    ensures LogKeeps(promise, log + [o], k)
  {
    hide Allows;
    forall i | 0 <= i < |log + [o]| ensures Allows(promise, (log + [o])[..i], (log + [o])[i], k) {
      assert (log + [o])[..i] == log[..i];
      assert i == |log| ==> log[..i] == log;
    }
  }

  lemma LogPrefix(promise: Promise, log: Log, i: nat, k: Key)
    requires LogKeeps(promise, log, k) && i <= |log|
    ensures LogKeeps(promise, log[..i], k)
  {
    forall j | 0 <= j < i ensures Allows(promise, log[..i][..j], log[..i][j], k) {
      assert log[..i][..j] == log[..j];
    }
  }

  lemma LogAt(promise: Promise, log: Log, i: nat, k: Key)
    requires LogKeeps(promise, log, k) && i < |log|
    ensures Allows(promise, log[..i], log[i], k)
  {
  }

  /** What a step may observe is what the invariant allows. */
  lemma StepAllows(promise: Promise, s: Loop, ev: Event, k: Key)
    requires Kept(promise, s, k)
    ensures ev.Ok? && s.phase.Sync? && s.phase.e.InProgress? && s.enabled ==> Allows(promise, s.log, Executed(s.phase.e.key), k)
    ensures s.phase.Execute? && s.enabled && ev.Handler? ==> Allows(promise, s.log, Returned(s.phase.k, ev.report), k)
    ensures s.phase.Tell? ==> Allows(promise, s.log, Transmitted(s.phase.k, s.phase.report), k)
    ensures forall log: Log, x :: Allows(promise, log, Acknowledged(x), k) && Allows(promise, log, Pruned(x), k)
  {
    hide Executions, Unacknowledged, LatestOutcome, LastReport, LastAcknowledged, PrunedSince;
  }

  lemma StepLog(promise: Promise, s: Loop, ev: Event, k: Key)
    requires Kept(promise, s, k) && LogKeeps(promise, s.log, k)
    ensures LogKeeps(promise, Step(s, ev).log, k)
  {
    hide Kept, LogKeeps, Allows, Dispatch, Renamed, Committed, Unlinked, Forgotten, WrittenBack, Orphaned, SyncedPhase;
    StepAllows(promise, s, ev, k);
    match (ev, s.phase)
    case (Ok, Sync(e)) => if e.InProgress? && s.enabled { LogAppend(promise, s.log, Executed(e.key), k); }
    case (Handler(report), Execute(x, _)) => if s.enabled { LogAppend(promise, s.log, Returned(x, report), k); }
    case (Attempt(answer), Tell(x, report, _)) =>
      LogAppend(promise, s.log, Transmitted(x, report), k);
      if answer.Accepted? { LogAppend(promise, s.log + [Transmitted(x, report)], Acknowledged(x), k); }
    case (Ok, SyncRemoval(x)) => LogAppend(promise, s.log, Pruned(x), k);
    case _ =>
  }

  lemma {:induction false} RunLog(promise: Promise, s: Loop, evs: seq<Event>, k: Key)
    requires Kept(promise, s, k) && Spared(promise, s, evs, k) && LogKeeps(promise, s.log, k)
    ensures Kept(promise, Run(s, evs), k) && LogKeeps(promise, Run(s, evs).log, k)
    decreases |evs|
  {
    hide Kept, LogKeeps, Step, Harmful;
    if evs != [] {
      StepKept(promise, s, evs[0], k);
      StepLog(promise, s, evs[0], k);
      RunLog(promise, Step(s, evs[0]), evs[1..], k);
    }
  }

  lemma SparedRun(promise: Promise, enabled: bool, evs: seq<Event>, k: Key)
    requires Spared(promise, Start(enabled), evs, k)
    ensures var s := Run(Start(enabled), evs); Kept(promise, s, k) && LogKeeps(promise, s.log, k)
  {
    hide Kept, Run, Spared, Allows;
    StartKept(promise, enabled, k);
    RunLog(promise, Start(enabled), evs, k);
  }

  // ---------- Executions ----------

  /** An execution starts only from a durable record of its dispatch, only while memory has none, and
      only if no execution before it is unacknowledged. */
  lemma StartsClean(enabled: bool, evs: seq<Event>, ev: Event, k: Key)
    requires Spared(CleanStart, Start(enabled), evs, k)
    requires var s := Run(Start(enabled), evs); Executions(Step(s, ev).log, k) > Executions(s.log, k)
    ensures var s := Run(Start(enabled), evs);
            var s' := Step(s, ev);
            && Unacknowledged(s.log, k) == 0
            && k !in s.store.entries
            && k in s'.store.durable && s'.store.durable[k].InProgress?
  {
    hide Run, Spared, Kept, Step, Executions, Unacknowledged, LogKeeps;
    PromiseKept(CleanStart, enabled, evs, ev, k);
    SparedRun(CleanStart, enabled, evs, k);
    UnrecordedAtStart(Run(Start(enabled), evs), ev, k);
  }

  lemma UnrecordedAtStart(s: Loop, ev: Event, k: Key)
    requires Kept(CleanStart, s, k) && Executions(Step(s, ev).log, k) > Executions(s.log, k)
    ensures k !in s.store.entries
  {
    LogSteps(s, ev, k);
    hide Step, Executions, Unacknowledged;
  }

  /** The key is not a command, or commands are not enabled. */
  predicate Forbidden(ev: Event, k: Key, disabled: bool) {
    match ev
    case Lease(x, _, command) => x == k && !disabled ==> !command
    case Restart(enabled) => disabled ==> !enabled
    case Crash(enabled) => disabled ==> !enabled
    case _ => true
  }

  /** No dispatch of the key is under way, or commands are not enabled. */
  predicate Idles(s: Loop, k: Key, disabled: bool) {
    && Executions(s.log, k) == 0
    && if disabled then !s.enabled
       else match s.phase
         case Rename(e) => !(e.key == k && e.InProgress?)
         case Sync(e) => !(e.key == k && e.InProgress?)
         case Execute(x, _) => x != k
         case _ => true
  }

  lemma StepIdles(s: Loop, ev: Event, k: Key, disabled: bool)
    requires Idles(s, k, disabled) && Forbidden(ev, k, disabled)
    ensures Idles(Step(s, ev), k, disabled)
  {
    LogSteps(s, ev, k);
    hide Executions, Unacknowledged, LatestOutcome, LastReport, LastAcknowledged, PrunedSince, Renamed, Committed, Unlinked, Forgotten, WrittenBack, Orphaned;
  }

  /** Work that is not a command is never executed, nor is anything while commands are not enabled. */
  lemma {:induction false} OnlyCommandsExecuted(s: Loop, evs: seq<Event>, k: Key, disabled: bool)
    requires Idles(s, k, disabled) && forall i :: 0 <= i < |evs| ==> Forbidden(evs[i], k, disabled)
    ensures Executions(Run(s, evs).log, k) == 0
    decreases |evs|
  {
    if evs != [] {
      StepIdles(s, evs[0], k, disabled);
      hide Step, Idles, Forbidden;
      OnlyCommandsExecuted(Step(s, evs[0]), evs[1..], k, disabled);
    }
  }

  // ---------- Reports ----------

  /** The report transmitted at `i` stays the last one until an acknowledgement. */
  lemma {:induction false} ReportPersists(log: Log, i: nat, m: nat, k: Key, report: Report)
    requires LogKeeps(StableReport, log, k) && i < m <= |log| && log[i] == Transmitted(k, report)
    requires forall j :: i < j < m ==> log[j] != Acknowledged(k)
    ensures LastReport(log[..m], k) == Result(report)
    decreases m
  {
    hide LastReport, LogKeeps;
    assert log[..m] == log[..m - 1] + [log[m - 1]];
    Append(log[..m - 1], log[m - 1], k);
    if m > i + 1 {
      ReportPersists(log, i, m - 1, k, report);
      LogAt(StableReport, log, m - 1, k);
    }
  }

  /** Between two acknowledgements of a key every report transmitted for it is the same. */
  lemma StableReports(enabled: bool, evs: seq<Event>, i: nat, j: nat, k: Key, first: Report, second: Report)
    requires Spared(StableReport, Start(enabled), evs, k)
    requires var log := Run(Start(enabled), evs).log;
             && i < j < |log| && log[i] == Transmitted(k, first) && log[j] == Transmitted(k, second)
             && forall m :: i < m < j ==> log[m] != Acknowledged(k)
    ensures first == second
  {
    hide Run, Spared, Kept, LogKeeps, LastReport;
    SparedRun(StableReport, enabled, evs, k);
    var log := Run(Start(enabled), evs).log;
    ReportPersists(log, i, j, k, first);
    LogAt(StableReport, log, j, k);
  }

  /** Returned since the acknowledgement, and executed since the acknowledgement, coincide for the
      result of the latest execution. */
  lemma {:induction false} ReturnedIffExecuted(log: Log, k: Key, report: Report)
    requires LogKeeps(CleanStart, log, k) && LatestOutcome(log, k) == Result(report)
    ensures ReturnedSince(log, k, report) <==> Unacknowledged(log, k) > 0
  {
    if log != [] {
      var i := |log| - 1;
      LogPrefix(CleanStart, log, i, k);
      LogAt(CleanStart, log, i, k);
      hide LogKeeps;
      if !(log[i].Returned? && log[i].k == k) && log[i] != Executed(k) { ReturnedIffExecuted(log[..i], k, report); }
    }
  }

  lemma {:induction false} AtMostOnePending(log: Log, k: Key)
    requires LogKeeps(CleanStart, log, k)
    ensures Unacknowledged(log, k) <= 1
  {
    if log != [] {
      LogAt(CleanStart, log, |log| - 1, k);
      LogPrefix(CleanStart, log, |log| - 1, k);
      AtMostOnePending(log[..|log| - 1], k);
    }
  }

  /** No landing so far was harmful to any of these promises. */
  predicate Unharmed(enabled: bool, evs: seq<Event>, k: Key) {
    && Spared(CleanStart, Start(enabled), evs, k)
    && Spared(TrueReport, Start(enabled), evs, k)
    && Spared(SettledReport, Start(enabled), evs, k)
  }

  lemma UnharmedRun(enabled: bool, evs: seq<Event>, k: Key)
    requires Unharmed(enabled, evs, k)
    ensures var s := Run(Start(enabled), evs);
            forall promise :: promise != StableReport ==> Kept(promise, s, k) && LogKeeps(promise, s.log, k)
  {
    hide Run, Spared, Kept, LogKeeps;
    SparedRun(CleanStart, enabled, evs, k);
    SparedRun(TrueReport, enabled, evs, k);
    SparedRun(SettledReport, enabled, evs, k);
  }

  /** A success is only ever reported if the latest execution returned exactly it. Whether that
      happened since the previous acknowledgement is the question whether the command was dispatched
      again since: it was if the acknowledged entry could be pruned. Anything else is reported as a
      failure with one of the two fixed texts. */
  lemma ReportedSuccess(enabled: bool, evs: seq<Event>, i: nat, k: Key, report: Report)
    requires Unharmed(enabled, evs, k)
    requires i < |Run(Start(enabled), evs).log| && Run(Start(enabled), evs).log[i] == Transmitted(k, report)
    ensures var log := Run(Start(enabled), evs).log[..i];
            && (LatestOutcome(log, k) != Result(report) ==> report == INTERRUPTED || report == NOT_ENABLED)
            && (report.status.Succeeded? ==>
                  && LatestOutcome(log, k) == Result(report)
                  && (ReturnedSince(log, k, report) <==> Unacknowledged(log, k) == 1)
                  && (PrunedSince(log, k) ==> ReturnedSince(log, k, report)))
  {
    hide Run, Kept, LogKeeps, Unharmed, LatestOutcome, LastReport, LastAcknowledged, PrunedSince, Unacknowledged, ReturnedSince;
    UnharmedRun(enabled, evs, k);
    var log := Run(Start(enabled), evs).log;
    assert LogKeeps(CleanStart, log, k) && LogKeeps(TrueReport, log, k) && LogKeeps(SettledReport, log, k);
    LogAt(TrueReport, log, i, k);
    LogAt(SettledReport, log, i, k);
    LogPrefix(CleanStart, log, i, k);
    if report.status.Succeeded? {
      ReturnedIffExecuted(log[..i], k, report);
      AtMostOnePending(log[..i], k);
    }
  }

  /** A saved success was returned by an execution that is acknowledged exactly if none is unacknowledged. */
  lemma SavedSuccess(s: Loop, k: Key)
    requires Current(s, k) && Accounted(s, k) && LogKeeps(CleanStart, s.log, k) && RecordsSuccess(s.store.entries, k)
    ensures var report := s.store.entries[k].report;
            && (ReturnedSince(s.log, k, report) <==> Unacknowledged(s.log, k) > 0)
            && (Unacknowledged(s.log, k) == 0 ==> LastAcknowledged(s.log, k) == Result(report))
  {
    hide LogKeeps, Executions, Acknowledgements, Unacknowledged, LatestOutcome, LastReport, LastAcknowledged, PrunedSince, ReturnedSince;
    ReturnedIffExecuted(s.log, k, s.store.entries[k].report);
  }

  /** When a success is reported although it was not returned since the last acknowledgement is the
      question whether it is on record while no execution is unacknowledged; it is then the report the
      hub acknowledged last. */
  lemma AcknowledgedSuccessRepeated(enabled: bool, evs: seq<Event>, k: Key, claim: Claim, command: bool, more: seq<Event>)
    requires Unharmed(enabled, evs, k) && Run(Start(enabled), evs).phase.Idle?
    requires forall i :: 0 <= i < |more| ==> !more[i].Lease?
    requires Run(Step(Run(Start(enabled), evs), Lease(k, claim, command)), more).phase.Tell?
    ensures var s := Run(Start(enabled), evs);
            var t := Run(Step(s, Lease(k, claim, command)), more);
            && (Stale(t.log, k, t.phase.report) <==> RecordsSuccess(s.store.entries, k) && Unacknowledged(s.log, k) == 0)
            && (Stale(t.log, k, t.phase.report) ==> LastAcknowledged(s.log, k) == Result(t.phase.report))
  {
    hide Run, Unharmed, Current, Accounted, LogKeeps, Step, Unacknowledged, LastAcknowledged, ReturnedSince, Stale;
    UnharmedRun(enabled, evs, k);
    SuccessRepeated(enabled, evs, k, claim, command, more);
    var s := Run(Start(enabled), evs);
    assert Kept(CleanStart, s, k) && Kept(TrueReport, s, k) && Kept(SettledReport, s, k);
    if RecordsSuccess(s.store.entries, k) { SavedSuccess(s, k); }
  }

  /** While file operations take effect before the next session loads the ledger, or never, nothing is
      harmed. */
  lemma NoLandingUnharmed(enabled: bool, evs: seq<Event>, k: Key)
    requires NoLanding(evs)
    ensures Unharmed(enabled, evs, k) && Spared(StableReport, Start(enabled), evs, k)
  {
    hide Spared;
    NoLandingSpared(CleanStart, Start(enabled), evs, k);
    NoLandingSpared(TrueReport, Start(enabled), evs, k);
    NoLandingSpared(SettledReport, Start(enabled), evs, k);
    NoLandingSpared(StableReport, Start(enabled), evs, k);
  }
}

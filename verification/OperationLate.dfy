/** File operations of an aborted session that take effect after the next session loaded the ledger:
    what still holds, and what does not. */
module OperationLate {
  import opened OperationLedger
  import opened OperationLoop
  import opened OperationLanding
  import opened OperationReports

  // ---------- Every removal is paid for by an acknowledgement ----------

  /** Removals of the entry still to come, now or from aborted sessions. */
  function Owed(s: Loop, k: Key): nat { s.orphans[LateUnlink(k)] + if s.phase == Unlink(k) then 1 else 0 }

  predicate Everywhere(s: Store, k: Key) { k in s.entries && k in s.volatile && k in s.durable }

  /** The loop is about to record, or has just recorded, a dispatch of the key. */
  predicate Dispatching(phase: Phase, k: Key) {
    match phase
    case Rename(e) => e == InProgress(k, e.claim)
    case Sync(e) => e == InProgress(k, e.claim)
    case _ => false
  }

  /** Each execution needs the entry to be gone from somewhere, and each removal follows an
      acknowledgement of its own. */
  predicate Paid(s: Loop, k: Key) {
    var spent, earned := Executions(s.log, k) + Owed(s, k), Acknowledgements(s.log, k);
    && spent <= earned + (if Everywhere(s.store, k) then 1 else 0)
    && (s.phase == SyncRemoval(k) ==> spent <= earned)
    && (Dispatching(s.phase, k) ==> k !in s.store.entries)
    && (Dispatching(s.phase, k) && s.phase.Sync? && k !in s.store.volatile ==> spent + 1 <= earned)
  }

  /** Nothing was removed, and no execution was added that is not paid for. */
  lemma SamePaid(s: Loop, t: Loop, k: Key)
    requires Paid(s, k) && t.store == s.store && !t.phase.SyncRemoval? && !Dispatching(t.phase, k)
    requires Executions(t.log, k) + Owed(t, k) + Acknowledgements(s.log, k) <= Executions(s.log, k) + Owed(s, k) + Acknowledgements(t.log, k)
    ensures Paid(t, k)
  {
    hide Executions, Acknowledgements, Owed, Dispatching;
  }

  lemma RenamePaid(s: Loop, k: Key)
    requires Paid(s, k) && s.phase.Rename?
    ensures Paid(Step(s, Ok), k)
  {
    hide Executions, Acknowledgements, Dispatch, WrittenBack, Orphaned, Committed, Unlinked, Forgotten, SyncedPhase;
  }

  lemma SyncPaid(s: Loop, k: Key)
    requires Paid(s, k) && s.phase.Sync?
    ensures Paid(Step(s, Ok), k)
  {
    hide Executions, Acknowledgements, Paid;
    Append(s.log, Executed(s.phase.e.key), k);
    SyncedPaid(s, Step(s, Ok), k);
  }

  lemma SyncedPaid(s: Loop, t: Loop, k: Key)
    requires Paid(s, k) && s.phase.Sync? && t.phase == SyncedPhase(s.phase.e) && t.orphans == s.orphans && t.store == Committed(s.store, s.phase.e)
    requires Acknowledgements(t.log, k) == Acknowledgements(s.log, k)
    requires Executions(t.log, k) <= Executions(s.log, k) + if s.phase.e.InProgress? && s.phase.e.key == k then 1 else 0
    ensures Paid(t, k)
  {
    var e := s.phase.e;
    assert e.InProgress? && e.key == k ==> Dispatching(s.phase, k);
    assert !Dispatching(t.phase, k) && Owed(t, k) == Owed(s, k);
    hide Executions, Acknowledgements, Owed, Dispatching;
  }

  lemma UnlinkPaid(s: Loop, k: Key)
    requires Paid(s, k) && s.phase.Unlink?
    ensures Paid(Step(s, Ok), k)
  {
    hide Executions, Acknowledgements, Dispatch, WrittenBack, Orphaned, Committed, Renamed, Forgotten, SyncedPhase;
  }

  lemma PrunePaid(s: Loop, k: Key)
    requires Paid(s, k) && s.phase.SyncRemoval?
    ensures Paid(Step(s, Ok), k)
  {
    Append(s.log, Pruned(s.phase.k), k);
    hide Executions, Acknowledgements, Dispatch, WrittenBack, Orphaned, Committed, Renamed, Unlinked, SyncedPhase;
  }

  lemma TellPaid(s: Loop, answer: Answer, k: Key)
    requires Paid(s, k) && s.phase.Tell?
    ensures Paid(Step(s, Attempt(answer)), k)
  {
    hide Executions, Acknowledgements, Paid;
    Append(s.log, Transmitted(s.phase.k, s.phase.report), k);
    Append(s.log + [Transmitted(s.phase.k, s.phase.report)], Acknowledged(s.phase.k), k);
    SamePaid(s, Step(s, Attempt(answer)), k);
  }

  lemma HandlerPaid(s: Loop, report: Report, k: Key)
    requires Paid(s, k) && s.phase.Execute?
    ensures Paid(Step(s, Handler(report)), k)
  {
    hide Executions, Acknowledgements, Paid;
    Append(s.log, Returned(s.phase.k, report), k);
    SamePaid(s, Step(s, Handler(report)), k);
  }

  lemma LeasePaid(s: Loop, ev: Event, k: Key)
    requires Paid(s, k) && (ev.Lease? || ev.Fail?)
    ensures Paid(Step(s, ev), k)
  {
    hide Executions, Acknowledgements;
  }

  lemma RecoveryPaid(s: Loop, ev: Event, k: Key)
    requires Paid(s, k) && (ev.WriteBack? || ev.Restart? || ev.Crash?)
    ensures Paid(Step(s, ev), k)
  {
    hide Executions, Acknowledgements;
  }

  lemma LandPaid(s: Loop, o: Orphan, k: Key)
    requires Paid(s, k)
    ensures Paid(Step(s, Land(o)), k)
  {
    hide Executions, Acknowledgements;
  }

  lemma StepPaid(s: Loop, ev: Event, k: Key)
    requires Paid(s, k)
    ensures Paid(Step(s, ev), k)
  {
    hide Paid;
    match (ev, s.phase)
    case (Lease(_, _, _), _) => LeasePaid(s, ev, k);
    case (Fail, _) => LeasePaid(s, ev, k);
    case (Ok, Rename(_)) => RenamePaid(s, k);
    case (Ok, Sync(_)) => SyncPaid(s, k);
    case (Ok, Unlink(_)) => UnlinkPaid(s, k);
    case (Ok, SyncRemoval(_)) => PrunePaid(s, k);
    case (Handler(report), Execute(_, _)) => HandlerPaid(s, report, k);
    case (Attempt(answer), Tell(_, _, _)) => TellPaid(s, answer, k);
    case (WriteBack(_), _) => RecoveryPaid(s, ev, k);
    case (Restart(_), _) => RecoveryPaid(s, ev, k);
    case (Crash(_), _) => RecoveryPaid(s, ev, k);
    case (Land(o), _) => LandPaid(s, o, k);
    case _ =>
  }

  lemma {:induction false} RunPaid(s: Loop, evs: seq<Event>, k: Key)
    requires Paid(s, k)
    ensures Paid(Run(s, evs), k)
    decreases |evs|
  {
    hide Paid, Step;
    if evs != [] {
      StepPaid(s, evs[0], k);
      RunPaid(Step(s, evs[0]), evs[1..], k);
    }
  }

  /** In every run, however it crashes or fails and whenever an aborted session's file operations take
      effect, a command is executed at most once more than its reports were acknowledged. As long as
      they do no harm to its records, an execution starts only from a durable record of its dispatch,
      and only if no execution before it is unacknowledged. */
  lemma AtMostOnce(enabled: bool, evs: seq<Event>, ev: Event, k: Key)
    ensures var s := Run(Start(enabled), evs);
            var s' := Step(s, ev);
            && Executions(s.log, k) <= Acknowledgements(s.log, k) + 1
            && (Spared(CleanStart, Start(enabled), evs, k) && Executions(s'.log, k) > Executions(s.log, k) ==>
                  && Unacknowledged(s.log, k) == 0
                  && k !in s.store.entries
                  && k in s'.store.durable && s'.store.durable[k].InProgress?)
  {
    assert Paid(Start(enabled), k);
    RunPaid(Start(enabled), evs, k);
    var s := Run(Start(enabled), evs);
    hide Run, Step, Executions, Acknowledgements, Unacknowledged, Spared;
    if Spared(CleanStart, Start(enabled), evs, k) && Executions(Step(s, ev).log, k) > Executions(s.log, k) {
      StartsClean(enabled, evs, ev, k);
    }
  }

  // ---------- A removal that takes effect late ----------

  /** The session ends between an acknowledgement and the removal of the entry. The next session
      reports again, prunes, and executes newly leased work; then the removal takes effect and hides
      the record of that dispatch from the session after it, which executes once more. */
  function LateRun(k: Key, claim: Claim, report: Report): seq<Event> {
    [Lease(k, claim, true), Ok, Ok, Handler(report), Ok, Ok, Attempt(Accepted)] + Repeating(k, claim) + Losing(k, claim)
  }

  function Repeating(k: Key, claim: Claim): seq<Event> {
    [Restart(true), Lease(k, claim, true), Ok] + [Ok, Attempt(Accepted), Ok] + [Ok, Lease(k, claim, true), Ok]
  }

  function Losing(k: Key, claim: Claim): seq<Event> {
    [Ok, Land(LateUnlink(k)), Restart(true)] + [Lease(k, claim, true), Ok, Ok]
  }

  function FirstLog(k: Key, report: Report): Log {
    [Executed(k), Returned(k, report), Transmitted(k, report), Acknowledged(k)]
  }

  function SecondLog(k: Key, report: Report): Log { FirstLog(k, report) + [Transmitted(k, report), Acknowledged(k), Pruned(k)] }

  /** The dispatch of the second execution is written but not yet synced. */
  function SecondDispatch(k: Key, claim: Claim, report: Report): Loop {
    Loop(Store(map[], map[k := InProgress(k, claim)], map[]), Sync(InProgress(k, claim)), true, SecondLog(k, report), multiset{LateUnlink(k)})
  }

  /** After the restart the report is transmitted once more. */
  function Retelling(k: Key, claim: Claim, report: Report): Loop {
    var files := map[k := Completed(k, claim, report)];
    Loop(Store(files, files, files), Sync(Completed(k, claim, report)), true, FirstLog(k, report), multiset{LateUnlink(k)})
  }

  function Pruning(k: Key, claim: Claim, report: Report): Loop {
    var files := map[k := Completed(k, claim, report)];
    Loop(Store(files, map[], files), SyncRemoval(k), true, FirstLog(k, report) + [Transmitted(k, report)] + [Acknowledged(k)], multiset{LateUnlink(k)})
  }

  lemma Restarts(k: Key, claim: Claim, report: Report, acked: Loop)
    requires var files := map[k := Completed(k, claim, report)];
      acked == Loop(Store(files, files, files), Unlink(k), true, FirstLog(k, report), multiset{})
    ensures Run(acked, [Restart(true), Lease(k, claim, true), Ok]) == Retelling(k, claim, report)
  {
    hide FirstLog;
    assert multiset{} + Orphaned(Unlink(k)) == multiset{LateUnlink(k)};
    RunThree(acked, Restart(true), Lease(k, claim, true), Ok, Retelling(k, claim, report));
  }

  lemma Prunes(k: Key, claim: Claim, report: Report)
    ensures Run(Retelling(k, claim, report), [Ok, Attempt(Accepted), Ok]) == Pruning(k, claim, report)
  {
    hide FirstLog;
    assert map[k := Completed(k, claim, report)] - {k} == map[];
    RunThree(Retelling(k, claim, report), Ok, Attempt(Accepted), Ok, Pruning(k, claim, report));
  }

  lemma Redispatches(k: Key, claim: Claim, report: Report)
    ensures Run(Pruning(k, claim, report), [Ok, Lease(k, claim, true), Ok]) == SecondDispatch(k, claim, report)
  {
    assert FirstLog(k, report) + [Transmitted(k, report)] + [Acknowledged(k)] + [Pruned(k)] == SecondLog(k, report);
    hide FirstLog, SecondLog;
    assert map[k := Completed(k, claim, report)] - {k} == map[];
    RunThree(Pruning(k, claim, report), Ok, Lease(k, claim, true), Ok, SecondDispatch(k, claim, report));
  }

  lemma Repeats(k: Key, claim: Claim, report: Report, acked: Loop)
    requires var files := map[k := Completed(k, claim, report)];
      acked == Loop(Store(files, files, files), Unlink(k), true, FirstLog(k, report), multiset{})
    ensures Run(acked, Repeating(k, claim)) == SecondDispatch(k, claim, report)
  {
    hide Run, Step, FirstLog, SecondLog;
    Restarts(k, claim, report, acked);
    Prunes(k, claim, report);
    Redispatches(k, claim, report);
    RunConcat(acked, [Restart(true), Lease(k, claim, true), Ok], [Ok, Attempt(Accepted), Ok]);
    RunConcat(acked, [Restart(true), Lease(k, claim, true), Ok] + [Ok, Attempt(Accepted), Ok], [Ok, Lease(k, claim, true), Ok]);
  }

  lemma Loses(k: Key, claim: Claim, report: Report)
    ensures Run(SecondDispatch(k, claim, report), Losing(k, claim)).log == SecondLog(k, report) + [Executed(k)] + [Executed(k)]
  {
    var running := map[k := InProgress(k, claim)];
    assert running - {k} == map[];
    var log := SecondLog(k, report) + [Executed(k)];
    var s3 := Loop(Store(map[], map[], running), Idle, true, log, multiset{});
    assert running[k := InProgress(k, claim)] == running;
    var s4 := Loop(Store(running, running, running), Execute(k, claim), true, log + [Executed(k)], multiset{});
    assert map[][k := InProgress(k, claim)] == running;
    hide SecondLog;
    RunThree(SecondDispatch(k, claim, report), Ok, Land(LateUnlink(k)), Restart(true), s3);
    RunThree(s3, Lease(k, claim, true), Ok, Ok, s4);
    hide Run, Step;
    RunConcat(SecondDispatch(k, claim, report), [Ok, Land(LateUnlink(k)), Restart(true)], [Lease(k, claim, true), Ok, Ok]);
  }

  /** So a command can be executed although an execution before it is unacknowledged; every execution
      beyond the first is still matched by an acknowledgement. */
  lemma LateUnlinkForgets(k: Key, claim: Claim, report: Report)
    ensures var log := Run(Start(true), LateRun(k, claim, report)).log;
            Unacknowledged(log, k) == 2 && Executions(log, k) == 3 && Acknowledgements(log, k) == 2
  {
    var files := map[k := Completed(k, claim, report)];
    var acked := Loop(Store(files, files, files), Unlink(k), true, FirstLog(k, report), multiset{});
    FirstLease(k, claim, report, acked);
    Repeats(k, claim, report, acked);
    Loses(k, claim, report);
    CountLate(k, report);
    hide Run, SecondLog, SecondDispatch, Executions, Acknowledgements, Unacknowledged;
    var first := [Lease(k, claim, true), Ok, Ok, Handler(report), Ok, Ok, Attempt(Accepted)];
    RunConcat(Start(true), first, Repeating(k, claim));
    RunConcat(Start(true), first + Repeating(k, claim), Losing(k, claim));
  }

  lemma CountLate(k: Key, report: Report)
    ensures var log := SecondLog(k, report) + [Executed(k)] + [Executed(k)];
            Unacknowledged(log, k) == 2 && Executions(log, k) == 3 && Acknowledgements(log, k) == 2
  {
    var first := FirstLog(k, report);
    assert first == [] + [Executed(k)] + [Returned(k, report)] + [Transmitted(k, report)] + [Acknowledged(k)];
    assert SecondLog(k, report) == first + [Transmitted(k, report)] + [Acknowledged(k)] + [Pruned(k)];
    Append([], Executed(k), k);
    Append([] + [Executed(k)], Returned(k, report), k);
    Append([] + [Executed(k)] + [Returned(k, report)], Transmitted(k, report), k);
    Append([] + [Executed(k)] + [Returned(k, report)] + [Transmitted(k, report)], Acknowledged(k), k);
    Append(first, Transmitted(k, report), k);
    Append(first + [Transmitted(k, report)], Acknowledged(k), k);
    Append(first + [Transmitted(k, report)] + [Acknowledged(k)], Pruned(k), k);
    Append(SecondLog(k, report), Executed(k), k);
    Append(SecondLog(k, report) + [Executed(k)], Executed(k), k);
    hide SecondLog, FirstLog;
  }

  // ---------- A record that is written late ----------

  /** The session ends while it records a dispatch. The next one executes the command and reports its
      result, the hub's answer is lost, and then the old record replaces the result. */
  function StaleRun(k: Key, claim: Claim, report: Report): seq<Event> {
    Executing(k, claim, report) + [Land(LateRename(InProgress(k, claim))), Restart(true), Lease(k, claim, true)] + [Ok, Ok, Attempt(Lost)]
  }

  function Executing(k: Key, claim: Claim, report: Report): seq<Event> {
    [Lease(k, claim, true), Restart(true), Lease(k, claim, true)] + [Ok, Ok, Handler(report)] + [Ok, Ok, Attempt(Lost)]
  }

  /** The result was reported in vain. */
  function Unheard(k: Key, claim: Claim, report: Report): Loop {
    var files := map[k := Completed(k, claim, report)];
    Loop(Store(files, files, files), Tell(k, report, 2), true, [Executed(k), Returned(k, report), Transmitted(k, report)],
         multiset{LateRename(InProgress(k, claim))})
  }

  lemma Executes(k: Key, claim: Claim, report: Report)
    ensures Run(Start(true), Executing(k, claim, report)) == Unheard(k, claim, report)
  {
    var late := multiset{LateRename(InProgress(k, claim))};
    var running, files := map[k := InProgress(k, claim)], map[k := Completed(k, claim, report)];
    var s1 := Start(true).(phase := Rename(InProgress(k, claim)), orphans := late);
    var s2 := Loop(Store(running, running, running), Rename(Completed(k, claim, report)), true, [Executed(k), Returned(k, report)], late);
    assert multiset{} + Orphaned(Rename(InProgress(k, claim))) == late;
    RunThree(Start(true), Lease(k, claim, true), Restart(true), Lease(k, claim, true), s1);
    assert map[][k := InProgress(k, claim)] == running;
    RunThree(s1, Ok, Ok, Handler(report), s2);
    assert running[k := Completed(k, claim, report)] == files;
    RunThree(s2, Ok, Ok, Attempt(Lost), Unheard(k, claim, report));
    hide Run, Step, Unheard;
    RunConcat(Start(true), [Lease(k, claim, true), Restart(true), Lease(k, claim, true)], [Ok, Ok, Handler(report)]);
    RunConcat(Start(true), [Lease(k, claim, true), Restart(true), Lease(k, claim, true)] + [Ok, Ok, Handler(report)], [Ok, Ok, Attempt(Lost)]);
  }

  lemma Replaces(k: Key, claim: Claim, report: Report)
    ensures var s := Run(Unheard(k, claim, report), [Land(LateRename(InProgress(k, claim))), Restart(true), Lease(k, claim, true)]);
            s.phase == Rename(Completed(k, claim, INTERRUPTED)) && s.log == Unheard(k, claim, report).log
  {
    var u := Unheard(k, claim, report);
    RunThree(u, Land(LateRename(InProgress(k, claim))), Restart(true), Lease(k, claim, true),
             Step(Step(Step(u, Land(LateRename(InProgress(k, claim)))), Restart(true)), Lease(k, claim, true)));
  }

  lemma TellsOnce(s: Loop, k: Key, claim: Claim, report: Report)
    requires s.phase == Rename(Completed(k, claim, report))
    ensures Run(s, [Ok, Ok, Attempt(Lost)]).log == s.log + [Transmitted(k, report)]
  {
    hide Dispatch, WrittenBack, Orphaned, Renamed, Committed, Unlinked, Forgotten;
    var e := Completed(k, claim, report);
    var s1 := s.(store := Renamed(s.store, e), phase := Sync(e));
    var s2 := s1.(store := Committed(s1.store, e), phase := Tell(k, report, 1));
    RunThree(s, Ok, Ok, Attempt(Lost), s2.(log := s.log + [Transmitted(k, report)], phase := Tell(k, report, 2)));
  }

  /** So two different reports can be transmitted without an acknowledgement between them. */
  lemma LateRenameContradicts(k: Key, claim: Claim, report: Report)
    ensures Run(Start(true), StaleRun(k, claim, report)).log
            == [Executed(k), Returned(k, report), Transmitted(k, report), Transmitted(k, INTERRUPTED)]
  {
    Executes(k, claim, report);
    Replaces(k, claim, report);
    assert Unheard(k, claim, report).log == [Executed(k), Returned(k, report), Transmitted(k, report)];
    hide Run, Unheard;
    var replaced := [Land(LateRename(InProgress(k, claim))), Restart(true), Lease(k, claim, true)];
    RunConcat(Start(true), Executing(k, claim, report), replaced);
    RunConcat(Start(true), Executing(k, claim, report) + replaced, [Ok, Ok, Attempt(Lost)]);
    TellsOnce(Run(Unheard(k, claim, report), replaced), k, claim, INTERRUPTED);
  }

  // ---------- A result that is written late ----------

  /** The session ends while it records a success. The next one reports the dispatch as interrupted and
      prunes it once that is acknowledged; then the record of the success appears. */
  function RevivedRun(k: Key, claim: Claim, report: Report): seq<Event> {
    Interrupting(k, claim, report) + [Land(LateRename(Completed(k, claim, report))), Restart(true), Lease(k, claim, true)] + [Ok, Ok, Attempt(Lost)]
  }

  function Interrupting(k: Key, claim: Claim, report: Report): seq<Event> {
    [Lease(k, claim, true), Ok, Ok] + [Handler(report), Restart(true), Lease(k, claim, true)] + [Ok, Ok, Attempt(Accepted)] + [Ok, Ok]
  }

  /** The interruption was acknowledged and the entry pruned. */
  function Buried(k: Key, claim: Claim, report: Report): Loop {
    Loop(Store(map[], map[], map[]), Idle, true,
         [Executed(k), Returned(k, report), Transmitted(k, INTERRUPTED), Acknowledged(k), Pruned(k)],
         multiset{LateRename(Completed(k, claim, report))})
  }

  /** The interruption is about to be recorded. */
  function CutShort(k: Key, claim: Claim, report: Report): Loop {
    var running := map[k := InProgress(k, claim)];
    Loop(Store(running, running, running), Rename(Completed(k, claim, INTERRUPTED)), true, [Executed(k), Returned(k, report)],
         multiset{LateRename(Completed(k, claim, report))})
  }

  function InExecution(k: Key, claim: Claim): Loop {
    var running := map[k := InProgress(k, claim)];
    Loop(Store(running, running, running), Execute(k, claim), true, [Executed(k)], multiset{})
  }

  lemma Dispatches(k: Key, claim: Claim)
    ensures Run(Start(true), [Lease(k, claim, true), Ok, Ok]) == InExecution(k, claim)
  {
    assert map[][k := InProgress(k, claim)] == map[k := InProgress(k, claim)];
    hide WrittenBack, Orphaned, Unlinked, Forgotten;
    RunThree(Start(true), Lease(k, claim, true), Ok, Ok, InExecution(k, claim));
  }

  lemma CutsShort(k: Key, claim: Claim, report: Report)
    ensures Run(InExecution(k, claim), [Handler(report), Restart(true), Lease(k, claim, true)]) == CutShort(k, claim, report)
  {
    hide WrittenBack, Renamed, Committed, Unlinked, Forgotten;
    assert multiset{} + Orphaned(Rename(Completed(k, claim, report))) == multiset{LateRename(Completed(k, claim, report))};
    assert [Executed(k)] + [Returned(k, report)] == [Executed(k), Returned(k, report)];
    RunThree(InExecution(k, claim), Handler(report), Restart(true), Lease(k, claim, true), CutShort(k, claim, report));
  }

  lemma Interrupts(k: Key, claim: Claim, report: Report)
    ensures Run(Start(true), [Lease(k, claim, true), Ok, Ok] + [Handler(report), Restart(true), Lease(k, claim, true)]) == CutShort(k, claim, report)
  {
    hide Run, Step, CutShort, InExecution;
    Dispatches(k, claim);
    CutsShort(k, claim, report);
    RunConcat(Start(true), [Lease(k, claim, true), Ok, Ok], [Handler(report), Restart(true), Lease(k, claim, true)]);
  }

  /** The interruption was acknowledged. */
  function Heard(k: Key, claim: Claim, report: Report): Loop {
    var files := map[k := Completed(k, claim, INTERRUPTED)];
    Loop(Store(files, files, files), Unlink(k), true, [Executed(k), Returned(k, report), Transmitted(k, INTERRUPTED), Acknowledged(k)],
         multiset{LateRename(Completed(k, claim, report))})
  }

  lemma Hears(k: Key, claim: Claim, report: Report)
    ensures Run(CutShort(k, claim, report), [Ok, Ok, Attempt(Accepted)]) == Heard(k, claim, report)
  {
    hide WrittenBack, Orphaned, Dispatch, Unlinked, Forgotten;
    assert map[k := InProgress(k, claim)][k := Completed(k, claim, INTERRUPTED)] == map[k := Completed(k, claim, INTERRUPTED)];
    RunThree(CutShort(k, claim, report), Ok, Ok, Attempt(Accepted), Heard(k, claim, report));
  }

  lemma Removes(k: Key, claim: Claim, report: Report)
    ensures Run(Heard(k, claim, report), [Ok, Ok]) == Buried(k, claim, report)
  {
    hide WrittenBack, Orphaned, Dispatch, Renamed, Committed;
    assert map[k := Completed(k, claim, INTERRUPTED)] - {k} == map[];
    RunTwo(Heard(k, claim, report), Ok, Ok);
  }

  lemma Buries(k: Key, claim: Claim, report: Report)
    ensures Run(CutShort(k, claim, report), [Ok, Ok, Attempt(Accepted)] + [Ok, Ok]) == Buried(k, claim, report)
  {
    hide Run, CutShort, Heard, Buried;
    Hears(k, claim, report);
    Removes(k, claim, report);
    RunConcat(CutShort(k, claim, report), [Ok, Ok, Attempt(Accepted)], [Ok, Ok]);
  }

  lemma Revives(k: Key, claim: Claim, report: Report)
    ensures var s := Run(Buried(k, claim, report), [Land(LateRename(Completed(k, claim, report))), Restart(true), Lease(k, claim, true)]);
            s.phase == Rename(Completed(k, claim, report)) && s.log == Buried(k, claim, report).log
  {
    var u := Buried(k, claim, report);
    RunThree(u, Land(LateRename(Completed(k, claim, report))), Restart(true), Lease(k, claim, true),
             Step(Step(Step(u, Land(LateRename(Completed(k, claim, report)))), Restart(true)), Lease(k, claim, true)));
  }

  /** So a success can be reported although the hub acknowledged the command as interrupted and its
      entry was pruned. */
  lemma LateRenameRevives(k: Key, claim: Claim, report: Report)
    ensures Run(Start(true), RevivedRun(k, claim, report)).log
            == [Executed(k), Returned(k, report), Transmitted(k, INTERRUPTED), Acknowledged(k), Pruned(k), Transmitted(k, report)]
  {
    Interrupts(k, claim, report);
    Buries(k, claim, report);
    Revives(k, claim, report);
    var log := [Executed(k), Returned(k, report), Transmitted(k, INTERRUPTED), Acknowledged(k), Pruned(k)];
    assert Buried(k, claim, report).log == log;
    hide Run, Buried, CutShort;
    var first := [Lease(k, claim, true), Ok, Ok] + [Handler(report), Restart(true), Lease(k, claim, true)];
    var second := [Ok, Ok, Attempt(Accepted)] + [Ok, Ok];
    var third := [Land(LateRename(Completed(k, claim, report))), Restart(true), Lease(k, claim, true)];
    assert first + second == Interrupting(k, claim, report);
    RunConcat(Start(true), first, second);
    RunConcat(Start(true), first + second, third);
    RunConcat(Start(true), first + second + third, [Ok, Ok, Attempt(Lost)]);
    TellsOnce(Run(Buried(k, claim, report), third), k, claim, report);
  }
}

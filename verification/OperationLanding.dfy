/** Exactly which file operations of an aborted session do harm when they take effect late. */
module OperationLanding {
  import opened OperationLedger
  import opened OperationLoop

  // ---------- What is promised of a key, and what breaks it ----------

  /** An execution starts only from a durable record of its dispatch, and only if none before it is
      unacknowledged; between two acknowledgements every report transmitted is the same; every report
      transmitted is the result of the latest execution, or one of the two fixed texts; a success
      transmitted although nothing was executed since the last acknowledgement is the one that was
      acknowledged, and its entry was not pruned. */
  datatype Promise = CleanStart | StableReport | TrueReport | SettledReport

  ghost predicate Breaks(promise: Promise, s: Loop, ev: Event, k: Key) {
    match promise
    case CleanStart =>
      var s' := Step(s, ev);
      && Executions(s'.log, k) > Executions(s.log, k)
      && !(Unacknowledged(s.log, k) == 0 && k in s'.store.durable && s'.store.durable[k].InProgress?)
    case StableReport => Tells(s, ev, k) && LastReport(s.log, k).Result? && LastReport(s.log, k) != Result(s.phase.report)
    case TrueReport => Tells(s, ev, k) && !Backed(s.log, k, s.phase.report)
    case SettledReport => Tells(s, ev, k) && !Settled(s.log, k, s.phase.report)
  }

  predicate Tells(s: Loop, ev: Event, k: Key) { s.phase.Tell? && s.phase.k == k && ev.Attempt? }

  // ---------- The condition on the state before the landing ----------

  predicate SyncsDispatch(s: Loop, k: Key) {
    s.enabled && s.phase.Sync? && s.phase.e.InProgress? && s.phase.e.key == k
  }

  /** The report that the hub has, or is about to get. */
  function Pinned(s: Loop, k: Key): Latest {
    if LastReport(s.log, k).Result? then LastReport(s.log, k)
    else Upcoming(s, k)
  }

  /** The report that is about to be transmitted. */
  function Upcoming(s: Loop, k: Key): Latest {
    match s.phase
    case Tell(x, report, _) => if x == k then Result(report) else Never
    case Sync(Completed(x, _, report)) => if x == k then Result(report) else Never
    case _ => Never
  }

  /** What will be reported for an entry that is found in the directory. */
  function OutcomeOf(e: Entry): Report { if e.Completed? then e.report else INTERRUPTED }

  predicate FixedText(report: Report) { report == INTERRUPTED || report == NOT_ENABLED }

  predicate Overwrites(o: Orphan, k: Key) { o.LateRename? && o.e.key == k }

  predicate Harmful(promise: Promise, s: Loop, o: Orphan, k: Key) {
    match promise
    case CleanStart =>
      || (o == LateUnlink(k) && (Unacknowledged(s.log, k) > 0 || SyncsDispatch(s, k)))
      || (Overwrites(o, k) && o.e.Completed? && SyncsDispatch(s, k))
    case StableReport =>
      Pinned(s, k).Result? && (o == LateUnlink(k) || (Overwrites(o, k) && OutcomeOf(o.e) != Pinned(s, k).report))
    case TrueReport =>
      && Overwrites(o, k) && o.e.Completed? && !FixedText(o.e.report)
      && (LatestOutcome(s.log, k) != Result(o.e.report) || SyncsDispatch(s, k))
    case SettledReport =>
      && Overwrites(o, k) && o.e.Completed? && o.e.report.status.Succeeded?
      && (!Settled(s.log, k, o.e.report) || s.phase == SyncRemoval(k)
          || (Upcoming(s, k).Result? && Upcoming(s, k).report != o.e.report))
  }

  /** No landing in the run is harmful when it happens. */
  predicate Spared(promise: Promise, s: Loop, evs: seq<Event>, k: Key)
    decreases |evs|
  {
    evs == []
    || ((evs[0].Land? && evs[0].o in s.orphans ==> !Harmful(promise, s, evs[0].o, k)) && Spared(promise, Step(s, evs[0]), evs[1..], k))
  }

  // ---------- The invariants ----------

  predicate Says(files: Files, k: Key, report: Report) { k in files && OutcomeOf(files[k]) == report }

  predicate SaidEverywhere(s: Store, k: Key, report: Report) {
    Says(s.entries, k, report) && Says(s.volatile, k, report) && Says(s.durable, k, report)
  }

  /** An unacknowledged execution has an entry in all three copies. */
  predicate Covered(s: Loop, k: Key) {
    && Unacknowledged(s.log, k) <= 1
    && (Unacknowledged(s.log, k) > 0 ==> k in s.store.entries && k in s.store.volatile && k in s.store.durable)
    && match s.phase
       case Rename(e) => e.key == k && e.InProgress? ==> k !in s.store.entries
       case Sync(e) => e.key == k && e.InProgress? ==>
         && k !in s.store.entries
         && (s.enabled ==> k in s.store.volatile && s.store.volatile[k].InProgress?)
       case Execute(x, _) => x == k && s.enabled ==> Unacknowledged(s.log, k) > 0
       case Unlink(x) => x == k ==> Unacknowledged(s.log, k) == 0
       case SyncRemoval(x) => x == k ==> Unacknowledged(s.log, k) == 0
       case _ => true
  }

  /** All three copies lead to the report the hub has. */
  predicate Steady(s: Loop, k: Key) {
    var last := LastReport(s.log, k);
    && (last.Result? ==> SaidEverywhere(s.store, k, last.report))
    && last != Running
    && match s.phase
       case Rename(e) => e.key == k && last.Result? ==> e.Completed? && e.report == last.report
       case Sync(e) => e.key == k ==> && (last.Result? ==> e.Completed? && e.report == last.report)
                                      && (e.Completed? ==> Says(s.store.volatile, k, e.report))
       case Execute(x, _) => x == k ==> last == Never
       case Tell(x, report, _) => x == k ==> (last.Result? ==> last.report == report) && SaidEverywhere(s.store, k, report)
       case Unlink(x) => x == k ==> last == Never
       case SyncRemoval(x) => x == k ==> last == Never
       case _ => true
  }

  predicate BackedIn(files: Files, log: Log, k: Key) { k in files && files[k].Completed? ==> Backed(log, k, files[k].report) }

  /** Whatever result is stored is that of the latest execution. */
  predicate Current(s: Loop, k: Key) {
    && BackedIn(s.store.entries, s.log, k) && BackedIn(s.store.volatile, s.log, k) && BackedIn(s.store.durable, s.log, k)
    && match s.phase
       case Rename(e) => e.key == k && e.Completed? ==> Backed(s.log, k, e.report)
       case Sync(e) => e.key == k ==>
         if e.Completed? then Backed(s.log, k, e.report)
         else s.enabled && k in s.store.volatile && s.store.volatile[k].Completed? ==> FixedText(s.store.volatile[k].report)
       case Execute(x, _) => x == k && s.enabled ==> LatestOutcome(s.log, k) == Running
       case Tell(x, report, _) => x == k ==> Backed(s.log, k, report)
       case _ => true
  }

  /** If the file holds a success, it is this one. */
  predicate OnlySuccess(files: Files, k: Key, report: Report) {
    k in files && files[k].Completed? && files[k].report.status.Succeeded? ==> files[k].report == report
  }

  predicate SettledIn(files: Files, log: Log, k: Key) { k in files && files[k].Completed? ==> Settled(log, k, files[k].report) }

  /** Whatever success is stored is unacknowledged, or the one that was acknowledged. */
  predicate Accounted(s: Loop, k: Key) {
    && SettledIn(s.store.entries, s.log, k) && SettledIn(s.store.volatile, s.log, k) && SettledIn(s.store.durable, s.log, k)
    && match s.phase
       case Rename(e) => e.key == k && e.Completed? ==> Settled(s.log, k, e.report)
       case Sync(e) => e.key == k && e.Completed? ==> Settled(s.log, k, e.report) && OnlySuccess(s.store.volatile, k, e.report)
       case Execute(x, _) => x == k && s.enabled ==> Unacknowledged(s.log, k) > 0
       case Tell(x, report, _) => x == k ==>
         && Settled(s.log, k, report) && OnlySuccess(s.store.entries, k, report)
         && OnlySuccess(s.store.volatile, k, report) && OnlySuccess(s.store.durable, k, report)
       case Unlink(x) => x == k ==> Unacknowledged(s.log, k) == 0
       case SyncRemoval(x) => x == k ==> Unacknowledged(s.log, k) == 0 && OnlySuccess(s.store.volatile, k, INTERRUPTED)
       case _ => true
  }

  predicate Kept(promise: Promise, s: Loop, k: Key) {
    match promise
    case CleanStart => Covered(s, k)
    case StableReport => Steady(s, k)
    case TrueReport => Current(s, k)
    case SettledReport => Accounted(s, k)
  }

  // ---------- Every step keeps them, harmless landings included ----------

  /** The log after a step, as far as `k` is concerned. */
  lemma LogSteps(s: Loop, ev: Event, k: Key)
    ensures var (log, log') := (s.log, Step(s, ev).log);
            match (ev, s.phase)
            case (Ok, Sync(e)) =>
              var runs := e.InProgress? && s.enabled && e.key == k;
              && Unacknowledged(log', k) == Unacknowledged(log, k) + (if runs then 1 else 0)
              && Executions(log', k) == Executions(log, k) + (if runs then 1 else 0)
              && LatestOutcome(log', k) == (if runs then Running else LatestOutcome(log, k))
              && LastReport(log', k) == LastReport(log, k) && SameAcknowledgement(log, log', k)
            case (Handler(report), Execute(x, _)) =>
              && Unacknowledged(log', k) == Unacknowledged(log, k) && Executions(log', k) == Executions(log, k)
              && LatestOutcome(log', k) == (if x == k && s.enabled then Result(report) else LatestOutcome(log, k))
              && LastReport(log', k) == LastReport(log, k) && SameAcknowledgement(log, log', k)
            case (Attempt(answer), Tell(x, report, _)) =>
              var acked := answer.Accepted? && x == k;
              && Unacknowledged(log', k) == (if acked then 0 else Unacknowledged(log, k)) && Executions(log', k) == Executions(log, k)
              && LatestOutcome(log', k) == LatestOutcome(log, k)
              && LastReport(log', k) == (if acked then Never else if x == k then Result(report) else LastReport(log, k))
              && (if acked then LastAcknowledged(log', k) == Result(report) && !PrunedSince(log', k) else SameAcknowledgement(log, log', k))
            case (Ok, SyncRemoval(x)) =>
              && Unacknowledged(log', k) == Unacknowledged(log, k) && Executions(log', k) == Executions(log, k)
              && LatestOutcome(log', k) == LatestOutcome(log, k) && LastReport(log', k) == LastReport(log, k)
              && (if x == k then PrunedSince(log', k) else SameAcknowledgement(log, log', k))
            case _ => log' == log
  {
    hide Executions, Acknowledgements, Unacknowledged, LatestOutcome, LastReport, LastAcknowledged, PrunedSince;
    hide Dispatch, Renamed, Committed, Unlinked, Forgotten, WrittenBack, Orphaned, SyncedPhase;
    match (ev, s.phase)
    case (Ok, Sync(e)) => Append(s.log, Executed(e.key), k);
    case (Handler(report), Execute(x, _)) => Append(s.log, Returned(x, report), k);
    case (Attempt(_), Tell(x, report, _)) =>
      Append(s.log, Transmitted(x, report), k);
      Append(s.log + [Transmitted(x, report)], Acknowledged(x), k);
    case (Ok, SyncRemoval(x)) => Append(s.log, Pruned(x), k);
    case _ =>
  }

  /** Nothing about the last acknowledgement changed. */
  predicate SameAcknowledgement(log: Log, log': Log, k: Key) {
    LastAcknowledged(log', k) == LastAcknowledged(log, k) && (PrunedSince(log', k) <==> PrunedSince(log, k))
  }

  /** The file system, the end of a session, or a power failure. */
  predicate FromOutside(ev: Event) { ev.WriteBack? || ev.Restart? || ev.Crash? }

  lemma OkCovered(s: Loop, ev: Event, k: Key)
    requires Covered(s, k) && ev.Ok?
    ensures Covered(Step(s, ev), k)
  {
    LogSteps(s, ev, k);
    hide Executions, Unacknowledged, LatestOutcome, LastReport, LastAcknowledged, PrunedSince;
  }

  lemma OutsideCovered(s: Loop, ev: Event, k: Key)
    requires Covered(s, k) && FromOutside(ev)
    ensures Covered(Step(s, ev), k)
  {
    LogSteps(s, ev, k);
    hide Executions, Unacknowledged, LatestOutcome, LastReport, LastAcknowledged, PrunedSince, Dispatch, Committed, Forgotten, SyncedPhase;
  }

  lemma LandCovered(s: Loop, o: Orphan, k: Key)
    requires Covered(s, k) && (o in s.orphans ==> !Harmful(CleanStart, s, o, k))
    ensures Covered(Step(s, Land(o)), k)
  {
    hide Executions, Unacknowledged, LatestOutcome, LastReport, LastAcknowledged, PrunedSince, Dispatch, Committed, Forgotten, SyncedPhase;
  }

  lemma LoopCovered(s: Loop, ev: Event, k: Key)
    requires Covered(s, k) && !ev.Ok? && !FromOutside(ev) && !ev.Land?
    ensures Covered(Step(s, ev), k)
  {
    LogSteps(s, ev, k);
    hide Executions, Unacknowledged, LatestOutcome, LastReport, LastAcknowledged, PrunedSince;
  }

  lemma OkSteady(s: Loop, ev: Event, k: Key)
    requires Steady(s, k) && ev.Ok?
    ensures Steady(Step(s, ev), k)
  {
    LogSteps(s, ev, k);
    hide Executions, Unacknowledged, LatestOutcome, LastReport, LastAcknowledged, PrunedSince;
  }

  lemma OutsideSteady(s: Loop, ev: Event, k: Key)
    requires Steady(s, k) && FromOutside(ev)
    ensures Steady(Step(s, ev), k)
  {
    LogSteps(s, ev, k);
    hide Executions, Unacknowledged, LatestOutcome, LastReport, LastAcknowledged, PrunedSince, Dispatch, Committed, Forgotten, SyncedPhase;
  }

  lemma LandSteady(s: Loop, o: Orphan, k: Key)
    requires Steady(s, k) && (o in s.orphans ==> !Harmful(StableReport, s, o, k))
    ensures Steady(Step(s, Land(o)), k)
  {
    hide Executions, Unacknowledged, LatestOutcome, LastReport, LastAcknowledged, PrunedSince, Dispatch, Committed, Forgotten, SyncedPhase;
  }

  lemma LoopSteady(s: Loop, ev: Event, k: Key)
    requires Steady(s, k) && !ev.Ok? && !FromOutside(ev) && !ev.Land?
    ensures Steady(Step(s, ev), k)
  {
    LogSteps(s, ev, k);
    hide Executions, Unacknowledged, LatestOutcome, LastReport, LastAcknowledged, PrunedSince;
  }

  lemma OkCurrent(s: Loop, ev: Event, k: Key)
    requires Current(s, k) && ev.Ok?
    ensures Current(Step(s, ev), k)
  {
    LogSteps(s, ev, k);
    hide Executions, Unacknowledged, LatestOutcome, LastReport, LastAcknowledged, PrunedSince;
  }

  lemma OutsideCurrent(s: Loop, ev: Event, k: Key)
    requires Current(s, k) && FromOutside(ev)
    ensures Current(Step(s, ev), k)
  {
    LogSteps(s, ev, k);
    hide Executions, Unacknowledged, LatestOutcome, LastReport, LastAcknowledged, PrunedSince, Dispatch, Committed, Forgotten, SyncedPhase;
  }

  lemma LandCurrent(s: Loop, o: Orphan, k: Key)
    requires Current(s, k) && (o in s.orphans ==> !Harmful(TrueReport, s, o, k))
    ensures Current(Step(s, Land(o)), k)
  {
    hide Executions, Unacknowledged, LatestOutcome, LastReport, LastAcknowledged, PrunedSince, Dispatch, Committed, Forgotten, SyncedPhase;
  }

  lemma LoopCurrent(s: Loop, ev: Event, k: Key)
    requires Current(s, k) && !ev.Ok? && !FromOutside(ev) && !ev.Land?
    ensures Current(Step(s, ev), k)
  {
    LogSteps(s, ev, k);
    hide Executions, Unacknowledged, LatestOutcome, LastReport, LastAcknowledged, PrunedSince;
  }

  lemma OkAccounted(s: Loop, ev: Event, k: Key)
    requires Accounted(s, k) && ev.Ok?
    ensures Accounted(Step(s, ev), k)
  {
    LogSteps(s, ev, k);
    hide Executions, Unacknowledged, LatestOutcome, LastReport, LastAcknowledged, PrunedSince;
  }

  lemma OutsideAccounted(s: Loop, ev: Event, k: Key)
    requires Accounted(s, k) && FromOutside(ev)
    ensures Accounted(Step(s, ev), k)
  {
    LogSteps(s, ev, k);
    hide Executions, Unacknowledged, LatestOutcome, LastReport, LastAcknowledged, PrunedSince, Dispatch, Committed, Forgotten, SyncedPhase;
  }

  lemma LandAccounted(s: Loop, o: Orphan, k: Key)
    requires Accounted(s, k) && (o in s.orphans ==> !Harmful(SettledReport, s, o, k))
    ensures Accounted(Step(s, Land(o)), k)
  {
    hide Executions, Unacknowledged, LatestOutcome, LastReport, LastAcknowledged, PrunedSince, Dispatch, Committed, Forgotten, SyncedPhase;
  }

  lemma LoopAccounted(s: Loop, ev: Event, k: Key)
    requires Accounted(s, k) && !ev.Ok? && !FromOutside(ev) && !ev.Land?
    ensures Accounted(Step(s, ev), k)
  {
    LogSteps(s, ev, k);
    hide Executions, Unacknowledged, LatestOutcome, LastReport, LastAcknowledged, PrunedSince;
  }

  lemma StepKept(promise: Promise, s: Loop, ev: Event, k: Key)
    requires Kept(promise, s, k) && (ev.Land? && ev.o in s.orphans ==> !Harmful(promise, s, ev.o, k))
    ensures Kept(promise, Step(s, ev), k)
  {
    hide Covered, Steady, Current, Accounted, Step, Harmful;
    match promise
    case CleanStart =>
      if ev.Ok? { OkCovered(s, ev, k); } else if FromOutside(ev) { OutsideCovered(s, ev, k); }
      else if ev.Land? { LandCovered(s, ev.o, k); } else { LoopCovered(s, ev, k); }
    case StableReport =>
      if ev.Ok? { OkSteady(s, ev, k); } else if FromOutside(ev) { OutsideSteady(s, ev, k); }
      else if ev.Land? { LandSteady(s, ev.o, k); } else { LoopSteady(s, ev, k); }
    case TrueReport =>
      if ev.Ok? { OkCurrent(s, ev, k); } else if FromOutside(ev) { OutsideCurrent(s, ev, k); }
      else if ev.Land? { LandCurrent(s, ev.o, k); } else { LoopCurrent(s, ev, k); }
    case SettledReport =>
      if ev.Ok? { OkAccounted(s, ev, k); } else if FromOutside(ev) { OutsideAccounted(s, ev, k); }
      else if ev.Land? { LandAccounted(s, ev.o, k); } else { LoopAccounted(s, ev, k); }
  }

  lemma StartKept(promise: Promise, enabled: bool, k: Key)
    ensures Kept(promise, Start(enabled), k)
  {
  }

  lemma {:induction false} RunKept(promise: Promise, s: Loop, evs: seq<Event>, k: Key)
    requires Kept(promise, s, k) && Spared(promise, s, evs, k)
    ensures Kept(promise, Run(s, evs), k)
    decreases |evs|
  {
    hide Kept, Step, Harmful;
    if evs != [] {
      StepKept(promise, s, evs[0], k);
      RunKept(promise, Step(s, evs[0]), evs[1..], k);
    }
  }

  /** While the invariant holds, nothing breaks the promise. */
  lemma NothingBreaks(promise: Promise, s: Loop, ev: Event, k: Key)
    requires Kept(promise, s, k)
    ensures !Breaks(promise, s, ev, k)
  {
    LogSteps(s, ev, k);
    hide Executions, Unacknowledged, LatestOutcome, LastReport, LastAcknowledged, PrunedSince, Renamed, Unlinked, Forgotten, WrittenBack, Orphaned, Dispatch;
  }

  /** In every run whose landings are harmless, each promise is kept. */
  lemma PromiseKept(promise: Promise, enabled: bool, evs: seq<Event>, ev: Event, k: Key)
    requires Spared(promise, Start(enabled), evs, k)
    ensures !Breaks(promise, Run(Start(enabled), evs), ev, k)
  {
    hide Kept, Run, Breaks, Spared;
    StartKept(promise, enabled, k);
    RunKept(promise, Start(enabled), evs, k);
    NothingBreaks(promise, Run(Start(enabled), evs), ev, k);
  }

  lemma {:induction false} NoLandingSpared(promise: Promise, s: Loop, evs: seq<Event>, k: Key)
    requires NoLanding(evs)
    ensures Spared(promise, s, evs, k)
    decreases |evs|
  {
    hide Step, Harmful;
    if evs != [] {
      assert !evs[0].Land?;
      NoLandingSpared(promise, Step(s, evs[0]), evs[1..], k);
    }
  }

  // ---------- A harmful landing breaks the promise, sooner or later ----------

  /** The next session finds an entry, and is about to report what it says. */
  lemma ReportsEntry(s: Loop, k: Key)
    requires k in s.store.volatile
    ensures var t := Run(s, [Restart(true), Lease(k, "", true), Ok, Ok]);
            t.phase == Tell(k, OutcomeOf(s.store.volatile[k]), 1) && t.log == s.log
  {
    hide WrittenBack, Orphaned, Unlinked, Forgotten;
    var report := OutcomeOf(s.store.volatile[k]);
    var e := Completed(k, "", report);
    var s1 := Step(s, Restart(true));
    var s2 := s1.(phase := Rename(e));
    assert Step(s1, Lease(k, "", true)) == s2;
    var s3 := Step(s2, Ok);
    RunThree(s, Restart(true), Lease(k, "", true), Ok, s3);
    RunConcat(s, [Restart(true), Lease(k, "", true), Ok], [Ok]);
    assert [Restart(true), Lease(k, "", true), Ok] + [Ok] == [Restart(true), Lease(k, "", true), Ok, Ok];
    RunOne(s3, Ok);
  }

  /** The next session finds no entry, and is about to execute. */
  lemma FindsNothing(s: Loop, k: Key)
    requires k !in s.store.volatile
    ensures var t := Run(s, [Restart(true), Lease(k, "", true), Ok]);
            t.phase == Sync(InProgress(k, "")) && t.enabled && t.log == s.log
  {
    hide WrittenBack, Orphaned, Unlinked, Forgotten;
    var s1 := Step(s, Restart(true));
    var s2 := s1.(phase := Rename(InProgress(k, "")));
    assert Step(s1, Lease(k, "", true)) == s2;
    RunThree(s, Restart(true), Lease(k, "", true), Ok, Step(s2, Ok));
  }

  /** It executes, and is about to report the result. */
  lemma ReportsResult(s: Loop, k: Key, report: Report)
    requires s.phase == Sync(InProgress(k, "")) && s.enabled
    ensures var t := Run(s, [Ok, Handler(report), Ok, Ok]);
            t.phase == Tell(k, report, 1) && LastReport(t.log, k) == LastReport(s.log, k)
  {
    hide WrittenBack, Orphaned, Unlinked, Forgotten, Dispatch, LastReport, Renamed, Committed;
    var s1 := Step(s, Ok);
    var s2 := Step(s1, Handler(report));
    var s3 := Step(s2, Ok);
    LogSteps(s, Ok, k);
    LogSteps(s1, Handler(report), k);
    RunThree(s, Ok, Handler(report), Ok, s3);
    RunConcat(s, [Ok, Handler(report), Ok], [Ok]);
    assert [Ok, Handler(report), Ok] + [Ok] == [Ok, Handler(report), Ok, Ok];
    RunOne(s3, Ok);
  }

  function Landed(s: Loop, o: Orphan): Loop { Step(s, Land(o)) }

  lemma LandedIs(s: Loop, o: Orphan)
    requires o in s.orphans
    ensures var t := Landed(s, o); t.log == s.log && t.phase == s.phase && t.enabled == s.enabled
    ensures o.LateUnlink? ==> o.k !in Landed(s, o).store.volatile
    ensures o.LateRename? ==> o.e.key in Landed(s, o).store.volatile && Landed(s, o).store.volatile[o.e.key] == o.e
  {
    hide Dispatch, WrittenBack, Orphaned, Committed, Forgotten;
  }

  /** A dispatch whose record was not in the directory, or was replaced there, is executed; the
      directory is then as it was. */
  lemma DispatchRuns(s: Loop, k: Key)
    requires SyncsDispatch(s, k)
    ensures var t := Run(s, [Ok]);
            && t.store.volatile == s.store.volatile
            && Unacknowledged(t.log, k) == Unacknowledged(s.log, k) + 1 && LatestOutcome(t.log, k) == Running
  {
    RunOne(s, Ok);
    LogSteps(s, Ok, k);
    hide Unacknowledged, LatestOutcome, Dispatch, WrittenBack, Orphaned, Forgotten;
  }

  lemma ExecutesAgain(s: Loop, k: Key)
    requires SyncsDispatch(s, k)
    requires Unacknowledged(s.log, k) > 0 || k !in s.store.volatile || s.store.volatile[k].Completed?
    ensures Breaks(CleanStart, s, Ok, k)
  {
    LogSteps(s, Ok, k);
    hide Executions, Unacknowledged, Dispatch, WrittenBack, Orphaned, Unlinked, Forgotten;
  }

  /** A removal hides an unacknowledged execution; a dispatch whose record is gone, or replaced, is
      executed without one. */
  lemma LandingUncovers(s: Loop, o: Orphan, k: Key) returns (more: seq<Event>)
    requires Harmful(CleanStart, s, o, k) && o in s.orphans
    ensures NoLanding(more) && Breaks(CleanStart, Run(Landed(s, o), more), Ok, k)
  {
    hide Step, Unacknowledged, Breaks, Landed;
    LandedIs(s, o);
    var t := Landed(s, o);
    if SyncsDispatch(s, k) {
      more := [];
    } else {
      FindsNothing(t, k);
      more := [Restart(true), Lease(k, "", true), Ok];
    }
    hide Run;
    ExecutesAgain(Run(t, more), k);
  }

  /** The pinned report reaches the hub, if it has not already, and the directory is as it was. */
  lemma PinnedIsTold(s: Loop, k: Key, report: Report) returns (more: seq<Event>)
    requires Pinned(s, k) == Result(report)
    ensures NoLanding(more)
    ensures LastReport(Run(s, more).log, k) == Result(report) && Run(s, more).store.volatile == s.store.volatile
  {
    hide LastReport, Renamed, Unlinked, Forgotten, WrittenBack, Orphaned, Dispatch;
    if LastReport(s.log, k).Result? {
      more := [];
    } else if s.phase.Tell? {
      more := [Attempt(Lost)];
      RunOne(s, Attempt(Lost));
      LogSteps(s, Attempt(Lost), k);
    } else {
      more := [Ok] + [Attempt(Lost)];
      RunOne(s, Ok);
      LogSteps(s, Ok, k);
      RunOne(Step(s, Ok), Attempt(Lost));
      LogSteps(Step(s, Ok), Attempt(Lost), k);
      RunConcat(s, [Ok], [Attempt(Lost)]);
    }
  }

  lemma ToldAgain(s: Loop, k: Key, report: Report, last: Report)
    requires s.phase == Tell(k, report, 1) && LastReport(s.log, k) == Result(last) && last != report
    ensures Breaks(StableReport, s, Attempt(Lost), k)
  {
    hide LastReport;
  }

  /** After a removal the command is executed again, and may return something else; an entry that says
      something else is reported instead. */
  lemma LandingContradicts(s: Loop, o: Orphan, k: Key) returns (more: seq<Event>)
    requires Harmful(StableReport, s, o, k) && o in s.orphans
    ensures NoLanding(more) && Breaks(StableReport, Run(Landed(s, o), more), Attempt(Lost), k)
  {
    hide Run, Step, LastReport, Breaks, Landed;
    LandedIs(s, o);
    var t, last := Landed(s, o), Pinned(s, k).report;
    var first := PinnedIsTold(t, k, last);
    var u := Run(t, first);
    if o.LateUnlink? {
      var other := last.(error := last.error + "!");
      assert |other.error| == |last.error| + 1;
      FindsNothing(u, k);
      var v := Run(u, [Restart(true), Lease(k, "", true), Ok]);
      ReportsResult(v, k, other);
      RunConcat(u, [Restart(true), Lease(k, "", true), Ok], [Ok, Handler(other), Ok, Ok]);
      RunConcat(t, first, [Restart(true), Lease(k, "", true), Ok] + [Ok, Handler(other), Ok, Ok]);
      more := first + ([Restart(true), Lease(k, "", true), Ok] + [Ok, Handler(other), Ok, Ok]);
      ToldAgain(Run(t, more), k, other, last);
    } else {
      ReportsEntry(u, k);
      RunConcat(t, first, [Restart(true), Lease(k, "", true), Ok, Ok]);
      more := first + [Restart(true), Lease(k, "", true), Ok, Ok];
      ToldAgain(Run(t, more), k, OutcomeOf(o.e), last);
    }
  }

  lemma ToldUntruly(s: Loop, k: Key, report: Report)
    requires s.phase == Tell(k, report, 1) && !Backed(s.log, k, report)
    ensures Breaks(TrueReport, s, Attempt(Lost), k)
  {
    hide Backed;
  }

  /** A result that is not, or will not be, that of the latest execution is reported for it. */
  lemma LandingMisleads(s: Loop, o: Orphan, k: Key) returns (more: seq<Event>)
    requires Harmful(TrueReport, s, o, k) && o in s.orphans
    ensures NoLanding(more) && Breaks(TrueReport, Run(Landed(s, o), more), Attempt(Lost), k)
  {
    hide Run, Step, LatestOutcome, Breaks, Landed;
    LandedIs(s, o);
    var t := Landed(s, o);
    if LatestOutcome(s.log, k) != Result(o.e.report) {
      ReportsEntry(t, k);
      more := [Restart(true), Lease(k, "", true), Ok, Ok];
    } else {
      DispatchRuns(t, k);
      ReportsEntry(Run(t, [Ok]), k);
      RunConcat(t, [Ok], [Restart(true), Lease(k, "", true), Ok, Ok]);
      more := [Ok] + [Restart(true), Lease(k, "", true), Ok, Ok];
    }
    ToldUntruly(Run(t, more), k, o.e.report);
  }

  /** The report that was about to be transmitted is acknowledged, and the directory is as it was. */
  lemma UpcomingIsAcknowledged(s: Loop, k: Key) returns (more: seq<Event>)
    requires Upcoming(s, k).Result?
    ensures NoLanding(more)
    ensures var t := Run(s, more);
            && t.store.volatile == s.store.volatile
            && Unacknowledged(t.log, k) == 0 && LastAcknowledged(t.log, k) == Upcoming(s, k)
  {
    hide Unacknowledged, LastAcknowledged, LastReport, Renamed, Unlinked, Forgotten, WrittenBack, Orphaned, Dispatch;
    if s.phase.Tell? {
      more := [Attempt(Accepted)];
      RunOne(s, Attempt(Accepted));
      LogSteps(s, Attempt(Accepted), k);
    } else {
      more := [Ok] + [Attempt(Accepted)];
      RunOne(s, Ok);
      RunOne(Step(s, Ok), Attempt(Accepted));
      LogSteps(Step(s, Ok), Attempt(Accepted), k);
      RunConcat(s, [Ok], [Attempt(Accepted)]);
    }
  }

  lemma RemovalIsPruned(s: Loop, k: Key)
    requires s.phase == SyncRemoval(k)
    ensures var t := Run(s, [Ok]);
            t.store.volatile == s.store.volatile && Unacknowledged(t.log, k) == Unacknowledged(s.log, k) && PrunedSince(t.log, k)
  {
    RunOne(s, Ok);
    LogSteps(s, Ok, k);
    hide Unacknowledged, PrunedSince, Dispatch, WrittenBack, Orphaned, Committed;
  }

  lemma ToldUnsettled(s: Loop, k: Key, report: Report)
    requires s.phase == Tell(k, report, 1) && !Settled(s.log, k, report)
    ensures Breaks(SettledReport, s, Attempt(Lost), k)
  {
    hide Settled;
  }

  lemma UnsettledTold(s: Loop, first: seq<Event>, k: Key, report: Report) returns (more: seq<Event>)
    requires NoLanding(first) && Run(s, first).store.volatile == s.store.volatile
    requires k in s.store.volatile && OutcomeOf(s.store.volatile[k]) == report && !Settled(Run(s, first).log, k, report)
    ensures NoLanding(more) && Breaks(SettledReport, Run(s, more), Attempt(Lost), k)
  {
    hide Run, Settled, Breaks;
    ReportsEntry(Run(s, first), k);
    RunConcat(s, first, [Restart(true), Lease(k, "", true), Ok, Ok]);
    more := first + [Restart(true), Lease(k, "", true), Ok, Ok];
    ToldUnsettled(Run(s, more), k, report);
  }

  /** A success that was not acknowledged last, or will not be, or will have been pruned, is found by a
      later session. */
  lemma LandingRevives(s: Loop, o: Orphan, k: Key) returns (more: seq<Event>)
    requires Harmful(SettledReport, s, o, k) && o in s.orphans && Accounted(s, k)
    ensures NoLanding(more) && Breaks(SettledReport, Run(Landed(s, o), more), Attempt(Lost), k)
  {
    hide Unacknowledged, LastAcknowledged, PrunedSince, Step, Breaks, Landed;
    LandedIs(s, o);
    var t := Landed(s, o);
    var first: seq<Event> := [];
    if !Settled(s.log, k, o.e.report) {
      RunNothing(t);
    } else if s.phase == SyncRemoval(k) {
      RemovalIsPruned(t, k);
      first := [Ok];
    } else {
      first := UpcomingIsAcknowledged(t, k);
    }
    hide Run;
    more := UnsettledTold(t, first, k, o.e.report);
  }

  lemma RunNothing(s: Loop)
    ensures Run(s, []) == s
  {
  }

  // ---------- Exactly ----------

  /** Some way to go on without further landings breaks the promise. */
  ghost predicate CanBreak(promise: Promise, s: Loop, k: Key) {
    exists more: seq<Event>, ev: Event :: NoLanding(more) && Breaks(promise, Run(s, more), ev, k)
  }

  lemma HarmlessKeeps(promise: Promise, s: Loop, o: Orphan, k: Key)
    requires Kept(promise, s, k) && o in s.orphans && !Harmful(promise, s, o, k)
    ensures !CanBreak(promise, Landed(s, o), k)
  {
    hide Kept, Harmful, Step, Run, Breaks, Spared, NoLanding;
    StepKept(promise, s, Land(o), k);
    forall more: seq<Event>, ev: Event | NoLanding(more) ensures !Breaks(promise, Run(Landed(s, o), more), ev, k) {
      NoLandingSpared(promise, Landed(s, o), more, k);
      RunKept(promise, Landed(s, o), more, k);
      NothingBreaks(promise, Run(Landed(s, o), more), ev, k);
    }
  }

  lemma HarmfulBreaks(promise: Promise, s: Loop, o: Orphan, k: Key)
    requires Kept(promise, s, k) && o in s.orphans && Harmful(promise, s, o, k)
    ensures CanBreak(promise, Landed(s, o), k)
  {
    hide Harmful, Run, Breaks, NoLanding, Landed, Accounted;
    match promise
    case CleanStart => var more := LandingUncovers(s, o, k);
    case StableReport => var more := LandingContradicts(s, o, k);
    case TrueReport => var more := LandingMisleads(s, o, k);
    case SettledReport => var more := LandingRevives(s, o, k);
  }

  /** In every run whose landings so far were harmless, the landing of any file operation left over
      from an aborted session can break a promise if and only if it is harmful in the state it lands in. */
  lemma HarmfulExactly(promise: Promise, enabled: bool, evs: seq<Event>, o: Orphan, k: Key)
    requires Spared(promise, Start(enabled), evs, k) && o in Run(Start(enabled), evs).orphans
    ensures var s := Run(Start(enabled), evs);
            CanBreak(promise, Step(s, Land(o)), k) <==> Harmful(promise, s, o, k)
  {
    hide Kept, Run, Harmful, Spared, CanBreak, Step;
    StartKept(promise, enabled, k);
    RunKept(promise, Start(enabled), evs, k);
    var s := Run(Start(enabled), evs);
    if Harmful(promise, s, o, k) { HarmfulBreaks(promise, s, o, k); } else { HarmlessKeeps(promise, s, o, k); }
  }
}

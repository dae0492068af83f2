/** The durable record of command executions: one file per execution, a memory view of them, and a
    file system that may lose what was not synced. */
module OperationLedger {
  import opened Wrappers

  /** `key` and `entry_path` are functions of the operation and the step. */
  datatype Key = Key(operation: string, step: nat)

  type Claim = string

  datatype Status = Succeeded | Failed

  datatype Report = Report(status: Status, output: string, error: string)

  datatype Entry = InProgress(key: Key, claim: Claim) | Completed(key: Key, claim: Claim, report: Report)

  /** Contents of the ledger directory. */
  type Files = map<Key, Entry>

  /** What the process sees in memory, what it would read from the directory, and what a power
      failure would leave of the directory. */
  datatype Store = Store(entries: Files, volatile: Files, durable: Files)

  /** Every file says which execution it describes, and its name agrees. */
  ghost predicate WellNamed(files: Files) {
    forall k :: k in files ==> files[k].key == k
  }

  // ---------- Atomic pieces of the ledger operations ----------

  /** The temporary file was written, synced and renamed over the entry. */
  function Renamed(s: Store, e: Entry): Store { s.(volatile := s.volatile[e.key := e]) }

  /** The directory was synced after a rename; only now does memory follow. */
  function Committed(s: Store, e: Entry): Store {
    s.(durable := s.volatile, entries := s.entries[e.key := e])
  }

  function Unlinked(s: Store, k: Key): Store { s.(volatile := s.volatile - {k}) }

  function Forgotten(s: Store, k: Key): Store {
    s.(durable := s.volatile, entries := s.entries - {k})
  }

  /** Where an operation on the ledger fails: before the directory changed, or after, when the
      directory could not be synced. */
  datatype Fault = NoFault | Unchanged | NotSynced

  function Replace(s: Store, e: Entry, fault: Fault): (Store, bool) {
    match fault
    case NoFault => (Committed(Renamed(s, e), e), true)
    case Unchanged => (s, false)
    case NotSynced => (Renamed(s, e), false)
  }

  function Remove(s: Store, k: Key, fault: Fault): (Store, bool) {
    match fault
    case NoFault => (Forgotten(Unlinked(s, k), k), true)
    case Unchanged => (s, false)
    case NotSynced => (Unlinked(s, k), false)
  }

  // ---------- Runs of ledger operations ----------

  datatype Change = Put(e: Entry, fault: Fault) | Drop(k: Key, fault: Fault)

  function KeyOf(c: Change): Key { if c.Put? then c.e.key else c.k }

  function Apply(s: Store, c: Change): Store {
    match c
    case Put(e, fault) => Replace(s, e, fault).0
    case Drop(k, fault) => Remove(s, k, fault).0
  }

  function Changed(s: Store, cs: seq<Change>): Store {
    if cs == [] then s else Apply(Changed(s, cs[..|cs| - 1]), cs[|cs| - 1])
  }

  /** What the ledger should say about `k`: the outcome of the last change of it that succeeded. */
  function Promised(s: Store, cs: seq<Change>, k: Key): Option<Entry> {
    if cs == [] then Recorded(s.entries, k)
    else
      var c := cs[|cs| - 1];
      if KeyOf(c) == k && c.fault.NoFault? then (if c.Put? then Some(c.e) else None) else Promised(s, cs[..|cs| - 1], k)
  }

  function Recorded(files: Files, k: Key): Option<Entry> { if k in files then Some(files[k]) else None }

  /** The last change of `k` that reached the directory was not confirmed. */
  predicate InDoubt(cs: seq<Change>, k: Key) {
    cs != [] && var c := cs[|cs| - 1];
                if KeyOf(c) == k && !c.fault.Unchanged? then c.fault.NotSynced? else InDoubt(cs[..|cs| - 1], k)
  }

  /** Whatever changes fail, and how: memory says of every key what the last successful change of it
      made it say; the directory says the same unless a later change of that key was left unconfirmed;
      and after any success the disk holds all of the directory. */
  lemma {:induction false} MemoryFollowsSuccess(s: Store, cs: seq<Change>, k: Key)
    requires s.entries == s.volatile == s.durable
    ensures var t := Changed(s, cs);
            && Recorded(t.entries, k) == Promised(s, cs, k)
            && (!InDoubt(cs, k) ==> Recorded(t.volatile, k) == Promised(s, cs, k))
            && (cs != [] && cs[|cs| - 1].fault.NoFault? ==> t.durable == t.volatile)
  {
    if cs != [] { MemoryFollowsSuccess(s, cs[..|cs| - 1], k); }
  }

  datatype Previous = Nothing | Interrupted | Finished(report: Report)

  function PreviousOf(entries: Files, k: Key): Previous {
    if k !in entries then Nothing
    else match entries[k]
      case InProgress(_, _) => Interrupted
      case Completed(_, _, report) => Finished(report)
  }

  // ---------- The ledger as an object ----------

  class Directory {
    var volatile: Files
    var durable: Files

    constructor (volatile: Files, durable: Files)
      ensures this.volatile == volatile && this.durable == durable
    {
      this.volatile, this.durable := volatile, durable;
    }
  }

  class Ledger {
    const directory: Directory
    var entries: Files

    ghost function State(): Store
      reads this, directory
    {
      Store(entries, directory.volatile, directory.durable)
    }

    /** Open the ledger without its entries; `Load` reads them. */
    constructor (directory: Directory)
      ensures this.directory == directory && entries == map[]
    {
      this.directory := directory;
      entries := map[];
    }

    /** `load_entries`: every entry of the directory, or an error if a file is misnamed. */
    method Load() returns (ok: bool)
      requires entries == map[]
      modifies this
      ensures ok <==> WellNamed(directory.volatile)
      ensures ok ==> State() == old(State()).(entries := directory.volatile)
    {
      var todo := directory.volatile.Keys;
      ghost var seen: set<Key> := {};
      while todo != {}
        invariant todo !! seen && todo + seen == directory.volatile.Keys
        invariant forall k :: k in seen ==> directory.volatile[k].key == k
        invariant entries.Keys == seen && forall k :: k in seen ==> entries[k] == directory.volatile[k]
        decreases todo
      {
        var k :| k in todo;
        var e := directory.volatile[k];
        if e.key != k {
          return false;
        }
        entries := entries[e.key := e];
        todo, seen := todo - {k}, seen + {k};
      }
      ok := true;
      assert entries == directory.volatile;
    }

    method Look(k: Key) returns (p: Previous)
      ensures p == PreviousOf(entries, k)
    {
      if k !in entries { return Nothing; }
      match entries[k]
      case InProgress(_, _) => p := Interrupted;
      case Completed(_, _, report) => p := Finished(report);
    }

    /** `persist_entry`: rename, then sync the directory. */
    method PersistEntry(e: Entry, fault: Fault) returns (ok: bool)
      modifies directory
      ensures ok <==> fault.NoFault?
      ensures directory.volatile == if fault.Unchanged? then old(directory.volatile) else old(directory.volatile)[e.key := e]
      ensures directory.durable == if ok then directory.volatile else old(directory.durable)
    {
      if fault.Unchanged? { return false; }
      directory.volatile := directory.volatile[e.key := e];
      if fault.NotSynced? { return false; }
      directory.durable := directory.volatile;
      ok := true;
    }

    /** `mark_in_progress` and `mark_completed`. */
    method ReplaceEntry(e: Entry, fault: Fault) returns (ok: bool)
      modifies this, directory
      ensures (State(), ok) == Replace(old(State()), e, fault)
    {
      ok := PersistEntry(e, fault);
      if ok { entries := entries[e.key := e]; }
    }

    method RemoveEntry(k: Key, fault: Fault) returns (ok: bool)
      modifies this, directory
      ensures (State(), ok) == Remove(old(State()), k, fault)
    {
      if fault.Unchanged? { return false; }
      directory.volatile := directory.volatile - {k};
      if fault.NotSynced? { return false; }
      directory.durable := directory.volatile;
      entries := entries - {k};
      ok := true;
    }
  }
}

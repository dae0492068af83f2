/** Weighted admission of RPC bodies: permits counted in bytes, first from the actor's share and then
    from the global budget. */
module Admission {

  const CLEANUP_THRESHOLD: nat := 64

  const MAX_TRACKED: nat := 4096

  /** Semaphores are told apart by number; number 0 is shared by excess actors. */
  type Semaphore = nat

  const OVERFLOW: Semaphore := 0

  /** How far an acquisition got. A waiter may have part of its permits assigned to it already. */
  datatype Stage = AtActor(given: nat) | AtGlobal(given: nat) | Admitted

  /** One acquisition, from choosing its actor semaphore until its permits are dropped. */
  datatype Request = Request(key: string, semaphore: Semaphore, bytes: nat, stage: Stage)

  /** `registry` refers to semaphores without keeping them alive. */
  datatype Pool = Pool(
    capacity: nat,
    actorCapacity: nat,
    globalAvailable: nat,
    available: map<Semaphore, nat>,
    registry: map<string, Semaphore>,
    requests: seq<Request>,
    nextSemaphore: Semaphore)

  function New(capacity: nat, actorCapacity: nat): Pool {
    Pool(capacity, actorCapacity, capacity, map[OVERFLOW := actorCapacity], map[], [], 1)
  }

  // ---------- What an acquisition holds ----------

  function ActorShare(r: Request): nat {
    match r.stage
    case AtActor(given) => given
    case _ => r.bytes
  }

  function GlobalShare(r: Request): nat {
    match r.stage
    case AtActor(_) => 0
    case AtGlobal(given) => given
    case Admitted => r.bytes
  }

  function ActorTotal(rs: seq<Request>, s: Semaphore): nat {
    if rs == [] then 0 else (if rs[0].semaphore == s then ActorShare(rs[0]) else 0) + ActorTotal(rs[1..], s)
  }

  function GlobalTotal(rs: seq<Request>): nat {
    if rs == [] then 0 else GlobalShare(rs[0]) + GlobalTotal(rs[1..])
  }

  /** Permits of the actor's dedicated semaphores held by all acquisitions under one key. */
  function DedicatedTotal(rs: seq<Request>, key: string): nat {
    if rs == [] then 0
    else (if rs[0].key == key && rs[0].semaphore != OVERFLOW then ActorShare(rs[0]) else 0) + DedicatedTotal(rs[1..], key)
  }

  /** Somebody waits at the semaphore or holds permits of it. */
  predicate Live(rs: seq<Request>, s: Semaphore) { exists i :: 0 <= i < |rs| && rs[i].semaphore == s }

  // ---------- Steps ----------

  function Retained(p: Pool): map<string, Semaphore> {
    if |p.registry| >= CLEANUP_THRESHOLD then map k | k in p.registry && Live(p.requests, p.registry[k]) :: p.registry[k]
    else p.registry
  }

  /** `acquire` up to its first wait: choose the actor's semaphore. */
  function Enter(p: Pool, key: string, bytes: nat): Pool {
    if bytes == 0 then p
    else
      var registry := Retained(p);
      if key in registry && Live(p.requests, registry[key]) then
        p.(registry := registry, requests := p.requests + [Request(key, registry[key], bytes, AtActor(0))])
      else if |registry| >= MAX_TRACKED then
        p.(registry := registry, requests := p.requests + [Request(key, OVERFLOW, bytes, AtActor(0))])
      else
        var s := p.nextSemaphore;
        p.(registry := registry[key := s], available := p.available[s := p.actorCapacity], nextSemaphore := s + 1,
           requests := p.requests + [Request(key, s, bytes, AtActor(0))])
  }

  /** A semaphore gives `n` of its available permits to a waiter; with its last one the waiter goes on. */
  function Assign(p: Pool, i: nat, n: nat): Pool
    requires forall j :: 0 <= j < |p.requests| ==> p.requests[j].semaphore in p.available
  {
    if i >= |p.requests| then p
    else
      var r := p.requests[i];
      match r.stage
      case AtActor(given) =>
        if n > p.available[r.semaphore] || given + n > r.bytes then p
        else
          var stage := if given + n == r.bytes then AtGlobal(0) else AtActor(given + n);
          p.(available := p.available[r.semaphore := p.available[r.semaphore] - n], requests := p.requests[i := r.(stage := stage)])
      case AtGlobal(given) =>
        if n > p.globalAvailable || given + n > r.bytes then p
        else
          var stage := if given + n == r.bytes then Admitted else AtGlobal(given + n);
          p.(globalAvailable := p.globalAvailable - n, requests := p.requests[i := r.(stage := stage)])
      case Admitted => p
  }

  /** The permit is dropped, or the wait is given up. */
  function Release(p: Pool, i: nat): Pool
    requires forall j :: 0 <= j < |p.requests| ==> p.requests[j].semaphore in p.available
  {
    if i >= |p.requests| then p
    else
      var r := p.requests[i];
      p.(available := p.available[r.semaphore := p.available[r.semaphore] + ActorShare(r)],
         globalAvailable := p.globalAvailable + GlobalShare(r),
         requests := p.requests[..i] + p.requests[i + 1..])
  }

  /** `shrink_to`: split off what is kept and drop the rest. */
  function Shrink(p: Pool, i: nat, bytes: nat): Pool
    requires forall j :: 0 <= j < |p.requests| ==> p.requests[j].semaphore in p.available
    requires i < |p.requests| && p.requests[i].stage.Admitted? && bytes <= p.requests[i].bytes
  {
    if bytes == 0 then Release(p, i)
    else
      var r := p.requests[i];
      p.(available := p.available[r.semaphore := p.available[r.semaphore] + (r.bytes - bytes)],
         globalAvailable := p.globalAvailable + (r.bytes - bytes),
         requests := p.requests[i := r.(bytes := bytes)])
  }

  // ---------- The invariant ----------

  ghost predicate RequestInv(p: Pool, r: Request) {
    && r.semaphore in p.available
    && (r.stage.AtActor? || r.stage.AtGlobal? ==> r.stage.given < r.bytes)
    && (r.semaphore != OVERFLOW ==> r.key in p.registry && p.registry[r.key] == r.semaphore)
  }

  ghost predicate RequestsInv(p: Pool) { forall i :: 0 <= i < |p.requests| ==> RequestInv(p, p.requests[i]) }

  /** Held plus available is the capacity, for the global budget and for every actor semaphore. */
  ghost predicate Balanced(p: Pool) {
    && p.globalAvailable + GlobalTotal(p.requests) == p.capacity
    && forall s :: s in p.available ==> p.available[s] + ActorTotal(p.requests, s) == p.actorCapacity
  }

  /** Different keys are registered with different semaphores, none with the shared one. */
  ghost predicate RegistryInv(p: Pool) {
    && (forall s :: s in p.available ==> s < p.nextSemaphore)
    && OVERFLOW in p.available && OVERFLOW < p.nextSemaphore
    && (forall k :: k in p.registry ==> p.registry[k] in p.available && p.registry[k] != OVERFLOW)
    && (forall k, l :: k in p.registry && l in p.registry && p.registry[k] == p.registry[l] ==> k == l)
    && |p.registry| <= MAX_TRACKED
  }

  ghost predicate PoolInv(p: Pool) { RequestsInv(p) && Balanced(p) && RegistryInv(p) }

  // ---------- Sums ----------

  lemma {:induction false} ActorTotalConcat(a: seq<Request>, b: seq<Request>, s: Semaphore)
    ensures ActorTotal(a + b, s) == ActorTotal(a, s) + ActorTotal(b, s)
  {
    if a == [] { assert a + b == b; } else { ActorTotalConcat(a[1..], b, s); assert (a + b)[1..] == a[1..] + b; }
  }

  lemma {:induction false} GlobalTotalConcat(a: seq<Request>, b: seq<Request>)
    ensures GlobalTotal(a + b) == GlobalTotal(a) + GlobalTotal(b)
  {
    if a == [] { assert a + b == b; } else { GlobalTotalConcat(a[1..], b); assert (a + b)[1..] == a[1..] + b; }
  }

  /** One acquisition out of a list: its share, and the others'. */
  lemma Apart(rs: seq<Request>, i: nat, s: Semaphore)
    requires i < |rs|
    ensures var others := rs[..i] + rs[i + 1..];
            && GlobalTotal(rs) == GlobalTotal(others) + GlobalShare(rs[i])
            && ActorTotal(rs, s) == ActorTotal(others, s) + if rs[i].semaphore == s then ActorShare(rs[i]) else 0
  {
    assert rs == rs[..i] + ([rs[i]] + rs[i + 1..]);
    GlobalTotalConcat(rs[..i], [rs[i]] + rs[i + 1..]);
    GlobalTotalConcat(rs[..i], rs[i + 1..]);
    ActorTotalConcat(rs[..i], [rs[i]] + rs[i + 1..], s);
    ActorTotalConcat(rs[..i], rs[i + 1..], s);
  }

  lemma Changed(rs: seq<Request>, i: nat, r: Request, s: Semaphore)
    requires i < |rs| && r.semaphore == rs[i].semaphore
    ensures GlobalTotal(rs[i := r]) + GlobalShare(rs[i]) == GlobalTotal(rs) + GlobalShare(r)
    ensures ActorTotal(rs[i := r], s) + (if r.semaphore == s then ActorShare(rs[i]) else 0)
            == ActorTotal(rs, s) + if r.semaphore == s then ActorShare(r) else 0
  {
    Apart(rs, i, s);
    Apart(rs[i := r], i, s);
    assert rs[i := r][..i] == rs[..i] && rs[i := r][i + 1..] == rs[i + 1..];
  }

  lemma Entered(rs: seq<Request>, r: Request, s: Semaphore)
    requires r.stage == AtActor(0)
    ensures GlobalTotal(rs + [r]) == GlobalTotal(rs) && ActorTotal(rs + [r], s) == ActorTotal(rs, s)
  {
    GlobalTotalConcat(rs, [r]);
    ActorTotalConcat(rs, [r], s);
  }

  lemma {:induction false} DeadHoldsNothing(rs: seq<Request>, s: Semaphore)
    requires !Live(rs, s)
    ensures ActorTotal(rs, s) == 0
  {
    if rs != [] {
      assert rs[0].semaphore != s;
      forall i | 0 <= i < |rs[1..]| ensures rs[1..][i].semaphore != s { assert rs[1..][i] == rs[i + 1]; }
      DeadHoldsNothing(rs[1..], s);
    }
  }

  // ---------- Preservation ----------

  lemma RetainedFacts(p: Pool)
    requires PoolInv(p)
    ensures var registry := Retained(p);
            && |registry| <= |p.registry|
            && (forall k :: k in registry ==> k in p.registry && registry[k] == p.registry[k])
            && (forall i :: 0 <= i < |p.requests| && p.requests[i].semaphore != OVERFLOW ==> p.requests[i].key in registry)
  {
    var registry := Retained(p);
    assert registry.Keys <= p.registry.Keys;
    SubsetSize(registry.Keys, p.registry.Keys);
    forall i | 0 <= i < |p.requests| && p.requests[i].semaphore != OVERFLOW ensures p.requests[i].key in registry {
      assert RequestInv(p, p.requests[i]);
    }
    hide GlobalTotal, ActorTotal;
  }

  lemma SubsetSize<T>(a: set<T>, b: set<T>)
    requires a <= b
    ensures |a| <= |b|
  {
    assert b == a + (b - a);
  }

  /** Entering with a semaphore the pool has. */
  lemma EnterExisting(p: Pool, registry: map<string, Semaphore>, r: Request)
    requires PoolInv(p) && r.stage == AtActor(0) && 0 < r.bytes && r.semaphore in p.available
    requires |registry| <= |p.registry| && (forall k :: k in registry ==> k in p.registry && registry[k] == p.registry[k])
    requires forall i :: 0 <= i < |p.requests| && p.requests[i].semaphore != OVERFLOW ==> p.requests[i].key in registry
    requires r.semaphore != OVERFLOW ==> r.key in registry && registry[r.key] == r.semaphore
    ensures PoolInv(p.(registry := registry, requests := p.requests + [r]))
  {
    forall s ensures GlobalTotal(p.requests + [r]) == GlobalTotal(p.requests) && ActorTotal(p.requests + [r], s) == ActorTotal(p.requests, s) {
      Entered(p.requests, r, s);
    }
    hide GlobalTotal, ActorTotal;
  }

  lemma EnterFresh(p: Pool, registry: map<string, Semaphore>, r: Request)
    requires PoolInv(p) && r.stage == AtActor(0) && 0 < r.bytes && r.semaphore == p.nextSemaphore
    requires |registry| <= |p.registry| && |registry| < MAX_TRACKED
    requires forall k :: k in registry ==> k in p.registry && registry[k] == p.registry[k]
    requires forall i :: 0 <= i < |p.requests| && p.requests[i].semaphore != OVERFLOW ==> p.requests[i].key in registry
    requires r.key in registry ==> !Live(p.requests, registry[r.key])
    ensures PoolInv(p.(registry := registry[r.key := r.semaphore], available := p.available[r.semaphore := p.actorCapacity],
                       nextSemaphore := r.semaphore + 1, requests := p.requests + [r]))
  {
    var s := r.semaphore;
    var q := p.(registry := registry[r.key := s], available := p.available[s := p.actorCapacity],
                nextSemaphore := s + 1, requests := p.requests + [r]);
    UnusedSemaphore(p);
    ReplacedKey(p, registry, r.key);
    FreshRequests(p, registry, r, q);
    FreshRegistry(p, registry, r, q);
    FreshBalanced(p, r, q);
    hide PoolInv, RequestsInv, RegistryInv, Balanced;
    assert PoolInv(q) by { AllInv(q); }
  }

  lemma AllInv(q: Pool)
    requires RequestsInv(q) && RegistryInv(q) && Balanced(q)
    ensures PoolInv(q)
  {
  }

  lemma FreshRequests(p: Pool, registry: map<string, Semaphore>, r: Request, q: Pool)
    requires RequestsInv(p) && r.stage == AtActor(0) && 0 < r.bytes && q.requests == p.requests + [r]
    requires q.registry == registry[r.key := r.semaphore] && q.available == p.available[r.semaphore := p.actorCapacity]
    requires forall k :: k in registry ==> k in p.registry && registry[k] == p.registry[k]
    requires forall i :: 0 <= i < |p.requests| && p.requests[i].semaphore != OVERFLOW ==>
               p.requests[i].key in registry && p.requests[i].key != r.key
    ensures RequestsInv(q)
  {
    forall i | 0 <= i < |q.requests| ensures RequestInv(q, q.requests[i]) {
      if i < |p.requests| { assert RequestInv(p, p.requests[i]); }
    }
  }

  lemma FreshRegistry(p: Pool, registry: map<string, Semaphore>, r: Request, q: Pool)
    requires RegistryInv(p) && r.semaphore == p.nextSemaphore && q.nextSemaphore == p.nextSemaphore + 1
    requires |registry| <= |p.registry| && |registry| < MAX_TRACKED
    requires forall k :: k in registry ==> k in p.registry && registry[k] == p.registry[k]
    requires q.registry == registry[r.key := r.semaphore] && q.available == p.available[r.semaphore := p.actorCapacity]
    ensures RegistryInv(q)
  {
    assert q.registry.Keys == registry.Keys + {r.key};
    assert |q.registry| <= |registry| + 1;
  }

  lemma FreshBalanced(p: Pool, r: Request, q: Pool)
    requires Balanced(p) && r.stage == AtActor(0) && ActorTotal(p.requests, r.semaphore) == 0 && r.semaphore !in p.available
    requires q == p.(requests := p.requests + [r], available := p.available[r.semaphore := p.actorCapacity],
                     registry := q.registry, nextSemaphore := q.nextSemaphore)
    ensures Balanced(q)
  {
    forall t ensures GlobalTotal(p.requests + [r]) == GlobalTotal(p.requests) && ActorTotal(p.requests + [r], t) == ActorTotal(p.requests, t) {
      Entered(p.requests, r, t);
    }
    hide GlobalTotal, ActorTotal;
  }

  lemma UnusedSemaphore(p: Pool)
    requires PoolInv(p)
    ensures ActorTotal(p.requests, p.nextSemaphore) == 0 && p.nextSemaphore !in p.available
  {
    forall i | 0 <= i < |p.requests| ensures p.requests[i].semaphore != p.nextSemaphore { assert RequestInv(p, p.requests[i]); }
    DeadHoldsNothing(p.requests, p.nextSemaphore);
    hide GlobalTotal, ActorTotal;
  }

  /** A key whose registered semaphore is dead, or that has none, has no dedicated acquisitions. */
  lemma ReplacedKey(p: Pool, registry: map<string, Semaphore>, key: string)
    requires PoolInv(p) && (forall k :: k in registry ==> k in p.registry && registry[k] == p.registry[k])
    requires forall i :: 0 <= i < |p.requests| && p.requests[i].semaphore != OVERFLOW ==> p.requests[i].key in registry
    requires key in registry ==> !Live(p.requests, registry[key])
    ensures forall i :: 0 <= i < |p.requests| && p.requests[i].semaphore != OVERFLOW ==> p.requests[i].key != key
  {
    hide GlobalTotal, ActorTotal;
    forall i | 0 <= i < |p.requests| && p.requests[i].semaphore != OVERFLOW ensures p.requests[i].key != key {
      assert RequestInv(p, p.requests[i]);
    }
  }

  lemma EnterKeeps(p: Pool, key: string, bytes: nat)
    requires PoolInv(p)
    ensures PoolInv(Enter(p, key, bytes))
  {
    hide PoolInv, Live, Retained;
    if bytes > 0 {
      var registry := Retained(p);
      RetainedFacts(p);
      PoolFacts(p);
      if key in registry && Live(p.requests, registry[key]) {
        EnterExisting(p, registry, Request(key, registry[key], bytes, AtActor(0)));
      } else if |registry| >= MAX_TRACKED {
        EnterExisting(p, registry, Request(key, OVERFLOW, bytes, AtActor(0)));
      } else {
        EnterFresh(p, registry, Request(key, p.nextSemaphore, bytes, AtActor(0)));
      }
    }
  }

  lemma PoolFacts(p: Pool)
    requires PoolInv(p)
    ensures forall k :: k in p.registry ==> p.registry[k] in p.available
    ensures OVERFLOW in p.available && forall j :: 0 <= j < |p.requests| ==> p.requests[j].semaphore in p.available
  {
    hide GlobalTotal, ActorTotal;
  }

  /** One acquisition changed and gave permits back or took some. */
  lemma ChangeKeeps(p: Pool, i: nat, r: Request, actor: nat, global: nat)
    requires PoolInv(p) && i < |p.requests| && r == p.requests[i].(bytes := r.bytes, stage := r.stage)
    requires r.stage.AtActor? || r.stage.AtGlobal? ==> r.stage.given < r.bytes
    requires actor + ActorShare(r) == p.available[p.requests[i].semaphore] + ActorShare(p.requests[i])
    requires global + GlobalShare(r) == p.globalAvailable + GlobalShare(p.requests[i])
    ensures PoolInv(p.(available := p.available[r.semaphore := actor], globalAvailable := global, requests := p.requests[i := r]))
  {
    forall s ensures && GlobalTotal(p.requests[i := r]) + GlobalShare(p.requests[i]) == GlobalTotal(p.requests) + GlobalShare(r)
                     && ActorTotal(p.requests[i := r], s) + (if r.semaphore == s then ActorShare(p.requests[i]) else 0)
                        == ActorTotal(p.requests, s) + if r.semaphore == s then ActorShare(r) else 0
    {
      Changed(p.requests, i, r, s);
    }
    assert RequestInv(p, p.requests[i]);
    hide GlobalTotal, ActorTotal, ActorShare, GlobalShare;
  }

  lemma AssignKeeps(p: Pool, i: nat, n: nat)
    requires PoolInv(p)
    ensures (forall j :: 0 <= j < |p.requests| ==> p.requests[j].semaphore in p.available) && PoolInv(Assign(p, i, n))
  {
    hide PoolInv;
    PoolFacts(p);
    if i < |p.requests| {
      var r := p.requests[i];
      match r.stage
      case AtActor(given) =>
        if n <= p.available[r.semaphore] && given + n <= r.bytes {
          var stage := if given + n == r.bytes then AtGlobal(0) else AtActor(given + n);
          WaitsForSome(p, i);
          ChangeKeeps(p, i, r.(stage := stage), p.available[r.semaphore] - n, p.globalAvailable);
        }
      case AtGlobal(given) =>
        if n <= p.globalAvailable && given + n <= r.bytes {
          var stage := if given + n == r.bytes then Admitted else AtGlobal(given + n);
          ChangeKeeps(p, i, r.(stage := stage), p.available[r.semaphore], p.globalAvailable - n);
          assert p.available[r.semaphore := p.available[r.semaphore]] == p.available;
        }
      case Admitted =>
    }
  }

  lemma WaitsForSome(p: Pool, i: nat)
    requires PoolInv(p) && i < |p.requests|
    ensures !p.requests[i].stage.Admitted? ==> 0 < p.requests[i].bytes
  {
    assert RequestInv(p, p.requests[i]);
    hide Balanced, RegistryInv;
  }

  lemma ReleaseKeeps(p: Pool, i: nat)
    requires PoolInv(p)
    ensures (forall j :: 0 <= j < |p.requests| ==> p.requests[j].semaphore in p.available) && PoolInv(Release(p, i))
  {
    PoolFacts(p);
    if i < |p.requests| {
      var others := p.requests[..i] + p.requests[i + 1..];
      forall s ensures && GlobalTotal(p.requests) == GlobalTotal(others) + GlobalShare(p.requests[i])
                       && ActorTotal(p.requests, s) == ActorTotal(others, s) + if p.requests[i].semaphore == s then ActorShare(p.requests[i]) else 0
      {
        Apart(p.requests, i, s);
      }
      forall j | 0 <= j < |others| ensures RequestInv(p, others[j]) {
        assert others[j] == if j < i then p.requests[j] else p.requests[j + 1];
      }
      hide GlobalTotal, ActorTotal, ActorShare, GlobalShare;
    }
  }

  /** Shrinking keeps exactly the given number of bytes, of both budgets. */
  lemma ShrinkKeeps(p: Pool, i: nat, bytes: nat)
    requires PoolInv(p) && i < |p.requests| && p.requests[i].stage.Admitted? && bytes <= p.requests[i].bytes
    ensures forall j :: 0 <= j < |p.requests| ==> p.requests[j].semaphore in p.available
    ensures var q, s := Shrink(p, i, bytes), p.requests[i].semaphore;
            && PoolInv(q)
            && GlobalTotal(q.requests) == GlobalTotal(p.requests) - p.requests[i].bytes + bytes
            && ActorTotal(q.requests, s) == ActorTotal(p.requests, s) - p.requests[i].bytes + bytes
            && (bytes > 0 ==> q.requests[i] == p.requests[i].(bytes := bytes))
  {
    hide PoolInv, GlobalTotal, ActorTotal;
    PoolFacts(p);
    ReleaseKeeps(p, i);
    var r := p.requests[i];
    Apart(p.requests, i, r.semaphore);
    if bytes > 0 {
      Changed(p.requests, i, r.(bytes := bytes), r.semaphore);
      ChangeKeeps(p, i, r.(bytes := bytes), p.available[r.semaphore] + (r.bytes - bytes), p.globalAvailable + (r.bytes - bytes));
    }
  }

  // ---------- All runs ----------

  datatype Op =
    | Acquire(key: string, bytes: nat)
    | Grant(i: nat, n: nat)
    | ShrinkTo(i: nat, bytes: nat)
    | DropOrCancel(i: nat)

  ghost function Step(p: Pool, op: Op): (q: Pool)
    requires PoolInv(p)
    ensures PoolInv(q)
  {
    match op
    case Acquire(key, bytes) => EnterKeeps(p, key, bytes); Enter(p, key, bytes)
    case Grant(i, n) => AssignKeeps(p, i, n); Assign(p, i, n)
    case ShrinkTo(i, bytes) =>
      if i < |p.requests| && p.requests[i].stage.Admitted? && bytes <= p.requests[i].bytes then ShrinkKeeps(p, i, bytes); Shrink(p, i, bytes)
      else p
    case DropOrCancel(i) => ReleaseKeeps(p, i); Release(p, i)
  }

  lemma NewInv(capacity: nat, actorCapacity: nat)
    ensures PoolInv(New(capacity, actorCapacity))
  {
  }

  ghost function Run(capacity: nat, actorCapacity: nat, ops: seq<Op>): (p: Pool)
    ensures PoolInv(p)
  {
    if ops == [] then
      NewInv(capacity, actorCapacity);
      New(capacity, actorCapacity)
    else Step(Run(capacity, actorCapacity, ops[..|ops| - 1]), ops[|ops| - 1])
  }

  lemma {:induction false} DedicatedWithin(rs: seq<Request>, key: string, s: Semaphore)
    requires forall i :: 0 <= i < |rs| && rs[i].key == key && rs[i].semaphore != OVERFLOW ==> rs[i].semaphore == s
    ensures DedicatedTotal(rs, key) <= ActorTotal(rs, s)
  {
    if rs != [] {
      assert rs[0].key == key && rs[0].semaphore != OVERFLOW ==> rs[0].semaphore == s;
      forall i | 0 <= i < |rs[1..]| && rs[1..][i].key == key && rs[1..][i].semaphore != OVERFLOW ensures rs[1..][i].semaphore == s {
        assert rs[1..][i] == rs[i + 1];
      }
      DedicatedWithin(rs[1..], key, s);
    }
  }

  /** In every run of acquisitions, grants, shrinks, drops and cancelled waits: permits held and
      available add up to the capacity, globally and for each actor semaphore; all acquisitions of a
      key with a dedicated semaphore share one, so together they stay within the actor's capacity;
      and the registry is bounded. */
  lemma AdmissionRuns(capacity: nat, actorCapacity: nat, ops: seq<Op>, key: string, s: Semaphore, i: nat, j: nat)
    ensures var p := Run(capacity, actorCapacity, ops);
            && p.globalAvailable + GlobalTotal(p.requests) == capacity
            && (s in p.available ==> p.available[s] + ActorTotal(p.requests, s) == actorCapacity)
            && DedicatedTotal(p.requests, key) <= actorCapacity
            && |p.registry| <= MAX_TRACKED
            && (i < |p.requests| && j < |p.requests| && p.requests[i].semaphore != OVERFLOW && p.requests[j].semaphore != OVERFLOW ==>
                  (p.requests[i].key == p.requests[j].key <==> p.requests[i].semaphore == p.requests[j].semaphore))
  {
    var p := Run(capacity, actorCapacity, ops);
    CapacityFixed(capacity, actorCapacity, ops);
    PoolFacts(p);
    forall k | 0 <= k < |p.requests| ensures RequestInv(p, p.requests[k]) { }
    hide Run, GlobalTotal, ActorTotal, DedicatedTotal;
    var t := if key in p.registry then p.registry[key] else OVERFLOW;
    DedicatedWithin(p.requests, key, t);
  }

  lemma {:induction false} CapacityFixed(capacity: nat, actorCapacity: nat, ops: seq<Op>)
    ensures var p := Run(capacity, actorCapacity, ops); p.capacity == capacity && p.actorCapacity == actorCapacity
  {
    hide PoolInv, Retained, Live, Assign, Enter, Release, Shrink;
    if ops != [] {
      CapacityFixed(capacity, actorCapacity, ops[..|ops| - 1]);
      StepCapacity(Run(capacity, actorCapacity, ops[..|ops| - 1]), ops[|ops| - 1]);
    }
  }

  lemma StepCapacity(p: Pool, op: Op)
    requires PoolInv(p)
    ensures Step(p, op).capacity == p.capacity && Step(p, op).actorCapacity == p.actorCapacity
  {
    PoolFacts(p);
    hide PoolInv, Retained, Live;
  }

  // ---------- Who gets a share of its own ----------

  /** The keys with a live dedicated semaphore. */
  function DedicatedKeys(rs: seq<Request>): set<string> {
    set i | 0 <= i < |rs| && rs[i].semaphore != OVERFLOW :: rs[i].key
  }

  /** An acquisition shares the semaphore of its key's live acquisitions; or, if there are none, has a
      new one with the whole capacity of an actor; but if as many other keys have one as are tracked, it
      joins the shared one. */
  ghost predicate Placed(p: Pool, q: Pool, key: string, bytes: nat) {
    && |q.requests| == |p.requests| + 1 && q.requests[..|p.requests|] == p.requests
    && var r := q.requests[|p.requests|];
       && r.key == key && r.bytes == bytes && r.stage == AtActor(0)
       && (forall i :: 0 <= i < |p.requests| && p.requests[i].key == key && p.requests[i].semaphore != OVERFLOW ==>
             r.semaphore == p.requests[i].semaphore)
       && (r.semaphore == OVERFLOW <==> key !in DedicatedKeys(p.requests) && |DedicatedKeys(p.requests)| >= 4096)
       && (r.semaphore != OVERFLOW && key !in DedicatedKeys(p.requests) ==>
             && (forall i :: 0 <= i < |p.requests| ==> p.requests[i].semaphore != r.semaphore)
             && r.semaphore in q.available && q.available[r.semaphore] == p.actorCapacity)
  }

  /** The registered keys whose semaphore is live are those with a live dedicated semaphore. */
  lemma LiveRegistered(p: Pool, k: string)
    requires PoolInv(p)
    ensures k in p.registry && Live(p.requests, p.registry[k]) <==> k in DedicatedKeys(p.requests)
  {
    if k in p.registry && Live(p.requests, p.registry[k]) {
      var i :| 0 <= i < |p.requests| && p.requests[i].semaphore == p.registry[k];
      assert RequestInv(p, p.requests[i]);
    }
    if k in DedicatedKeys(p.requests) {
      var i :| 0 <= i < |p.requests| && p.requests[i].semaphore != OVERFLOW && p.requests[i].key == k;
      assert RequestInv(p, p.requests[i]);
    }
    hide Balanced, GlobalTotal, ActorTotal;
  }

  /** What the registry holds when the semaphore is chosen. */
  lemma RetainedKeys(p: Pool)
    requires PoolInv(p)
    ensures var registry := Retained(p);
            && (forall k :: k in DedicatedKeys(p.requests) ==> k in registry && registry[k] == p.registry[k])
            && (|registry| >= MAX_TRACKED <==> |DedicatedKeys(p.requests)| >= MAX_TRACKED)
  {
    forall k ensures k in p.registry && Live(p.requests, p.registry[k]) <==> k in DedicatedKeys(p.requests) { LiveRegistered(p, k); }
    hide PoolInv, Live, DedicatedKeys;
    var registry, keys := Retained(p), DedicatedKeys(p.requests);
    if |p.registry| >= CLEANUP_THRESHOLD {
      assert registry.Keys == keys;
    } else {
      assert keys <= p.registry.Keys;
      SubsetSize(keys, p.registry.Keys);
    }
  }

  lemma EnterPlaces(p: Pool, key: string, bytes: nat)
    requires PoolInv(p) && bytes > 0
    ensures Placed(p, Enter(p, key, bytes), key, bytes)
  {
    LiveRegistered(p, key);
    RetainedKeys(p);
    UnusedSemaphore(p);
    forall i | 0 <= i < |p.requests| ensures RequestInv(p, p.requests[i]) && p.requests[i].semaphore < p.nextSemaphore { RequestKnown(p, i); }
    RegistryNotShared(p);
    hide PoolInv, Retained, GlobalTotal, ActorTotal, DedicatedKeys, Live;
    var q := Enter(p, key, bytes);
    var r := q.requests[|p.requests|];
    forall i | 0 <= i < |p.requests| && p.requests[i].key == key && p.requests[i].semaphore != OVERFLOW
      ensures key in DedicatedKeys(p.requests) && r.semaphore == p.requests[i].semaphore { KeyDedicated(p.requests, i); }
  }

  lemma KeyDedicated(rs: seq<Request>, i: nat)
    requires i < |rs| && rs[i].semaphore != OVERFLOW
    ensures rs[i].key in DedicatedKeys(rs)
  {
  }

  lemma RequestKnown(p: Pool, i: nat)
    requires PoolInv(p) && i < |p.requests|
    ensures RequestInv(p, p.requests[i]) && p.requests[i].semaphore < p.nextSemaphore
  {
    assert RequestInv(p, p.requests[i]);
    hide Balanced;
  }

  lemma RegistryNotShared(p: Pool)
    requires PoolInv(p)
    ensures (forall k :: k in p.registry ==> p.registry[k] != OVERFLOW) && OVERFLOW < p.nextSemaphore
  {
    hide Balanced, RequestsInv;
  }

  /** In every run an acquisition joins the shared semaphore only if its key has no dedicated one that is
      live and as many other keys have one as are tracked; otherwise it is with the live acquisitions of
      its own key, or alone with the whole capacity of an actor. */
  lemma OwnShare(capacity: nat, actorCapacity: nat, ops: seq<Op>, key: string, bytes: nat)
    requires bytes > 0
    ensures var p := Run(capacity, actorCapacity, ops);
            Placed(p, Step(p, Acquire(key, bytes)), key, bytes) && p.actorCapacity == actorCapacity
  {
    CapacityFixed(capacity, actorCapacity, ops);
    EnterPlaces(Run(capacity, actorCapacity, ops), key, bytes);
    hide Run, PoolInv, Enter, Placed;
  }

  /** Giving a waiter all it still needs moves it on. */
  lemma ActorGrant(p: Pool, i: nat)
    requires PoolInv(p) && i < |p.requests| && p.requests[i].stage.AtActor? && p.requests[i].semaphore in p.available
    requires p.requests[i].stage.given <= p.requests[i].bytes
             && p.available[p.requests[i].semaphore] >= p.requests[i].bytes - p.requests[i].stage.given
    ensures var r := p.requests[i];
            var needed := r.bytes - r.stage.given;
            Step(p, Grant(i, needed)) == p.(requests := p.requests[i := r.(stage := AtGlobal(0))],
                                            available := p.available[r.semaphore := p.available[r.semaphore] - needed])
  {
    PoolFacts(p);
    hide PoolInv, Enter, Release, Shrink;
  }

  lemma GlobalGrant(p: Pool, i: nat)
    requires PoolInv(p) && i < |p.requests| && p.requests[i].stage == AtGlobal(0) && p.globalAvailable >= p.requests[i].bytes
    ensures var r := p.requests[i];
            Step(p, Grant(i, r.bytes)) == p.(requests := p.requests[i := r.(stage := Admitted)], globalAvailable := p.globalAvailable - r.bytes)
  {
    PoolFacts(p);
    hide PoolInv, Enter, Release, Shrink;
  }

  /** And it is admitted once its semaphore and the global budget have enough permits to give. */
  lemma AdmittedWithEnough(capacity: nat, actorCapacity: nat, ops: seq<Op>, i: nat)
    requires var p := Run(capacity, actorCapacity, ops);
             && i < |p.requests| && p.requests[i].stage.AtActor? && p.requests[i].semaphore in p.available
             && p.requests[i].stage.given <= p.requests[i].bytes
             && p.available[p.requests[i].semaphore] >= p.requests[i].bytes - p.requests[i].stage.given
             && p.globalAvailable >= p.requests[i].bytes
    ensures var p := Run(capacity, actorCapacity, ops);
            var r := p.requests[i];
            var q := Step(Step(p, Grant(i, r.bytes - r.stage.given)), Grant(i, r.bytes));
            && q.requests == p.requests[i := r.(stage := Admitted)]
            && q.globalAvailable == p.globalAvailable - r.bytes
            && q.available == p.available[r.semaphore := p.available[r.semaphore] - (r.bytes - r.stage.given)]
  {
    hide Run, PoolInv, Step;
    var p := Run(capacity, actorCapacity, ops);
    var r := p.requests[i];
    ActorGrant(p, i);
    var p1 := Step(p, Grant(i, r.bytes - r.stage.given));
    GlobalGrant(p1, i);
    assert p1.requests[i := r.(stage := Admitted)] == p.requests[i := r.(stage := Admitted)];
  }

  // ---------- The pool as an object ----------

  class WeightedPool {
    const capacity: nat
    const actorCapacity: nat
    var globalAvailable: nat
    var available: map<Semaphore, nat>
    var registry: map<string, Semaphore>
    var requests: seq<Request>
    var nextSemaphore: Semaphore

    ghost function State(): Pool
      reads this
    {
      Pool(capacity, actorCapacity, globalAvailable, available, registry, requests, nextSemaphore)
    }

    constructor (capacity: nat, actorCapacity: nat)
      ensures State() == New(capacity, actorCapacity)
    {
      this.capacity, this.actorCapacity := capacity, actorCapacity;
      globalAvailable, available, registry, requests, nextSemaphore := capacity, map[OVERFLOW := actorCapacity], map[], [], 1;
    }

    /** The registry without the entries whose semaphore is gone. */
    method RetainLive()
      modifies this`registry
      ensures registry == map k | k in old(registry) && Live(requests, old(registry)[k]) :: old(registry)[k]
    {
      var before := registry;
      var todo := registry.Keys;
      while todo != {}
        invariant todo <= before.Keys
        invariant registry == map k | k in before && (k in todo || Live(requests, before[k])) :: before[k]
        decreases todo
      {
        var key :| key in todo;
        todo := todo - {key};
        if !Live(requests, before[key]) { registry := registry - {key}; }
      }
    }

    /** `acquire` up to its first wait. */
    method Acquire(key: string, bytes: nat)
      modifies this
      ensures State() == Enter(old(State()), key, bytes)
      ensures PoolInv(old(State())) && bytes > 0 ==> PoolInv(State()) && Placed(old(State()), State(), key, bytes)
    {
      hide PoolInv, Placed;
      if PoolInv(State()) && bytes > 0 {
        EnterKeeps(State(), key, bytes);
        EnterPlaces(State(), key, bytes);
      }
      if bytes == 0 { return; }
      if |registry| >= CLEANUP_THRESHOLD { RetainLive(); }
      var s;
      if key in registry && Live(requests, registry[key]) {
        s := registry[key];
      } else if |registry| >= MAX_TRACKED {
        s := OVERFLOW;
      } else {
        s := nextSemaphore;
        nextSemaphore := nextSemaphore + 1;
        available := available[s := actorCapacity];
        registry := registry[key := s];
      }
      requests := requests + [Request(key, s, bytes, AtActor(0))];
    }

    /** Dropping a permit, or giving up a wait. */
    method Drop(i: nat)
      requires PoolInv(State()) && i < |requests|
      modifies this
      ensures State() == Release(old(State()), i) && PoolInv(State())
    {
      ReleaseKeeps(State(), i);
      hide PoolInv, GlobalTotal, ActorTotal;
      var r := requests[i];
      available := available[r.semaphore := available[r.semaphore] + ActorShare(r)];
      globalAvailable := globalAvailable + GlobalShare(r);
      requests := requests[..i] + requests[i + 1..];
    }

    /** `MemoryPermit::shrink_to` for the permit of an admitted acquisition. */
    method ShrinkTo(i: nat, bytes: nat)
      requires PoolInv(State()) && i < |requests| && requests[i].stage.Admitted? && bytes <= requests[i].bytes
      modifies this
      ensures State() == Shrink(old(State()), i, bytes) && PoolInv(State())
    {
      if bytes == 0 {
        Drop(i);
        return;
      }
      ShrinkKeeps(State(), i, bytes);
      hide PoolInv, GlobalTotal, ActorTotal, Release;
      var r := requests[i];
      available := available[r.semaphore := available[r.semaphore] + (r.bytes - bytes)];
      globalAvailable := globalAvailable + (r.bytes - bytes);
      requests := requests[i := r.(bytes := bytes)];
    }
  }
}

/**
 The two cached endpoints as processes over a shared Redis (src/backend/services/gas_service.py,
 token_service.py).  Each request is a coroutine; a step takes it from one await to the next.  Every
 server process has one lock per endpoint; all servers share the Redis store.
 */
module CacheProtocol {
  import opened Wrappers
  import opened CacheKey

  const TTL: nat := 60

  /** One asyncio.Lock: of a server, for an endpoint. */
  datatype Lock = Lock(server: nat, gas: bool)

  datatype Entry = Entry(value: string, stored: nat)

  datatype Stage =
    | Starting
    | Waiting                                          // for the lock
    | Rechecking                                       // lock held from here to Storing
    | Querying
    | Storing(value: string, landed: bool)             // redis.set is awaited; whether it has taken effect
    | Answered(value: string, stored: nat, at: nat)     // `stored`: when the value was put in Redis, or computed
    | Failed

  datatype Request = Request(server: nat, ask: Ask, stage: Stage)

  datatype State = State(
    online: set<nat>,                      // servers whose Redis connection was made at startup
    now: nat,
    cache: map<string, Entry>,
    locks: map<Lock, nat>,                 // holder
    requests: map<nat, Request>,
    // history
    queries: map<(nat, Ask), nat>,         // per server: queries started
    failures: map<(nat, Ask), nat>,        // per server: queries that did not end in a stored result
    expirations: map<string, nat>,         // times an entry left Redis
    computed: set<(Ask, string)>,          // results the database has given
    late: set<(Ask, string)>)              // results whose set was given up before it took effect

  datatype Step =
    | Arrive(id: nat, server: nat, ask: Ask)
    | FirstRead(id: nat, raised: bool)
    | Acquire(id: nat)
    | Recheck(id: nat, raised: bool)
    | QueryReturns(id: nat, result: Option<string>)
    | SetLands(id: nat)                                   // takes effect, before the coroutine hears of it
    | StoreReturns(id: nat, raised: bool)                 // raised also when the coroutine is cancelled here
    | Cancel(id: nat)                                     // at any other await
    | LateSet(ask: Ask, value: string)                    // a set that was given up takes effect after all
    | Expire(name: string)
    | Tick

  function Count<K>(m: map<K, nat>, k: K): nat { if k in m then m[k] else 0 }
  function Bump<K>(m: map<K, nat>, k: K): map<K, nat> { m[k := Count(m, k) + 1] }

  function LockOf(r: Request): Lock { Lock(r.server, r.ask.GasMetrics?) }

  predicate Holds(stage: Stage) { stage.Rechecking? || stage.Querying? || stage.Storing? }
  predicate Busy(stage: Stage) { stage.Querying? || stage.Storing? }
  /** A query whose result is not in Redis yet. */
  predicate Open(stage: Stage) { stage.Querying? || (stage.Storing? && !stage.landed) }
  predicate Over(stage: Stage) { stage.Answered? || stage.Failed? }

  function Init(online: set<nat>): State { State(online, 0, map[], map[], map[], map[], map[], map[], {}, {}) }

  predicate Enabled(s: State, step: Step) {
    match step
    case Arrive(id, _, _) => id !in s.requests
    case FirstRead(id, raised) => id in s.requests && s.requests[id].stage.Starting? && (raised ==> s.requests[id].server in s.online)
    case Acquire(id) => id in s.requests && s.requests[id].stage.Waiting? && LockOf(s.requests[id]) !in s.locks
    case Recheck(id, raised) => id in s.requests && s.requests[id].stage.Rechecking? && (raised ==> s.requests[id].server in s.online)
    case QueryReturns(id, result) =>
      id in s.requests && s.requests[id].stage.Querying? && (result.Some? ==> result.value != "")
    case SetLands(id) => id in s.requests && s.requests[id].stage.Storing? && !s.requests[id].stage.landed
    case StoreReturns(id, raised) => id in s.requests && s.requests[id].stage.Storing? && (s.requests[id].stage.landed || raised)
    case LateSet(ask, value) => (ask, value) in s.late
    case Cancel(id) => id in s.requests && !Over(s.requests[id].stage) && !s.requests[id].stage.Storing?
    case Expire(name) => name in s.cache
    case Tick => forall n :: n in s.cache ==> s.now + 1 < s.cache[n].stored + TTL
  }

  /** The coroutine moves on; leaving the `async with` block gives the lock back. */
  function Become(s: State, id: nat, stage: Stage): State
    requires id in s.requests
  {
    var r := s.requests[id];
    s.(requests := s.requests[id := r.(stage := stage)],
       locks := if Holds(r.stage) && !Holds(stage) then s.locks - {LockOf(r)} else s.locks)
  }

  /** What a read of the cache answers; a server without Redis does not read. */
  function Hit(s: State, r: Request): Option<Stage> {
    var name := NameOf(r.ask);
    if r.server in s.online && name in s.cache then Some(Answered(s.cache[name].value, s.cache[name].stored, s.now)) else None
  }

  /** The coroutine ends with an exception; a query of its own counts as failed. */
  function Fail(s: State, id: nat): State
    requires id in s.requests
  {
    var r := s.requests[id];
    Become(s, id, Failed).(failures := if Busy(r.stage) then Bump(s.failures, (r.server, r.ask)) else s.failures)
  }

  /** The first read, without the lock. */
  function ReadFirst(s: State, id: nat): State
    requires id in s.requests
  {
    var hit := Hit(s, s.requests[id]);
    Become(s, id, if hit.Some? then hit.value else Waiting)
  }

  /** The second read, under the lock; on a miss the query is sent at once. */
  function ReadAgain(s: State, id: nat): State
    requires id in s.requests
  {
    var r := s.requests[id];
    var hit := Hit(s, r);
    if hit.Some? then Become(s, id, hit.value)
    else Become(s, id, Querying).(queries := Bump(s.queries, (r.server, r.ask)))
  }

  function TakeResult(s: State, id: nat, value: string): State
    requires id in s.requests
  {
    var r := s.requests[id];
    Become(s, id, if r.server in s.online then Storing(value, false) else Answered(value, s.now, s.now))
      .(computed := s.computed + {(r.ask, value)})
  }

  function Put(s: State, ask: Ask, value: string): State {
    s.(cache := s.cache[NameOf(ask) := Entry(value, s.now)])
  }

  function Land(s: State, id: nat): State
    requires id in s.requests && s.requests[id].stage.Storing?
  {
    var r := s.requests[id];
    Become(Put(s, r.ask, r.stage.value), id, Storing(r.stage.value, true))
  }

  function TakeLock(s: State, id: nat): State
    requires id in s.requests
  {
    Become(s, id, Rechecking).(locks := s.locks[LockOf(s.requests[id]) := id])
  }

  function EndStore(s: State, id: nat, raised: bool): State
    requires id in s.requests && s.requests[id].stage.Storing?
  {
    var r := s.requests[id];
    if !raised then Become(s, id, Answered(r.stage.value, s.now, s.now))
    else Fail(s, id).(late := if r.stage.landed then s.late else s.late + {(r.ask, r.stage.value)})
  }

  function Apply(s: State, step: Step): State
    requires Enabled(s, step)
  {
    match step
    case Arrive(id, server, ask) => s.(requests := s.requests[id := Request(server, ask, Starting)])
    case FirstRead(id, raised) => if raised then Fail(s, id) else ReadFirst(s, id)
    case Acquire(id) => TakeLock(s, id)
    case Recheck(id, raised) => if raised then Fail(s, id) else ReadAgain(s, id)
    case QueryReturns(id, result) => if result.None? then Fail(s, id) else TakeResult(s, id, result.value)
    case SetLands(id) => Land(s, id)
    case StoreReturns(id, raised) => EndStore(s, id, raised)
    case LateSet(ask, value) => Put(s, ask, value)
    case Cancel(id) => Fail(s, id)
    case Expire(name) => s.(cache := s.cache - {name}, expirations := Bump(s.expirations, name))
    case Tick => s.(now := s.now + 1)
  }

  ghost predicate Path(online: set<nat>, s: State, steps: seq<Step>)
    decreases |steps|
  {
    if steps == [] then s == Init(online)
    else
      var k := |steps| - 1;
      exists before :: Path(online, before, steps[..k]) && Enabled(before, steps[k]) && s == Apply(before, steps[k])
  }

  ghost predicate Reachable(online: set<nat>, s: State) {
    exists steps :: Path(online, s, steps)
  }

  // ---- what one coroutine does in one step -------------------------------------------------------------------

  /** Outside or inside the lock, out of it, or into it while it is free. */
  ghost predicate LockMoves(s: State, t: State, id: nat)
    requires id in s.requests && id in t.requests
  {
    var r, q := s.requests[id], t.requests[id];
    || (Holds(r.stage) == Holds(q.stage) && t.locks == s.locks)
    || (Holds(r.stage) && !Holds(q.stage) && t.locks == s.locks - {LockOf(r)})
    || (!Holds(r.stage) && Holds(q.stage) && LockOf(r) !in s.locks && t.locks == s.locks[LockOf(r) := id])
  }

  ghost predicate CountsOk(s: State, t: State, id: nat)
    requires id in s.requests && id in t.requests
  {
    var r, q := s.requests[id], t.requests[id];
    && t.expirations == s.expirations
    && (Busy(r.stage) ==> Busy(q.stage) || Over(q.stage))
    && (if q.stage.Querying? then t.queries == Bump(s.queries, (r.server, r.ask)) && r.stage.Rechecking? && Hit(s, r) == None
        else t.queries == s.queries)
    && (if Busy(r.stage) && q.stage.Failed? then t.failures == Bump(s.failures, (r.server, r.ask)) else t.failures == s.failures)
    && (t.cache == s.cache || (r.stage.Storing? && !Open(q.stage) && t.cache == Put(s, r.ask, r.stage.value).cache))
    && (Open(r.stage) && !Open(q.stage) && !q.stage.Failed? && r.server in s.online ==> NameOf(r.ask) in t.cache)
    && (Open(q.stage) ==> Open(r.stage) || q.stage.Querying?)
  }

  ghost predicate ValuesOk(s: State, t: State, id: nat)
    requires id in s.requests && id in t.requests
  {
    var r, q := s.requests[id], t.requests[id];
    && s.computed <= t.computed
    && (q.stage.Storing? ==>
         (q.ask, q.stage.value) in t.computed || (r.stage.Storing? && q.stage.value == r.stage.value))
    && s.late <= t.late
    && (forall x :: x in t.late ==> x in s.late || (r.stage.Storing? && x == (r.ask, r.stage.value)))
    && (q.stage.Answered? ==>
         || (Hit(s, r) == Some(q.stage))
         || (q.stage.stored == q.stage.at == s.now &&
             ((q.ask, q.stage.value) in t.computed || (r.stage.Storing? && q.stage.value == r.stage.value))))
  }

  ghost predicate Does(s: State, t: State, id: nat) {
    && id in s.requests && id in t.requests
    && t.online == s.online && t.now == s.now
    && t.requests == s.requests[id := s.requests[id].(stage := t.requests[id].stage)]
    && LockMoves(s, t, id) && CountsOk(s, t, id) && ValuesOk(s, t, id)
  }

  predicate OfOne(step: Step) { !step.Arrive? && !step.LateSet? && !step.Expire? && !step.Tick? }

  lemma FailDoes(s: State, id: nat)
    requires id in s.requests && !Over(s.requests[id].stage)
    ensures Does(s, Fail(s, id), id)
  {
  }

  lemma ReadFirstDoes(s: State, id: nat)
    requires id in s.requests && s.requests[id].stage.Starting?
    ensures Does(s, ReadFirst(s, id), id)
  {
  }

  lemma ReadAgainHits(s: State, id: nat)
    requires id in s.requests && s.requests[id].stage.Rechecking? && Hit(s, s.requests[id]).Some?
    ensures Does(s, ReadAgain(s, id), id)
  {
  }

  lemma ReadAgainMisses(s: State, id: nat)
    requires id in s.requests && s.requests[id].stage.Rechecking? && Hit(s, s.requests[id]).None?
    ensures Does(s, ReadAgain(s, id), id)
  {
  }

  lemma TakeResultDoes(s: State, id: nat, value: string)
    requires id in s.requests && s.requests[id].stage.Querying?
    ensures Does(s, TakeResult(s, id, value), id)
  {
  }

  lemma TakeLockDoes(s: State, id: nat)
    requires id in s.requests && s.requests[id].stage.Waiting? && LockOf(s.requests[id]) !in s.locks
    ensures Does(s, TakeLock(s, id), id)
  {
  }

  lemma LandDoes(s: State, id: nat)
    requires id in s.requests && s.requests[id].stage.Storing? && !s.requests[id].stage.landed
    ensures Does(s, Land(s, id), id)
  {
  }

  lemma EndStoreDoes(s: State, id: nat, raised: bool)
    requires id in s.requests && s.requests[id].stage.Storing? && (s.requests[id].stage.landed || raised)
    ensures Does(s, EndStore(s, id, raised), id)
  {
  }

  lemma StepDoes(s: State, step: Step)
    requires Enabled(s, step) && OfOne(step)
    ensures Does(s, Apply(s, step), step.id)
  {
    match step
    case FirstRead(id, raised) => if raised { FailDoes(s, id); } else { ReadFirstDoes(s, id); }
    case Acquire(id) => TakeLockDoes(s, id);
    case Recheck(id, raised) =>
      if raised { FailDoes(s, id); }
      else if Hit(s, s.requests[id]).Some? { ReadAgainHits(s, id); }
      else { ReadAgainMisses(s, id); }
    case QueryReturns(id, result) => if result.None? { FailDoes(s, id); } else { TakeResultDoes(s, id, result.value); }
    case SetLands(id) => LandDoes(s, id);
    case StoreReturns(id, raised) => EndStoreDoes(s, id, raised);
    case Cancel(id) => FailDoes(s, id);
  }

  // ---- the locks -------------------------------------------------------------------------------------------

  /** The holder of a lock is the one request of its kind between acquiring and releasing it. */
  ghost predicate LocksOk(s: State) {
    && (forall id :: id in s.requests && Holds(s.requests[id].stage) ==>
         LockOf(s.requests[id]) in s.locks && s.locks[LockOf(s.requests[id])] == id)
    && (forall l :: l in s.locks ==>
         s.locks[l] in s.requests && LockOf(s.requests[s.locks[l]]) == l && Holds(s.requests[s.locks[l]].stage))
  }

  lemma MoveKeepsLocks(s: State, t: State, id: nat)
    requires LocksOk(s) && Does(s, t, id)
    ensures LocksOk(t)
  {
  }

  lemma OneHolder(s: State, i: nat, j: nat)
    requires LocksOk(s) && i in s.requests && j in s.requests && LockOf(s.requests[i]) == LockOf(s.requests[j])
    requires Holds(s.requests[i].stage) && Holds(s.requests[j].stage)
    ensures i == j
  {
  }

  // ---- the stampede bound ------------------------------------------------------------------------------------

  predicate Asks(r: Request, server: nat, ask: Ask) { r.server == server && r.ask == ask }

  ghost predicate InQuery(s: State, server: nat, ask: Ask) {
    exists id :: id in s.requests && Asks(s.requests[id], server, ask) && Open(s.requests[id].stage)
  }

  /** Per server and key: one query more than the expirations and the failures, and that one only while it shows. */
  ghost predicate BoundAt(s: State, server: nat, ask: Ask) {
    var spent := Count(s.expirations, NameOf(ask)) + Count(s.failures, (server, ask));
    && Count(s.queries, (server, ask)) <= spent + 1
    && (NameOf(ask) !in s.cache && !InQuery(s, server, ask) ==> Count(s.queries, (server, ask)) <= spent)
  }

  /** Changing one request keeps the running queries, unless that one was running and stops. */
  lemma StillInQuery(s: State, t: State, id: nat, server: nat, ask: Ask)
    requires InQuery(s, server, ask)
    requires forall i :: i in s.requests && i != id ==> i in t.requests && t.requests[i] == s.requests[i]
    requires id in s.requests && Asks(s.requests[id], server, ask) && Open(s.requests[id].stage) ==>
               id in t.requests && Asks(t.requests[id], server, ask) && Open(t.requests[id].stage)
    ensures InQuery(t, server, ask)
  {
    var i :| i in s.requests && Asks(s.requests[i], server, ask) && Open(s.requests[i].stage);
    assert i in t.requests && Asks(t.requests[i], server, ask) && Open(t.requests[i].stage);
  }

  /** Under the lock no query of this server for the same thing is running. */
  lemma NoQueryUnderLock(s: State, id: nat)
    requires LocksOk(s) && id in s.requests && s.requests[id].stage.Rechecking?
    ensures !InQuery(s, s.requests[id].server, s.requests[id].ask)
  {
    var r := s.requests[id];
    forall i | i in s.requests && Asks(s.requests[i], r.server, r.ask) ensures !Open(s.requests[i].stage) {
      if Holds(s.requests[i].stage) { OneHolder(s, i, id); }
    }
  }

  /** A request for something else does not matter. */
  lemma OtherBound(s: State, t: State, id: nat, server: nat, ask: Ask)
    requires BoundAt(s, server, ask) && Does(s, t, id) && !Asks(s.requests[id], server, ask)
    ensures BoundAt(t, server, ask)
  {
    if InQuery(s, server, ask) { StillInQuery(s, t, id, server, ask); }
    assert NameOf(ask) in s.cache ==> NameOf(ask) in t.cache;
  }

  lemma OwnBound(s: State, t: State, id: nat)
    requires LocksOk(s) && Does(s, t, id) && s.requests[id].server in s.online
    requires BoundAt(s, s.requests[id].server, s.requests[id].ask)
    ensures BoundAt(t, s.requests[id].server, s.requests[id].ask)
  {
    var r, q := s.requests[id], t.requests[id];
    assert NameOf(r.ask) in s.cache ==> NameOf(r.ask) in t.cache;
    if q.stage.Querying? {
      NoQueryUnderLock(s, id);
      assert Asks(q, r.server, r.ask) && Open(q.stage);
    } else if !Open(r.stage) || Open(q.stage) {
      if InQuery(s, r.server, r.ask) { StillInQuery(s, t, id, r.server, r.ask); }
    }
  }

  lemma OutsideBound(s: State, step: Step, server: nat, ask: Ask)
    requires BoundAt(s, server, ask) && Enabled(s, step) && !OfOne(step)
    ensures BoundAt(Apply(s, step), server, ask)
  {
    var t := Apply(s, step);
    if InQuery(s, server, ask) {
      var i :| i in s.requests && Asks(s.requests[i], server, ask) && Open(s.requests[i].stage);
      assert i in t.requests && t.requests[i] == s.requests[i];
    }
  }

  // ---- provenance -----------------------------------------------------------------------------------------------

  ghost predicate EntryFrom(s: State, name: string) {
    name in s.cache && exists ask :: NameOf(ask) == name && (ask, s.cache[name].value) in s.computed
  }

  ghost predicate EntriesOk(s: State) {
    forall n :: n in s.cache ==> EntryFrom(s, n) && s.cache[n].stored <= s.now < s.cache[n].stored + TTL
  }

  ghost predicate StageOk(s: State, r: Request) {
    && (r.stage.Storing? ==> (r.ask, r.stage.value) in s.computed)
    && (r.stage.Answered? ==>
         (r.ask, r.stage.value) in s.computed && r.stage.stored <= r.stage.at <= s.now && r.stage.at < r.stage.stored + TTL)
  }

  /** Whatever is cached, in hand or answered came from a query for the same thing, and no cached value is stale. */
  ghost predicate ProvenanceOk(s: State) {
    && EntriesOk(s)
    && (forall id :: id in s.requests ==> StageOk(s, s.requests[id]))
    && s.late <= s.computed
  }

  lemma HitFrom(s: State, r: Request)
    requires ProvenanceOk(s) && Hit(s, r).Some?
    ensures StageOk(s, r.(stage := Hit(s, r).value))
  {
    var n := NameOf(r.ask);
    assert EntryFrom(s, n);
    var ask :| NameOf(ask) == n && (ask, s.cache[n].value) in s.computed;
    NamesAreInjective(ask, r.ask);
  }

  lemma MoveKeepsEntries(s: State, t: State, id: nat)
    requires ProvenanceOk(s) && Does(s, t, id)
    ensures EntriesOk(t)
  {
    var r := s.requests[id];
    assert StageOk(s, r);
    forall n | n in t.cache ensures EntryFrom(t, n) && t.cache[n].stored <= t.now < t.cache[n].stored + TTL {
      if t.cache != s.cache && n == NameOf(r.ask) {
        assert (r.ask, t.cache[n].value) in t.computed;
      } else {
        assert EntryFrom(s, n);
        var ask :| NameOf(ask) == n && (ask, s.cache[n].value) in s.computed;
        assert (ask, t.cache[n].value) in t.computed;
      }
    }
  }

  lemma MoveKeepsProvenance(s: State, t: State, id: nat)
    requires ProvenanceOk(s) && Does(s, t, id)
    ensures ProvenanceOk(t)
  {
    MoveKeepsEntries(s, t, id);
    var r := s.requests[id];
    assert StageOk(s, r);
    if Hit(s, r).Some? { HitFrom(s, r); }
    forall i | i in t.requests ensures StageOk(t, t.requests[i]) {
      if i != id { assert StageOk(s, s.requests[i]); }
    }
  }

  lemma OutsideProvenance(s: State, step: Step)
    requires ProvenanceOk(s) && Enabled(s, step) && !OfOne(step)
    ensures ProvenanceOk(Apply(s, step))
  {
    var t := Apply(s, step);
    forall n | n in t.cache ensures EntryFrom(t, n) {
      if step.LateSet? && n == NameOf(step.ask) {
        assert (step.ask, t.cache[n].value) in t.computed;
      } else {
        assert EntryFrom(s, n);
      }
    }
    forall i | i in t.requests ensures StageOk(t, t.requests[i]) {
      if i in s.requests { assert StageOk(s, s.requests[i]); }
    }
  }

  // ---- one server --------------------------------------------------------------------------------------------------

  /** With a single server, a query runs, and its result waits to take effect in Redis, only while the key is absent. */
  ghost predicate AloneOk(s: State, server: nat) {
    forall id :: id in s.requests ==>
      s.requests[id].server == server && (Open(s.requests[id].stage) ==> NameOf(s.requests[id].ask) !in s.cache)
  }

  lemma AloneLands(s: State, id: nat, other: nat, server: nat)
    requires LocksOk(s) && AloneOk(s, server) && id in s.requests && other in s.requests && id != other
    requires s.requests[id].stage.Storing? && Open(s.requests[other].stage)
    ensures NameOf(s.requests[other].ask) != NameOf(s.requests[id].ask)
  {
    if NameOf(s.requests[other].ask) == NameOf(s.requests[id].ask) {
      NamesAreInjective(s.requests[other].ask, s.requests[id].ask);
      OneHolder(s, id, other);
    }
  }

  lemma MoveKeepsAlone(s: State, t: State, id: nat, server: nat)
    requires LocksOk(s) && AloneOk(s, server) && Does(s, t, id) && server in s.online
    ensures AloneOk(t, server)
  {
    forall i | i in t.requests && i != id && Open(t.requests[i].stage) ensures NameOf(t.requests[i].ask) !in t.cache {
      if t.cache != s.cache { AloneLands(s, id, i, server); }
    }
  }

  lemma OutsideAlone(s: State, step: Step, server: nat)
    requires AloneOk(s, server) && Enabled(s, step) && !OfOne(step) && !step.LateSet?
    requires step.Arrive? ==> step.server == server
    ensures AloneOk(Apply(s, step), server)
  {
  }

  // ---- over runs ------------------------------------------------------------------------------------------------------

  ghost predicate Inv(s: State) {
    && LocksOk(s) && ProvenanceOk(s)
    && forall server, ask :: server in s.online ==> BoundAt(s, server, ask)
  }

  lemma StepKeepsInv(s: State, step: Step)
    requires Inv(s) && Enabled(s, step) && OfOne(step)
    ensures Inv(Apply(s, step))
  {
    StepDoes(s, step);
    MoveKeepsInv(s, Apply(s, step), step.id);
  }

  lemma MoveKeepsInv(s: State, t: State, id: nat)
    requires Inv(s) && Does(s, t, id)
    ensures Inv(t)
  {
    MoveKeepsLocks(s, t, id);
    MoveKeepsProvenance(s, t, id);
    forall server, ask | server in t.online ensures BoundAt(t, server, ask) {
      assert BoundAt(s, server, ask);
      if Asks(s.requests[id], server, ask) { OwnBound(s, t, id); } else { OtherBound(s, t, id, server, ask); }
    }
  }

  lemma OutsideKeepsInv(s: State, step: Step)
    requires Inv(s) && Enabled(s, step) && !OfOne(step)
    ensures Inv(Apply(s, step))
  {
    OutsideProvenance(s, step);
    forall server, ask | server in s.online ensures BoundAt(Apply(s, step), server, ask) { OutsideBound(s, step, server, ask); }
  }

  lemma {:induction false} PathKeeps(online: set<nat>, s: State, steps: seq<Step>)
    requires Path(online, s, steps)
    ensures s.online == online && Inv(s)
    decreases |steps|
  {
    if steps != [] {
      var k := |steps| - 1;
      var before :| Path(online, before, steps[..k]) && Enabled(before, steps[k]) && s == Apply(before, steps[k]);
      PathKeeps(online, before, steps[..k]);
      if OfOne(steps[k]) {
        StepDoes(before, steps[k]);
        StepKeepsInv(before, steps[k]);
      } else {
        OutsideKeepsInv(before, steps[k]);
      }
    }
  }

  /** Of one connected server: never more queries for a key than its expirations and its failed queries, plus one. */
  lemma ServerBound(online: set<nat>, s: State, server: nat, ask: Ask)
    requires Reachable(online, s) && server in online
    ensures Count(s.queries, (server, ask)) <= Count(s.expirations, NameOf(ask)) + Count(s.failures, (server, ask)) + 1
  {
    var steps :| Path(online, s, steps);
    PathKeeps(online, s, steps);
    assert BoundAt(s, server, ask);
  }

  /** Over servers 0 to m-1. */
  function Total(counts: map<(nat, Ask), nat>, ask: Ask, m: nat): nat {
    if m == 0 then 0 else Total(counts, ask, m - 1) + Count(counts, (m - 1, ask))
  }

  /** The stampede bound: m connected servers never start more than m*(E+1)+F queries for a key. */
  lemma {:induction false} StampedeBound(online: set<nat>, s: State, ask: Ask, m: nat)
    requires Reachable(online, s) && forall j: nat :: j < m ==> j in online
    ensures Total(s.queries, ask, m) <= m * (Count(s.expirations, NameOf(ask)) + 1) + Total(s.failures, ask, m)
  {
    if m > 0 {
      StampedeBound(online, s, ask, m - 1);
      ServerBound(online, s, m - 1, ask);
      assert m * (Count(s.expirations, NameOf(ask)) + 1) ==
             (m - 1) * (Count(s.expirations, NameOf(ask)) + 1) + Count(s.expirations, NameOf(ask)) + 1;
    }
  }

  /** Every answer was computed by a query for the same parameters, and was stored less than 60 seconds before it is read. */
  lemma AnswersAreFreshAndTheirOwn(online: set<nat>, s: State, id: nat)
    requires Reachable(online, s) && id in s.requests && s.requests[id].stage.Answered?
    ensures var r := s.requests[id];
      (r.ask, r.stage.value) in s.computed && r.stage.stored <= r.stage.at < r.stage.stored + 60
  {
    var steps :| Path(online, s, steps);
    PathKeeps(online, s, steps);
    assert StageOk(s, s.requests[id]);
  }

  /** At most one coroutine per server and endpoint is between acquiring and releasing. */
  lemma MutualExclusion(online: set<nat>, s: State, i: nat, j: nat)
    requires Reachable(online, s) && i in s.requests && j in s.requests
    requires LockOf(s.requests[i]) == LockOf(s.requests[j]) && Holds(s.requests[i].stage) && Holds(s.requests[j].stage)
    ensures i == j
  {
    var steps :| Path(online, s, steps);
    PathKeeps(online, s, steps);
  }

  /** With one connected server, and no set that takes effect after it was given up, a query runs and its result lands only while its key is absent. */
  lemma {:induction false} SingleServer(online: set<nat>, s: State, steps: seq<Step>, server: nat)
    requires Path(online, s, steps) && server in online
    requires forall i :: 0 <= i < |steps| ==> !steps[i].LateSet? && (steps[i].Arrive? ==> steps[i].server == server)
    ensures AloneOk(s, server)
    decreases |steps|
  {
    if steps != [] {
      var k := |steps| - 1;
      var before :| Path(online, before, steps[..k]) && Enabled(before, steps[k]) && s == Apply(before, steps[k]);
      SingleServer(online, before, steps[..k], server);
      PathKeeps(online, before, steps[..k]);
      if OfOne(steps[k]) {
        StepDoes(before, steps[k]);
        MoveKeepsAlone(before, s, steps[k].id, server);
      } else {
        OutsideAlone(before, steps[k], server);
      }
    }
  }

  // ---- runs, step by step ---------------------------------------------------------------------------------------------

  lemma PathOn(online: set<nat>, s: State, steps: seq<Step>, step: Step) returns (t: State, more: seq<Step>)
    requires Path(online, s, steps) && Enabled(s, step)
    ensures t == Apply(s, step) && more == steps + [step] && Path(online, t, more)
  {
    t, more := Apply(s, step), steps + [step];
    assert more[..|steps|] == steps;
  }

  lemma Arrives(online: set<nat>, s: State, l: seq<Step>, id: nat, server: nat, ask: Ask) returns (t: State, more: seq<Step>)
    requires Path(online, s, l) && id !in s.requests
    ensures Path(online, t, more) && t == s.(requests := s.requests[id := Request(server, ask, Starting)])
  {
    t, more := PathOn(online, s, l, Arrive(id, server, ask));
  }

  lemma ReadsNothing(online: set<nat>, s: State, l: seq<Step>, id: nat) returns (t: State, more: seq<Step>)
    requires Path(online, s, l) && id in s.requests && s.requests[id].stage.Starting? && Hit(s, s.requests[id]).None?
    ensures Path(online, t, more) && t == s.(requests := s.requests[id := s.requests[id].(stage := Waiting)])
  {
    t, more := PathOn(online, s, l, FirstRead(id, false));
  }

  lemma Locks(online: set<nat>, s: State, l: seq<Step>, id: nat) returns (t: State, more: seq<Step>)
    requires Path(online, s, l) && id in s.requests && s.requests[id].stage.Waiting? && LockOf(s.requests[id]) !in s.locks
    ensures Path(online, t, more)
    ensures t == s.(requests := s.requests[id := s.requests[id].(stage := Rechecking)],
                    locks := s.locks[LockOf(s.requests[id]) := id])
  {
    t, more := PathOn(online, s, l, Acquire(id));
  }

  /** One request has found nothing and waits for the lock. */
  lemma Waits(online: set<nat>, s: State, l: seq<Step>, id: nat, server: nat, ask: Ask) returns (t: State, more: seq<Step>)
    requires Path(online, s, l) && id !in s.requests && (server !in s.online || NameOf(ask) !in s.cache)
    ensures Path(online, t, more) && t == s.(requests := s.requests[id := Request(server, ask, Waiting)])
  {
    t, more := Arrives(online, s, l, id, server, ask);
    t, more := ReadsNothing(online, t, more, id);
    assert t.requests == s.requests[id := Request(server, ask, Waiting)];
  }

  /** It has taken the lock. */
  lemma Enters(online: set<nat>, s: State, l: seq<Step>, id: nat, server: nat, ask: Ask) returns (t: State, more: seq<Step>)
    requires Path(online, s, l) && id !in s.requests && Lock(server, ask.GasMetrics?) !in s.locks
    requires server !in s.online || NameOf(ask) !in s.cache
    ensures Path(online, t, more)
    ensures t == s.(requests := s.requests[id := Request(server, ask, Rechecking)],
                    locks := s.locks[Lock(server, ask.GasMetrics?) := id])
  {
    t, more := Waits(online, s, l, id, server, ask);
    t, more := Locks(online, t, more, id);
    assert t.requests == s.requests[id := Request(server, ask, Rechecking)];
  }

  /** It starts the query. */
  lemma Asking(online: set<nat>, s: State, l: seq<Step>, id: nat) returns (t: State, more: seq<Step>)
    requires Path(online, s, l) && id in s.requests && s.requests[id].stage.Rechecking?
    requires NameOf(s.requests[id].ask) !in s.cache
    ensures Path(online, t, more)
    ensures t == s.(requests := s.requests[id := s.requests[id].(stage := Querying)],
                    queries := Bump(s.queries, (s.requests[id].server, s.requests[id].ask)))
  {
    t, more := PathOn(online, s, l, Recheck(id, false));
  }

  /** The result is given to Redis. */
  lemma HandsOver(online: set<nat>, s: State, l: seq<Step>, id: nat, value: string) returns (t: State, more: seq<Step>)
    requires Path(online, s, l) && id in s.requests && s.requests[id].stage.Querying? && s.requests[id].server in s.online
    requires value != ""
    ensures Path(online, t, more) && t.requests == s.requests[id := s.requests[id].(stage := Storing(value, false))]
    ensures t.locks == s.locks && t.cache == s.cache && t.online == s.online
  {
    t, more := PathOn(online, s, l, QueryReturns(id, Some(value)));
  }

  /** The coroutine is cancelled before that took effect. */
  lemma GivesUp(online: set<nat>, s: State, l: seq<Step>, id: nat) returns (t: State, more: seq<Step>)
    requires Path(online, s, l) && id in s.requests && s.requests[id].stage.Storing? && !s.requests[id].stage.landed
    requires s.locks == map[LockOf(s.requests[id]) := id]
    ensures Path(online, t, more) && t.requests == s.requests[id := s.requests[id].(stage := Failed)]
    ensures t.locks == map[] && t.cache == s.cache && t.online == s.online
    ensures (s.requests[id].ask, s.requests[id].stage.value) in t.late
  {
    t, more := PathOn(online, s, l, StoreReturns(id, true));
  }

  /** Such a late set does break it: the next query is running when the key appears. */
  lemma LateSetMeetsQuery(server: nat, ask: Ask, value: string) returns (s: State, steps: seq<Step>)
    requires value != ""
    ensures Path({server}, s, steps) && !AloneOk(s, server)
  {
    var online := {server};
    s, steps := Enters(online, Init(online), [], 0, server, ask);
    s, steps := Asking(online, s, steps, 0);
    s, steps := HandsOver(online, s, steps, 0, value);
    s, steps := GivesUp(online, s, steps, 0);
    s, steps := Enters(online, s, steps, 1, server, ask);
    s, steps := Asking(online, s, steps, 1);
    s, steps := PathOn(online, s, steps, LateSet(ask, value));
    assert s.requests[1].stage.Querying? && NameOf(s.requests[1].ask) in s.cache;
  }

  // ---- without Redis ----------------------------------------------------------------------------------------------

  lemma OfflineQueries(online: set<nat>, s: State, l: seq<Step>, id: nat) returns (t: State, more: seq<Step>)
    requires Path(online, s, l) && id in s.requests && s.requests[id].stage.Rechecking? && s.requests[id].server !in s.online
    ensures Path(online, t, more) && t == ReadAgain(s, id) && t.requests[id].stage == Querying
  {
    t, more := PathOn(online, s, l, Recheck(id, false));
  }

  lemma OfflineAnswers(online: set<nat>, s: State, l: seq<Step>, id: nat) returns (t: State, more: seq<Step>)
    requires Path(online, s, l) && id in s.requests && s.requests[id].stage.Querying? && s.requests[id].server !in s.online
    ensures Path(online, t, more) && t == TakeResult(s, id, "x")
  {
    t, more := PathOn(online, s, l, QueryReturns(id, Some("x")));
  }

  lemma OfflineLeaves(online: set<nat>, s: State, l: seq<Step>, id: nat) returns (t: State, more: seq<Step>)
    requires Path(online, s, l) && id in s.requests && s.requests[id].stage.Rechecking? && s.requests[id].server !in s.online
    requires s.locks == map[LockOf(s.requests[id]) := id]
    ensures Path(online, t, more) && t.online == s.online && t.locks == map[] && t.requests.Keys == s.requests.Keys
    ensures t.queries == Bump(s.queries, (s.requests[id].server, s.requests[id].ask))
    ensures t.failures == s.failures && t.expirations == s.expirations
  {
    t, more := OfflineQueries(online, s, l, id);
    t, more := OfflineAnswers(online, t, more, id);
  }

  /** The bound needs the connection: a server without Redis can query any number of times with nothing expired or failed. */
  lemma {:induction false} OfflineIsUnbounded(online: set<nat>, server: nat, ask: Ask, n: nat) returns (s: State, steps: seq<Step>)
    requires server !in online
    ensures Path(online, s, steps) && Count(s.queries, (server, ask)) == n && s.failures == map[] && s.expirations == map[]
    ensures s.online == online && s.locks == map[] && forall id :: id in s.requests ==> id < n
  {
    if n == 0 {
      s, steps := Init(online), [];
    } else {
      s, steps := OfflineIsUnbounded(online, server, ask, n - 1);
      s, steps := Enters(online, s, steps, n - 1, server, ask);
      s, steps := OfflineLeaves(online, s, steps, n - 1);
    }
  }
}

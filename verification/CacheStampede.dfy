/** The stampede bound is attained: for any number of servers, expirations and failures there is a run that reaches it. */
module CacheStampede {
  import opened Wrappers
  import opened CacheKey
  import opened CacheProtocol

  function Servers(m: nat): (r: set<nat>)
    ensures forall j: nat :: j in r <==> j < m
  {
    if m == 0 then {} else Servers(m - 1) + {m - 1}
  }

  /** The queries, failures and expirations that `t` counts beyond those of `s`. */
  ghost predicate Adds(s: State, t: State, ask: Ask, m: nat, queries: nat, failures: nat, expirations: nat) {
    && Total(t.queries, ask, m) == Total(s.queries, ask, m) + queries
    && Total(t.failures, ask, m) == Total(s.failures, ask, m) + failures
    && Count(t.expirations, NameOf(ask)) == Count(s.expirations, NameOf(ask)) + expirations
  }

  lemma {:induction false} TotalBump(counts: map<(nat, Ask), nat>, ask: Ask, m: nat, j: nat)
    ensures Total(Bump(counts, (j, ask)), ask, m) == Total(counts, ask, m) + if j < m then 1 else 0
  {
    if m > 0 { TotalBump(counts, ask, m - 1, j); }
  }

  /** Servers 0 to j-1 are querying, each under its lock, for requests first, ..., first+j-1; no other lock is held. */
  ghost predicate Crowd(s: State, ask: Ask, m: nat, first: nat, j: nat, next: nat) {
    && s.online == Servers(m) && first + j <= next
    && (forall id :: id in s.requests ==> id < next)
    && (forall id :: first <= id < first + j ==> id in s.requests && s.requests[id] == Request(id - first, ask, Querying))
    && (forall l :: l in s.locks ==> l.server < j && l == Lock(l.server, ask.GasMetrics?))
  }

  /** `t` is `s` after request `id` of `server` has come, found nothing and sent its query. */
  ghost predicate Asked(s: State, t: State, id: nat, server: nat, ask: Ask) {
    && t.online == s.online && t.now == s.now && t.cache == s.cache
    && t.expirations == s.expirations && t.failures == s.failures
    && t.queries == Bump(s.queries, (server, ask))
    && t.requests == s.requests[id := Request(server, ask, Querying)]
    && t.locks == s.locks[Lock(server, ask.GasMetrics?) := id]
  }

  lemma Asks(online: set<nat>, s: State, l: seq<Step>, id: nat, server: nat, ask: Ask) returns (t: State, more: seq<Step>)
    requires Path(online, s, l) && id !in s.requests && Lock(server, ask.GasMetrics?) !in s.locks && NameOf(ask) !in s.cache
    ensures Path(online, t, more) && Asked(s, t, id, server, ask)
  {
    var a, la := Enters(online, s, l, id, server, ask);
    t, more := Asking(online, a, la, id);
    Overwritten(s.requests, id, Request(server, ask, Rechecking), Request(server, ask, Querying));
  }

  lemma Overwritten(m: map<nat, Request>, id: nat, a: Request, b: Request)
    ensures m[id := a][id := b] == m[id := b]
  {
  }

  lemma AskedCrowd(s: State, t: State, ask: Ask, m: nat, first: nat, j: nat)
    requires Crowd(s, ask, m, first, j, first + j) && j < m && Asked(s, t, first + j, j, ask)
    ensures Crowd(t, ask, m, first, j + 1, first + j + 1) && Adds(s, t, ask, m, 1, 0, 0)
  {
    TotalBump(s.queries, ask, m, j);
  }

  /** One more server finds nothing and queries. */
  lemma AskOne(s: State, l: seq<Step>, ask: Ask, m: nat, first: nat, j: nat) returns (t: State, more: seq<Step>)
    requires Path(Servers(m), s, l) && Crowd(s, ask, m, first, j, first + j) && j < m && NameOf(ask) !in s.cache
    ensures Path(Servers(m), t, more) && Crowd(t, ask, m, first, j + 1, first + j + 1)
    ensures NameOf(ask) !in t.cache && Adds(s, t, ask, m, 1, 0, 0)
  {
    t, more := Asks(Servers(m), s, l, first + j, j, ask);
    AskedCrowd(s, t, ask, m, first, j);
  }

  lemma {:induction false} AskAll(s: State, l: seq<Step>, ask: Ask, m: nat, first: nat, j: nat) returns (t: State, more: seq<Step>)
    requires Path(Servers(m), s, l) && Crowd(s, ask, m, first, 0, first) && j <= m && NameOf(ask) !in s.cache
    ensures Path(Servers(m), t, more) && Crowd(t, ask, m, first, j, first + j)
    ensures NameOf(ask) !in t.cache && Adds(s, t, ask, m, j, 0, 0)
  {
    t, more := s, l;
    if j > 0 {
      t, more := AskAll(s, l, ask, m, first, j - 1);
      t, more := AskOne(t, more, ask, m, first, j - 1);
    }
  }

  /** Request `id` has moved on to `stage`, and no query, failure or expiration was counted. */
  ghost predicate Moved(s: State, t: State, id: nat, stage: Stage) {
    && id in s.requests && t.requests == s.requests[id := s.requests[id].(stage := stage)]
    && t.online == s.online && t.now == s.now && t.queries == s.queries && t.failures == s.failures && t.expirations == s.expirations
  }

  lemma GetsResult(online: set<nat>, s: State, l: seq<Step>, id: nat) returns (t: State, more: seq<Step>)
    requires Path(online, s, l) && id in s.requests && s.requests[id].stage.Querying? && s.requests[id].server in s.online
    ensures Path(online, t, more) && Moved(s, t, id, Storing("x", false)) && t.locks == s.locks && t.cache == s.cache
  {
    t, more := PathOn(online, s, l, QueryReturns(id, Some("x")));
  }

  lemma Lands(online: set<nat>, s: State, l: seq<Step>, id: nat) returns (t: State, more: seq<Step>)
    requires Path(online, s, l) && id in s.requests && s.requests[id].stage == Storing("x", false)
    ensures Path(online, t, more) && Moved(s, t, id, Storing("x", true)) && t.locks == s.locks
    ensures t.cache == s.cache[NameOf(s.requests[id].ask) := Entry("x", s.now)]
  {
    t, more := PathOn(online, s, l, SetLands(id));
  }

  lemma Finishes(online: set<nat>, s: State, l: seq<Step>, id: nat) returns (t: State, more: seq<Step>)
    requires Path(online, s, l) && id in s.requests && s.requests[id].stage == Storing("x", true)
    ensures Path(online, t, more) && Moved(s, t, id, Answered("x", s.now, s.now))
    ensures t.locks == s.locks - {LockOf(s.requests[id])} && t.cache == s.cache
  {
    t, more := PathOn(online, s, l, StoreReturns(id, false));
  }

  lemma MovedOn(s: State, t: State, u: State, id: nat, a: Stage, b: Stage)
    requires Moved(s, t, id, a) && Moved(t, u, id, b)
    ensures Moved(s, u, id, b)
  {
    assert u.requests == s.requests[id := s.requests[id].(stage := b)];
  }

  /** From its query to its answer, the lock given back. */
  lemma Stores(online: set<nat>, s: State, l: seq<Step>, id: nat) returns (t: State, more: seq<Step>, end: Stage)
    requires Path(online, s, l) && id in s.requests && s.requests[id].stage.Querying? && s.requests[id].server in s.online
    ensures Path(online, t, more) && Moved(s, t, id, end)
    ensures t.locks == s.locks - {LockOf(s.requests[id])}
    ensures t.cache == s.cache[NameOf(s.requests[id].ask) := Entry("x", s.now)]
  {
    var a, la := GetsResult(online, s, l, id);
    var b, lb := Lands(online, a, la, id);
    MovedOn(s, a, b, id, Storing("x", false), Storing("x", true));
    t, more := Finishes(online, b, lb, id);
    end := Answered("x", b.now, b.now);
    MovedOn(s, b, t, id, Storing("x", true), end);
  }

  lemma StoredCrowd(s: State, t: State, ask: Ask, m: nat, first: nat, j: nat, next: nat, stage: Stage)
    requires Crowd(s, ask, m, first, j, next) && 0 < j && Moved(s, t, first + j - 1, stage)
    requires t.locks == s.locks - {Lock(j - 1, ask.GasMetrics?)}
    ensures Crowd(t, ask, m, first, j - 1, next)
  {
  }

  /** The last of the querying servers gets its result, stores it and leaves. */
  lemma StoreOne(s: State, l: seq<Step>, ask: Ask, m: nat, first: nat, j: nat, next: nat) returns (t: State, more: seq<Step>)
    requires Path(Servers(m), s, l) && Crowd(s, ask, m, first, j, next) && 0 < j <= m
    ensures Path(Servers(m), t, more) && Crowd(t, ask, m, first, j - 1, next)
    ensures NameOf(ask) in t.cache && Adds(s, t, ask, m, 0, 0, 0)
  {
    var id := first + j - 1;
    assert s.requests[id] == Request(j - 1, ask, Querying);
    var end;
    t, more, end := Stores(Servers(m), s, l, id);
    StoredCrowd(s, t, ask, m, first, j, next, end);
  }

  lemma {:induction false} StoreAll(s: State, l: seq<Step>, ask: Ask, m: nat, first: nat, j: nat, next: nat)
    returns (t: State, more: seq<Step>)
    requires Path(Servers(m), s, l) && Crowd(s, ask, m, first, j, next) && 0 < j <= m
    ensures Path(Servers(m), t, more) && Crowd(t, ask, m, first, 0, next)
    ensures NameOf(ask) in t.cache && Adds(s, t, ask, m, 0, 0, 0)
    decreases j
  {
    t, more := StoreOne(s, l, ask, m, first, j, next);
    if j > 1 { t, more := StoreAll(t, more, ask, m, first, j - 1, next); }
  }

  /** Every server queries once, all at the same time. */
  lemma Round(s: State, l: seq<Step>, ask: Ask, m: nat, next: nat) returns (t: State, more: seq<Step>, after: nat)
    requires 0 < m && Path(Servers(m), s, l) && Crowd(s, ask, m, next, 0, next) && NameOf(ask) !in s.cache
    ensures Path(Servers(m), t, more) && Crowd(t, ask, m, after, 0, after)
    ensures NameOf(ask) in t.cache && Adds(s, t, ask, m, m, 0, 0)
  {
    after := next + m;
    t, more := AskAll(s, l, ask, m, next, m);
    t, more := StoreAll(t, more, ask, m, next, m, after);
  }

  /** A round after which the entry leaves Redis, `e` times. */
  lemma {:induction false} Rounds(s: State, l: seq<Step>, ask: Ask, m: nat, next: nat, e: nat)
    returns (t: State, more: seq<Step>, after: nat)
    requires 0 < m && Path(Servers(m), s, l) && Crowd(s, ask, m, next, 0, next) && NameOf(ask) !in s.cache
    ensures Path(Servers(m), t, more) && Crowd(t, ask, m, after, 0, after)
    ensures NameOf(ask) !in t.cache && Adds(s, t, ask, m, m * e, 0, e)
  {
    t, more, after := s, l, next;
    if e > 0 {
      t, more, after := Rounds(s, l, ask, m, next, e - 1);
      t, more, after := Round(t, more, ask, m, after);
      t, more := Leaves(t, more, ask, m, after);
      assert m * e == m * (e - 1) + m;
    }
  }

  lemma Leaves(s: State, l: seq<Step>, ask: Ask, m: nat, next: nat) returns (t: State, more: seq<Step>)
    requires Path(Servers(m), s, l) && Crowd(s, ask, m, next, 0, next) && NameOf(ask) in s.cache
    ensures Path(Servers(m), t, more) && Crowd(t, ask, m, next, 0, next)
    ensures NameOf(ask) !in t.cache && Adds(s, t, ask, m, 0, 0, 1)
  {
    t, more := PathOn(Servers(m), s, l, Expire(NameOf(ask)));
  }

  /** The query of request `id` has failed. */
  ghost predicate QueryFailed(s: State, t: State, id: nat) {
    && id in s.requests && t.requests.Keys == s.requests.Keys && t.online == s.online && t.cache == s.cache
    && t.locks == s.locks - {LockOf(s.requests[id])} && t.queries == s.queries && t.expirations == s.expirations
    && t.failures == Bump(s.failures, (s.requests[id].server, s.requests[id].ask))
  }

  lemma QueryFails(online: set<nat>, s: State, l: seq<Step>, id: nat) returns (t: State, more: seq<Step>)
    requires Path(online, s, l) && id in s.requests && s.requests[id].stage.Querying?
    ensures Path(online, t, more) && QueryFailed(s, t, id)
  {
    t, more := PathOn(online, s, l, QueryReturns(id, None));
  }

  lemma FailedCrowd(s: State, t: State, ask: Ask, m: nat, next: nat)
    requires Crowd(s, ask, m, next, 1, next + 1) && QueryFailed(s, t, next) && 0 < m
    ensures Crowd(t, ask, m, next + 1, 0, next + 1) && Adds(s, t, ask, m, 0, 1, 0)
  {
    assert s.requests[next] == Request(0, ask, Querying);
    TotalBump(s.failures, ask, m, 0);
  }

  /** A query that fails. */
  lemma FailOne(s: State, l: seq<Step>, ask: Ask, m: nat, next: nat) returns (t: State, more: seq<Step>)
    requires 0 < m && Path(Servers(m), s, l) && Crowd(s, ask, m, next, 0, next) && NameOf(ask) !in s.cache
    ensures Path(Servers(m), t, more) && Crowd(t, ask, m, next + 1, 0, next + 1)
    ensures NameOf(ask) !in t.cache && Adds(s, t, ask, m, 1, 1, 0)
  {
    t, more := AskOne(s, l, ask, m, next, 0);
    var before := t;
    t, more := QueryFails(Servers(m), t, more, next);
    FailedCrowd(before, t, ask, m, next);
  }

  lemma {:induction false} Failing(s: State, l: seq<Step>, ask: Ask, m: nat, next: nat, f: nat) returns (t: State, more: seq<Step>)
    requires 0 < m && Path(Servers(m), s, l) && Crowd(s, ask, m, next, 0, next) && NameOf(ask) !in s.cache
    ensures Path(Servers(m), t, more) && Crowd(t, ask, m, next + f, 0, next + f)
    ensures NameOf(ask) !in t.cache && Adds(s, t, ask, m, f, f, 0)
  {
    t, more := s, l;
    if f > 0 {
      t, more := Failing(s, l, ask, m, next, f - 1);
      t, more := FailOne(t, more, ask, m, next + f - 1);
    }
  }

  lemma {:induction false} NothingCounted(ask: Ask, m: nat)
    ensures Total(map[], ask, m) == 0
  {
    if m > 0 { NothingCounted(ask, m - 1); }
  }

  /** No smaller bound holds: m connected servers, e expirations and f failures can come with m*(e+1)+f queries. */
  lemma StampedeIsReached(m: nat, ask: Ask, e: nat, f: nat)
    requires 0 < m
    ensures exists s :: Reachable(Servers(m), s) && Count(s.expirations, NameOf(ask)) == e && Total(s.failures, ask, m) == f &&
                        Total(s.queries, ask, m) == m * (e + 1) + f
  {
    NothingCounted(ask, m);
    var next;
    var s, l := Failing(Init(Servers(m)), [], ask, m, 0, f);
    s, l, next := Rounds(s, l, ask, m, f, e);
    s, l, next := Round(s, l, ask, m, next);
    assert m * (e + 1) == m * e + m;
    assert Reachable(Servers(m), s);
  }

  // ---- the age of an answer ----------------------------------------------------------------------------------------

  /** One entry is in Redis, stored at `stored`. */
  ghost predicate OnlyEntry(s: State, ask: Ask, stored: nat) {
    NameOf(ask) in s.cache && s.cache[NameOf(ask)].stored == stored && s.cache.Keys == {NameOf(ask)} && s.locks == map[]
  }

  lemma {:induction false} TimePasses(online: set<nat>, s: State, l: seq<Step>, ask: Ask, d: nat) returns (t: State, more: seq<Step>)
    requires Path(online, s, l) && OnlyEntry(s, ask, s.now) && d < 60
    ensures Path(online, t, more) && t.now == s.now + d && t.cache == s.cache && t.requests == s.requests && t.online == s.online
    ensures t.locks == s.locks
  {
    t, more := s, l;
    if d > 0 {
      t, more := TimePasses(online, s, l, ask, d - 1);
      t, more := PathOn(online, t, more, Tick);
    }
  }

  lemma StoredOnce(server: nat, ask: Ask) returns (s: State, l: seq<Step>)
    ensures Path({server}, s, l) && s.online == {server} && s.requests.Keys == {0} && OnlyEntry(s, ask, s.now)
  {
    var online := {server};
    var a, la := Asks(online, Init(online), [], 0, server, ask);
    var end;
    s, l, end := Stores(online, a, la, 0);
  }

  /** Any age below 60 seconds is that of some answer, which is given from the cache without the lock. */
  lemma AgeIsReached(server: nat, ask: Ask, d: nat)
    requires d < 60
    ensures exists s :: Reachable({server}, s) && 1 in s.requests && s.requests[1].stage.Answered? &&
                        s.requests[1].stage.at == s.requests[1].stage.stored + d && s.requests[1].ask == ask
  {
    var online := {server};
    var s, l := StoredOnce(server, ask);
    s, l := TimePasses(online, s, l, ask, d);
    s, l := Arrives(online, s, l, 1, server, ask);
    s, l := PathOn(online, s, l, FirstRead(1, false));
    assert Reachable(online, s);
  }
}

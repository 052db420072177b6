/**
 get_gas_metrics and get_trending_tokens as they are written (src/backend/services/gas_service.py,
 token_service.py).  At every await the other coroutines of all servers, Redis and the clock may take any steps of
 CacheProtocol; between two awaits this coroutine has the shared state to itself.
 */
module CacheServices {
  import opened Wrappers
  import opened CacheKey
  import opened CacheProtocol

  /** What happens during one await: the steps of the others, and whether it ends in an exception. */
  datatype Await = Await(others: seq<Step>, raises: bool)

  datatype Script = Script(
    get: Await, locking: seq<seq<Step>>, getAgain: Await,
    query: Await, result: string, put: Await, landed: bool, settling: seq<Step>)

  lemma StepReaches(s: State, step: Step)
    requires Reachable(s.online, s) && Enabled(s, step)
    ensures Reachable(s.online, Apply(s, step))
  {
    var steps :| Path(s.online, s, steps);
    var t, more := PathOn(s.online, s, steps, step);
  }

  /** A step of another coroutine, of Redis or of the clock. */
  predicate ByOthers(step: Step, id: nat) {
    if OfOne(step) then step.id != id else step.Arrive? ==> step.id != id
  }

  lemma OthersLeaveUs(s: State, step: Step, id: nat)
    requires Enabled(s, step) && ByOthers(step, id) && id in s.requests
    ensures var t := Apply(s, step); id in t.requests && t.requests[id] == s.requests[id] && t.online == s.online
  {
    if OfOne(step) { StepDoes(s, step); }
  }

  /** The others' steps that are possible when their turn comes. */
  function Played(s: State, id: nat, script: seq<Step>): State {
    if script == [] then s
    else
      var n := |script| - 1;
      var t := Played(s, id, script[..n]);
      if Enabled(t, script[n]) && ByOthers(script[n], id) then Apply(t, script[n]) else t
  }

  /** Why a request ends without an answer: a call raised, or the lock was never free while it waited. */
  predicate Refused(script: Script, online: bool, locked: bool) {
    (online && (script.get.raises || script.getAgain.raises || script.put.raises)) || script.query.raises ||
    script.locking == [] || locked
  }

  class Backend {
    var online: set<nat>
    var now: nat
    var cache: map<string, Entry>
    var locks: map<Lock, nat>
    var requests: map<nat, Request>
    var queries: map<(nat, Ask), nat>
    var failures: map<(nat, Ask), nat>
    var expirations: map<string, nat>
    var computed: set<(Ask, string)>
    var late: set<(Ask, string)>

    function View(): State
      reads this
    {
      State(online, now, cache, locks, requests, queries, failures, expirations, computed, late)
    }

    constructor (online: set<nat>)
      ensures View() == Init(online)
    {
      this.online, now, cache, locks, requests := online, 0, map[], map[], map[];
      queries, failures, expirations, computed, late := map[], map[], map[], {}, {};
    }

    method MoveTo(t: State)
      modifies this
      ensures View() == t
    {
      online, now, cache, locks, requests := t.online, t.now, t.cache, t.locks, t.requests;
      queries, failures, expirations, computed, late := t.queries, t.failures, t.expirations, t.computed, t.late;
    }

    method Others(id: nat, script: seq<Step>)
      requires Reachable(online, View()) && id in requests
      modifies this
      ensures Reachable(online, View()) && online == old(online)
      ensures id in requests && requests[id] == old(requests[id])
      ensures View() == Played(old(View()), id, script)
    {
      for i := 0 to |script|
        invariant Reachable(online, View()) && online == old(online)
        invariant id in requests && requests[id] == old(requests[id])
        invariant View() == Played(old(View()), id, script[..i])
      {
        assert script[..i + 1][..i] == script[..i];
        if Enabled(View(), script[i]) && ByOthers(script[i], id) {
          StepReaches(View(), script[i]);
          OthersLeaveUs(View(), script[i], id);
          MoveTo(Apply(View(), script[i]));
        }
      }
      assert script[..|script|] == script;
    }

    /** The coroutine goes to `stage`; the end of `async with` gives its lock back. */
    method GoTo(id: nat, stage: Stage)
      requires id in requests
      modifies this`requests, this`locks
      ensures View() == Become(old(View()), id, stage)
    {
      var r := requests[id];
      if Holds(r.stage) && !Holds(stage) {
        locks := locks - {LockOf(r)};
      }
      requests := requests[id := r.(stage := stage)];
    }

    /** The except clause: the caller gets DatabaseFetchError. */
    method Raise(id: nat)
      requires id in requests
      modifies this`requests, this`locks, this`failures
      ensures View() == Fail(old(View()), id)
    {
      var r := requests[id];
      if Busy(r.stage) { failures := Bump(failures, (r.server, r.ask)); }
      GoTo(id, Failed);
    }

    /** redis.get, if the server has a connection. */
    method Get(r: Request) returns (found: Option<Entry>)
      ensures found == if r.server in online && NameOf(r.ask) in cache then Some(cache[NameOf(r.ask)]) else None
    {
      if r.server in online && NameOf(r.ask) in cache { return Some(cache[NameOf(r.ask)]); }
      return None;
    }

    method FirstLook(id: nat) returns (answer: Option<string>)
      requires id in requests && requests[id].stage.Starting?
      modifies this`requests, this`locks
      ensures View() == Apply(old(View()), FirstRead(id, false))
      ensures var r := old(requests[id]);
        answer == if r.server in online && NameOf(r.ask) in cache then Some(cache[NameOf(r.ask)].value) else None
      ensures answer.Some? ==> requests[id].stage.Answered? && requests[id].stage.value == answer.value
      ensures answer.None? ==> requests[id].stage == Waiting
    {
      var found := Get(requests[id]);
      if found.Some? {
        GoTo(id, Answered(found.value.value, found.value.stored, now));
        return Some(found.value.value);
      }
      GoTo(id, Waiting);
      return None;
    }

    /** Gets the lock if it is free within the script; a coroutine still waiting then is cancelled. */
    method AcquireLock(id: nat, turns: seq<seq<Step>>) returns (acquired: bool)
      requires Reachable(online, View()) && id in requests && requests[id].stage == Waiting
      modifies this
      ensures Reachable(online, View()) && online == old(online)
      ensures id in requests && requests[id] == old(requests[id]).(stage := if acquired then Rechecking else Failed)
      ensures !acquired && turns != [] ==> LockOf(requests[id]) in locks
    {
      for i := 0 to |turns|
        invariant Reachable(online, View()) && online == old(online)
        invariant id in requests && requests[id] == old(requests[id])
        invariant i > 0 ==> LockOf(requests[id]) in locks
      {
        Others(id, turns[i]);
        if LockOf(requests[id]) !in locks {
          StepReaches(View(), Acquire(id));
          locks := locks[LockOf(requests[id]) := id];
          requests := requests[id := requests[id].(stage := Rechecking)];
          return true;
        }
      }
      StepReaches(View(), Cancel(id));
      Raise(id);
      return false;
    }

    method SecondLook(id: nat) returns (answer: Option<string>)
      requires id in requests && requests[id].stage.Rechecking?
      modifies this`requests, this`locks, this`queries
      ensures View() == Apply(old(View()), Recheck(id, false))
      ensures var r := old(requests[id]);
        answer == if r.server in online && NameOf(r.ask) in cache then Some(cache[NameOf(r.ask)].value) else None
      ensures answer.Some? ==> requests[id].stage.Answered? && requests[id].stage.value == answer.value
      ensures answer.None? ==> requests[id] == old(requests[id]).(stage := Querying)
    {
      var r := requests[id];
      var found := Get(r);
      if found.Some? {
        GoTo(id, Answered(found.value.value, found.value.stored, now));
        return Some(found.value.value);
      }
      GoTo(id, Querying);
      queries := Bump(queries, (r.server, r.ask));
      return None;
    }

    /** After the query: the response goes to Redis if there is one, otherwise straight to the caller. */
    method HaveResult(id: nat, value: string)
      requires id in requests && requests[id].stage.Querying? && value != ""
      modifies this`requests, this`locks, this`computed
      ensures View() == Apply(old(View()), QueryReturns(id, Some(value)))
      ensures requests[id].stage == if requests[id].server in online then Storing(value, false) else Answered(value, now, now)
    {
      var r := requests[id];
      GoTo(id, if r.server in online then Storing(value, false) else Answered(value, now, now));
      computed := computed + {(r.ask, value)};
    }

    /** redis.set(..., ex=60) takes effect, while the coroutine still waits for it. */
    method SetTakesEffect(id: nat)
      requires id in requests && requests[id].stage.Storing? && !requests[id].stage.landed
      modifies this`cache, this`requests, this`locks
      ensures View() == Apply(old(View()), SetLands(id))
      ensures requests[id] == old(requests[id]).(stage := Storing(old(requests[id].stage.value), true))
    {
      var r := requests[id];
      cache := cache[NameOf(r.ask) := Entry(r.stage.value, now)];
      GoTo(id, Storing(r.stage.value, true));
    }

    /** The end of redis.set(..., ex=60): when it raises, it may have taken effect or may still do so. */
    method SetReturned(id: nat, raised: bool)
      requires id in requests && requests[id].stage.Storing? && (requests[id].stage.landed || raised)
      modifies this`requests, this`locks, this`failures, this`late
      ensures View() == Apply(old(View()), StoreReturns(id, raised))
      ensures requests[id].stage == if raised then Failed else Answered(old(requests[id].stage.value), now, now)
    {
      var r := requests[id];
      if raised {
        Raise(id);
        if !r.stage.landed { late := late + {(r.ask, r.stage.value)}; }
      } else {
        GoTo(id, Answered(r.stage.value, now, now));
      }
    }

    /** The whole coroutine.  Its answer is a result of its own query parameters, less than 60 seconds old when read. */
    method Serve(id: nat, server: nat, ask: Ask, script: Script) returns (answer: Option<string>)
      requires Reachable(online, View()) && id !in requests && script.result != ""
      modifies this
      ensures Reachable(online, View()) && online == old(online)
      ensures id in requests && Over(requests[id].stage) && requests[id].ask == ask
      ensures answer.Some? <==> requests[id].stage.Answered?
      ensures answer.Some? ==> answer.value == requests[id].stage.value && (ask, answer.value) in computed &&
                               requests[id].stage.at < requests[id].stage.stored + 60
      ensures answer.None? ==> Refused(script, server in online, Lock(server, ask.GasMetrics?) in locks)
    {
      StepReaches(View(), Arrive(id, server, ask));
      requests := requests[id := Request(server, ask, Starting)];
      answer := Look(id, script);
      if answer.None? && requests[id].stage == Waiting {
        answer := Fetch(id, script);
      }
      if answer.Some? { AnswersAreFreshAndTheirOwn(online, View(), id); }
    }

    /** The first read, without the lock. */
    method Look(id: nat, script: Script) returns (answer: Option<string>)
      requires Reachable(online, View()) && id in requests && requests[id].stage == Starting
      modifies this
      ensures Reachable(online, View()) && online == old(online)
      ensures id in requests && requests[id] == old(requests[id]).(stage := requests[id].stage)
      ensures if answer.Some? then requests[id].stage.Answered? && requests[id].stage.value == answer.value
              else requests[id].stage == if requests[id].server in online && script.get.raises then Failed else Waiting
    {
      if requests[id].server in online {
        Others(id, script.get.others);
        if script.get.raises {
          StepReaches(View(), FirstRead(id, true));
          Raise(id);
          return None;
        }
      }
      StepReaches(View(), FirstRead(id, false));
      answer := FirstLook(id);
    }

    /** Under the lock: look again, query, store. */
    method Fetch(id: nat, script: Script) returns (answer: Option<string>)
      requires Reachable(online, View()) && id in requests && requests[id].stage == Waiting && script.result != ""
      modifies this
      ensures Reachable(online, View()) && online == old(online)
      ensures id in requests && requests[id] == old(requests[id]).(stage := requests[id].stage)
      ensures if answer.Some? then requests[id].stage.Answered? && requests[id].stage.value == answer.value
              else requests[id].stage == Failed
      ensures answer.None? ==> Refused(script, requests[id].server in online, LockOf(requests[id]) in locks)
    {
      var acquired := AcquireLock(id, script.locking);
      if !acquired { return None; }
      if requests[id].server in online {
        Others(id, script.getAgain.others);
        if script.getAgain.raises {
          StepReaches(View(), Recheck(id, true));
          Raise(id);
          return None;
        }
      }
      StepReaches(View(), Recheck(id, false));
      answer := SecondLook(id);
      if answer.Some? { return; }
      answer := Query(id, script);
    }

    /** The result is on its way to Redis; the others may see it there before this coroutine goes on. */
    method Store(id: nat, script: Script) returns (raised: bool)
      requires Reachable(online, View()) && id in requests && requests[id].stage == Storing(script.result, false)
      modifies this
      ensures Reachable(online, View()) && online == old(online) && id in requests
      ensures requests[id] == old(requests[id]).(stage := requests[id].stage)
      ensures raised == script.put.raises
      ensures if raised then requests[id].stage == Failed
              else requests[id].stage.Answered? && requests[id].stage.value == script.result
    {
      Others(id, script.put.others);
      raised := script.put.raises;
      if script.landed || !raised {
        StepReaches(View(), SetLands(id));
        SetTakesEffect(id);
        Others(id, script.settling);
      }
      StepReaches(View(), StoreReturns(id, raised));
      SetReturned(id, raised);
    }

    method Query(id: nat, script: Script) returns (answer: Option<string>)
      requires Reachable(online, View()) && id in requests && requests[id].stage == Querying && script.result != ""
      modifies this
      ensures Reachable(online, View()) && online == old(online)
      ensures id in requests && requests[id] == old(requests[id]).(stage := requests[id].stage)
      ensures if answer.Some? then requests[id].stage.Answered? && requests[id].stage.value == answer.value
              else requests[id].stage == Failed
      ensures answer.None? ==> script.query.raises || (requests[id].server in online && script.put.raises)
    {
      Others(id, script.query.others);
      if script.query.raises {
        StepReaches(View(), QueryReturns(id, None));
        Raise(id);
        return None;
      }
      StepReaches(View(), QueryReturns(id, Some(script.result)));
      HaveResult(id, script.result);
      if requests[id].server in online {
        var raised := Store(id, script);
        if raised { return None; }
      }
      return Some(script.result);
    }
  }

  // ---- the response ------------------------------------------------------------------------------------------------

  datatype TokenRow = TokenRow(address: string, symbol: string, name: string, transferCount: nat)
  datatype TrendingToken = TrendingToken(address: string, symbol: string, name: string, transferCount: nat)

  /** One token for each row of the query, in the query's order. */
  method BuildTokens(rows: seq<TokenRow>) returns (tokens: seq<TrendingToken>)
    ensures |tokens| == |rows|
    ensures forall i :: 0 <= i < |rows| ==>
      tokens[i].address == rows[i].address && tokens[i].symbol == rows[i].symbol &&
      tokens[i].name == rows[i].name && tokens[i].transferCount == rows[i].transferCount
  {
    tokens := [];
    for i := 0 to |rows|
      invariant |tokens| == i
      invariant forall j :: 0 <= j < i ==>
        tokens[j].address == rows[j].address && tokens[j].symbol == rows[j].symbol &&
        tokens[j].name == rows[j].name && tokens[j].transferCount == rows[j].transferCount
    {
      tokens := tokens + [TrendingToken(rows[i].address, rows[i].symbol, rows[i].name, rows[i].transferCount)];
    }
  }
}

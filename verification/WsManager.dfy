/**
 The websocket connection manager (src/backend/core/ws_manager.py), used by the endpoint in
 src/backend/api/whales.py: a machine that interleaves handshakes, broadcasts, disconnects and heartbeat
 tasks in any order, and the class whose coroutines are runs of it.
 */
module WsManager {
  import opened Sums
  import opened Wrappers

  /** The manager's fields, with the heartbeat tasks it has created so far. */
  datatype Hub = Hub(max: nat, active: seq<nat>, ping: Option<nat>, created: nat, done: set<nat>)

  predicate Unfinished(h: Hub, task: nat) { task < h.created && task !in h.done }

  function Without(active: seq<nat>, ws: nat): seq<nat> {
    if active == [] then []
    else if active[0] == ws then active[1..]
    else [active[0]] + Without(active[1..], ws)
  }

  function Drop(h: Hub, ws: nat): Hub { h.(active := Without(h.active, ws)) }

  function Register(h: Hub, ws: nat): Hub {
    var g := h.(active := h.active + [ws]);
    if h.ping.None? || h.ping.value in h.done then g.(ping := Some(h.created), created := h.created + 1) else g
  }

  lemma {:induction false} WithoutFirst(active: seq<nat>, ws: nat, i: nat)
    requires i <= |active| && (forall j :: 0 <= j < i ==> active[j] != ws) && (i < |active| ==> active[i] == ws)
    ensures Without(active, ws) == if i < |active| then active[..i] + active[i + 1..] else active
  {
    if active != [] && i > 0 {
      WithoutFirst(active[1..], ws, i - 1);
      if i < |active| { assert active[1..][..i - 1] == active[1..i] && active[1..][i..] == active[i + 1..]; }
    }
  }

  // ---- the machine ---------------------------------------------------------------------------------------------

  datatype Outcome = Sending | Sent | Dropped
  datatype Cause = ByClient | ByBroadcast(id: nat)

  datatype State = State(
    hub: Hub,
    pending: set<nat>,                       // sockets awaiting accept()
    seen: set<nat>,                          // sockets that ever asked; the endpoint calls connect once for each
    broadcasts: map<nat, map<nat, Outcome>>, // per broadcast, the sends of its snapshot
    // history
    dropped: map<nat, Cause>,                // which call took a socket off the list
    peak: nat)                               // the most handshakes that were ever pending at once

  datatype Step =
    | Connect(ws: nat)
    | AcceptReturns(ws: nat, ok: bool)
    | ClientLeaves(ws: nat)
    | StartBroadcast(id: nat)
    | SendReturns(id: nat, ws: nat, ok: bool)
    | TaskEnds(task: nat)

  function Init(max: nat): State { State(Hub(max, [], None, 0, {}), {}, {}, map[], map[], 0) }

  predicate Enabled(s: State, step: Step) {
    match step
    case Connect(ws) => ws !in s.seen
    case AcceptReturns(ws, _) => ws in s.pending
    case ClientLeaves(ws) => ws in s.seen && ws !in s.pending
    case StartBroadcast(id) => id !in s.broadcasts
    case SendReturns(id, ws, _) => id in s.broadcasts && ws in s.broadcasts[id] && s.broadcasts[id][ws] == Sending
    case TaskEnds(task) => Unfinished(s.hub, task)
  }

  /** disconnect(ws), called by `cause`. */
  function Disconnect(s: State, ws: nat, cause: Cause): State {
    s.(hub := Drop(s.hub, ws), dropped := if ws in s.hub.active then s.dropped[ws := cause] else s.dropped)
  }

  function Resolve(s: State, id: nat, ws: nat, outcome: Outcome): State
    requires id in s.broadcasts
  {
    var sends: map<nat, Outcome> := s.broadcasts[id];
    var after: map<nat, Outcome> := sends[ws := outcome];
    s.(broadcasts := s.broadcasts[id := after])
  }

  function Apply(s: State, step: Step): State
    requires Enabled(s, step)
  {
    match step
    case Connect(ws) =>
      var t := s.(seen := s.seen + {ws});
      if |s.hub.active| >= s.hub.max then t
      else t.(pending := s.pending + {ws}, peak := if |s.pending| + 1 > s.peak then |s.pending| + 1 else s.peak)
    case AcceptReturns(ws, ok) =>
      var t := s.(pending := s.pending - {ws});
      if ok then t.(hub := Register(s.hub, ws)) else t
    case ClientLeaves(ws) => Disconnect(s, ws, ByClient)
    case StartBroadcast(id) =>
      var sends: map<nat, Outcome> := map ws: nat | ws in s.hub.active :: Sending;
      s.(broadcasts := s.broadcasts[id := sends])
    case SendReturns(id, ws, ok) =>
      if ok then Resolve(s, id, ws, Sent) else Resolve(Disconnect(s, ws, ByBroadcast(id)), id, ws, Dropped)
    case TaskEnds(task) => s.(hub := s.hub.(done := s.hub.done + {task}))
  }

  ghost predicate Path(max: nat, s: State, steps: seq<Step>)
    decreases |steps|
  {
    if steps == [] then s == Init(max)
    else
      var k := |steps| - 1;
      exists before :: Path(max, before, steps[..k]) && Enabled(before, steps[k]) && s == Apply(before, steps[k])
  }

  ghost predicate Reachable(max: nat, s: State) {
    exists steps :: Path(max, s, steps)
  }

  // ---- the invariant -----------------------------------------------------------------------------------------

  ghost predicate ListOk(s: State) {
    && Distinct(s.hub.active)
    && s.pending <= s.seen
    && (forall ws :: ws in s.hub.active ==> ws in s.seen && ws !in s.pending)
  }

  ghost predicate BoundOk(s: State) {
    && |s.pending| <= s.peak
    && |s.hub.active| + |s.pending| <= s.hub.max + if s.peak == 0 then 0 else s.peak - 1
  }

  /** Every task but the current one has finished. */
  ghost predicate TasksOk(h: Hub) {
    && (h.ping.Some? ==> h.ping.value < h.created)
    && (forall t: nat :: Unfinished(h, t) ==> h.ping == Some(t))
    && (forall t :: t in h.done ==> t < h.created)
  }

  ghost predicate SendsOk(s: State) {
    && (forall b, ws :: b in s.broadcasts && ws in s.broadcasts[b] ==>
         ws in s.seen && ws !in s.pending && (s.broadcasts[b][ws] == Dropped ==> ws !in s.hub.active))
    && (forall ws :: ws in s.dropped && s.dropped[ws].ByBroadcast? ==>
         var b := s.dropped[ws].id; b in s.broadcasts && ws in s.broadcasts[b] && s.broadcasts[b][ws] == Dropped)
  }

  ghost predicate Inv(s: State) { ListOk(s) && BoundOk(s) && TasksOk(s.hub) && SendsOk(s) }

  lemma {:induction false} WithoutMeaning(active: seq<nat>, ws: nat)
    requires Distinct(active)
    ensures Distinct(Without(active, ws)) && |Without(active, ws)| == |active| - if ws in active then 1 else 0
    ensures forall x :: x in Without(active, ws) <==> x in active && x != ws
  {
    if active != [] {
      assert forall x :: x in active <==> x == active[0] || x in active[1..];
      if active[0] == ws {
        assert forall i :: 0 <= i < |active[1..]| ==> active[1..][i] == active[i + 1];
        assert ws !in active[1..];
      } else {
        WithoutMeaning(active[1..], ws);
        var rest := Without(active[1..], ws);
        assert active[0] !in active[1..];
        forall i, j | 0 <= i < j < |Without(active, ws)| ensures Without(active, ws)[i] != Without(active, ws)[j] {
          if i == 0 { assert rest[j - 1] in rest; }
        }
      }
    }
  }

  lemma DisconnectKeeps(s: State, ws: nat, cause: Cause)
    requires ListOk(s) && BoundOk(s) && TasksOk(s.hub)
    ensures var t := Disconnect(s, ws, cause); ListOk(t) && BoundOk(t) && TasksOk(t.hub) && ws !in t.hub.active
    ensures forall x :: x in Disconnect(s, ws, cause).hub.active ==> x in s.hub.active
  {
    WithoutMeaning(s.hub.active, ws);
    assert forall t: nat :: Unfinished(Drop(s.hub, ws), t) ==> Unfinished(s.hub, t);
  }

  lemma ConnectKeeps(s: State, ws: nat)
    requires Inv(s) && Enabled(s, Connect(ws))
    ensures Inv(Apply(s, Connect(ws)))
  {
    assert |s.pending + {ws}| == |s.pending| + 1;
  }

  lemma AcceptKeeps(s: State, ws: nat, ok: bool)
    requires Inv(s) && Enabled(s, AcceptReturns(ws, ok))
    ensures Inv(Apply(s, AcceptReturns(ws, ok)))
  {
    var t := Apply(s, AcceptReturns(ws, ok));
    assert |s.pending - {ws}| == |s.pending| - 1;
    forall x: nat | Unfinished(t.hub, x) ensures t.hub.ping == Some(x) {
      if x < s.hub.created { assert Unfinished(s.hub, x); }
    }
  }

  lemma ClientKeeps(s: State, ws: nat)
    requires Inv(s) && Enabled(s, ClientLeaves(ws))
    ensures Inv(Apply(s, ClientLeaves(ws)))
  {
    DisconnectKeeps(s, ws, ByClient);
  }

  lemma SendKeeps(s: State, id: nat, ws: nat, ok: bool)
    requires Inv(s) && Enabled(s, SendReturns(id, ws, ok))
    ensures Inv(Apply(s, SendReturns(id, ws, ok)))
  {
    if !ok { DisconnectKeeps(s, ws, ByBroadcast(id)); }
  }

  lemma StepKeepsInv(s: State, step: Step)
    requires Inv(s) && Enabled(s, step)
    ensures Inv(Apply(s, step))
  {
    match step
    case Connect(ws) => ConnectKeeps(s, ws);
    case AcceptReturns(ws, ok) => AcceptKeeps(s, ws, ok);
    case ClientLeaves(ws) => ClientKeeps(s, ws);
    case StartBroadcast(id) =>
    case SendReturns(id, ws, ok) => SendKeeps(s, id, ws, ok);
    case TaskEnds(task) =>
      assert forall x: nat :: Unfinished(Apply(s, step).hub, x) ==> Unfinished(s.hub, x);
  }

  lemma {:induction false} PathKeeps(max: nat, s: State, steps: seq<Step>)
    requires Path(max, s, steps)
    ensures Inv(s) && s.hub.max == max
    decreases |steps|
  {
    if steps != [] {
      var k := |steps| - 1;
      var before :| Path(max, before, steps[..k]) && Enabled(before, steps[k]) && s == Apply(before, steps[k]);
      PathKeeps(max, before, steps[..k]);
      StepKeepsInv(before, steps[k]);
    }
  }

  /** With at most `k` handshakes pending at any one time, the list exceeds its limit by less than `k`. */
  lemma ConnectionBound(max: nat, s: State, k: nat)
    requires Reachable(max, s) && 1 <= k && s.peak <= k
    ensures |s.hub.active| + |s.pending| <= max + k - 1 && Distinct(s.hub.active)
  {
    var steps :| Path(max, s, steps);
    PathKeeps(max, s, steps);
  }

  /** However connects, failures and ends of tasks interleave, no two heartbeat loops run. */
  lemma OneHeartbeat(max: nat, s: State, i: nat, j: nat)
    requires Reachable(max, s) && Unfinished(s.hub, i) && Unfinished(s.hub, j)
    ensures i == j
  {
    var steps :| Path(max, s, steps);
    PathKeeps(max, s, steps);
  }

  /** When all sends of a broadcast have returned, each socket of its snapshot has the message or is off the list. */
  lemma BroadcastOutcome(max: nat, s: State, id: nat, ws: nat)
    requires Reachable(max, s) && id in s.broadcasts && ws in s.broadcasts[id]
    requires forall x :: x in s.broadcasts[id] ==> s.broadcasts[id][x] != Sending
    ensures s.broadcasts[id][ws] == Sent || ws !in s.hub.active
  {
    var steps :| Path(max, s, steps);
    PathKeeps(max, s, steps);
  }

  /** A broadcast only takes off the list the sockets whose send failed. */
  lemma SentIsNotRemoved(max: nat, s: State, id: nat, ws: nat)
    requires Reachable(max, s) && id in s.broadcasts && ws in s.broadcasts[id] && s.broadcasts[id][ws] == Sent
    ensures ws in s.dropped ==> s.dropped[ws] != ByBroadcast(id)
  {
    var steps :| Path(max, s, steps);
    PathKeeps(max, s, steps);
  }

  // ---- the bound is reached -------------------------------------------------------------------------------------

  lemma PathOn(max: nat, s: State, steps: seq<Step>, step: Step) returns (t: State, more: seq<Step>)
    requires Path(max, s, steps) && Enabled(s, step)
    ensures t == Apply(s, step) && more == steps + [step] && Path(max, t, more)
  {
    t, more := Apply(s, step), steps + [step];
    assert more[..|steps|] == steps;
  }

  /** `n` sockets connected one after the other. */
  lemma {:induction false} ConnectInTurn(max: nat, n: nat) returns (s: State, steps: seq<Step>)
    requires n <= max
    ensures Path(max, s, steps) && s.pending == {} && |s.hub.active| == n && s.hub.max == max && s.peak <= 1
    ensures forall ws :: ws in s.seen ==> ws < n
  {
    if n == 0 {
      s, steps := Init(max), [];
    } else {
      s, steps := ConnectInTurn(max, n - 1);
      s, steps := PathOn(max, s, steps, Connect(n - 1));
      s, steps := PathOn(max, s, steps, AcceptReturns(n - 1, true));
    }
  }

  /** `k` handshakes started while one place is left. */
  lemma {:induction false} CrowdIn(max: nat, k: nat) returns (s: State, steps: seq<Step>)
    requires 1 <= max
    ensures Path(max, s, steps) && |s.hub.active| == max - 1 && s.hub.max == max && s.peak <= if k == 0 then 1 else k
    ensures s.pending == Crowd(max, k)
    ensures forall ws :: ws in s.seen ==> ws < max + k
  {
    if k == 0 {
      s, steps := ConnectInTurn(max, max - 1);
    } else {
      s, steps := CrowdIn(max, k - 1);
      JoinCrowd(s, max, k);
      s, steps := PathOn(max, s, steps, Connect(max + k - 1));
    }
  }

  lemma JoinCrowd(s: State, max: nat, k: nat)
    requires 1 <= k && |s.hub.active| == max - 1 && s.hub.max == max && s.pending == Crowd(max, k - 1)
    requires s.peak <= (if k == 1 then 1 else k - 1) && forall ws :: ws in s.seen ==> ws < max + k - 1
    ensures Enabled(s, Connect(max + k - 1))
    ensures var t := Apply(s, Connect(max + k - 1));
      t.hub == s.hub && t.pending == Crowd(max, k) && t.peak <= k && t.seen == s.seen + {max + k - 1}
  {
  }

  /** The sockets `from`, ..., `from + k - 1`. */
  function Crowd(from: nat, k: nat): (r: set<nat>)
    ensures |r| == k && forall i :: i in r <==> from <= i < from + k
  {
    if k == 0 then {} else Crowd(from, k - 1) + {from + k - 1}
  }

  lemma {:induction false} AcceptAll(max: nat, s: State, steps: seq<Step>, from: nat, k: nat) returns (t: State, more: seq<Step>)
    requires Path(max, s, steps) && s.pending == Crowd(from, k)
    ensures Path(max, t, more) && |t.hub.active| == |s.hub.active| + k && t.peak == s.peak
    decreases k
  {
    t, more := s, steps;
    if k > 0 {
      t, more := PathOn(max, s, steps, AcceptReturns(from + k - 1, true));
      t, more := AcceptAll(max, t, more, from, k - 1);
    }
  }

  /** The limit check and the append are separated by an await, and `k` handshakes can all slip through it. */
  lemma BoundIsReached(max: nat, k: nat)
    requires 1 <= max && 1 <= k
    ensures exists s :: Reachable(max, s) && s.peak <= k && |s.hub.active| == max + k - 1
  {
    var s, steps := CrowdIn(max, k);
    s, steps := AcceptAll(max, s, steps, max, k);
    assert Reachable(max, s);
  }

  // ---- the coroutines -------------------------------------------------------------------------------------------------

  lemma StepReaches(s: State, step: Step)
    requires Reachable(s.hub.max, s) && Enabled(s, step)
    ensures Reachable(s.hub.max, Apply(s, step)) && Apply(s, step).hub.max == s.hub.max
  {
    var steps :| Path(s.hub.max, s, steps);
    var t, more := PathOn(s.hub.max, s, steps, step);
    PathKeeps(s.hub.max, t, more);
  }

  /** Whose steps a coroutine takes itself: those of a handshake, an open socket, a broadcast or a heartbeat task. */
  datatype Part = Handshake(ws: nat) | Listening(ws: nat) | Broadcasting(id: nat) | Heartbeat(task: nat) | Beating(task: nat, id: nat)

  predicate ByOthers(step: Step, part: Part) {
    match part
    case Handshake(ws) => !(step.AcceptReturns? && step.ws == ws)
    case Listening(ws) => !(step.ClientLeaves? && step.ws == ws)
    case Broadcasting(id) => !(step.SendReturns? && step.id == id)
    case Heartbeat(task) => !(step.TaskEnds? && step.task == task)
    case Beating(task, id) => !(step.TaskEnds? && step.task == task) && !(step.SendReturns? && step.id == id)
  }

  /** What the others' steps leave alone. */
  ghost predicate StillOurs(s: State, t: State, part: Part) {
    match part
    case Handshake(ws) => ws in s.pending ==> ws in t.pending
    case Listening(ws) => ws in s.seen && ws !in s.pending ==> ws in t.seen && ws !in t.pending
    case Broadcasting(id) => id in s.broadcasts ==> id in t.broadcasts && t.broadcasts[id] == s.broadcasts[id]
    case Heartbeat(task) => Unfinished(s.hub, task) ==> Unfinished(t.hub, task)
    case Beating(task, id) =>
      (Unfinished(s.hub, task) ==> Unfinished(t.hub, task)) &&
      (id in s.broadcasts ==> id in t.broadcasts && t.broadcasts[id] == s.broadcasts[id])
  }

  lemma OthersLeaveUs(s: State, step: Step, part: Part)
    requires Enabled(s, step) && ByOthers(step, part)
    ensures StillOurs(s, Apply(s, step), part)
  {
  }

  /** The others' steps that are possible when their turn comes. */
  function Played(s: State, part: Part, script: seq<Step>): State {
    if script == [] then s
    else
      var n := |script| - 1;
      var t := Played(s, part, script[..n]);
      if Enabled(t, script[n]) && ByOthers(script[n], part) then Apply(t, script[n]) else t
  }

  /** The end of one send of a broadcast, after whatever the others did meanwhile. */
  datatype Delivery = Delivery(others: seq<Step>, ws: nat, ok: bool)

  /** One round of the heartbeat: the sleep, and the broadcast if there is anyone to ping. */
  datatype Round = Round(asleep: seq<Step>, deliveries: seq<Delivery>)

  class ConnectionManager {
    const maxConnections: nat
    var activeConnections: seq<nat>
    var pingTask: Option<nat>
    var created: nat
    var done: set<nat>
    var pending: set<nat>
    var seen: set<nat>
    var broadcasts: map<nat, map<nat, Outcome>>
    var dropped: map<nat, Cause>
    var peak: nat

    function View(): State
      reads this
    {
      State(Hub(maxConnections, activeConnections, pingTask, created, done), pending, seen, broadcasts, dropped, peak)
    }

    ghost predicate Valid()
      reads this
    {
      Reachable(maxConnections, View())
    }

    constructor (max: nat)
      ensures View() == Init(max) && Valid()
    {
      maxConnections, activeConnections, pingTask, created, done := max, [], None, 0, {};
      pending, seen, broadcasts, dropped, peak := {}, {}, map[], map[], 0;
      new;
      assert Path(max, Init(max), []);
    }

    method MoveTo(t: State)
      requires t.hub.max == maxConnections
      modifies this
      ensures View() == t
    {
      activeConnections, pingTask, created, done := t.hub.active, t.hub.ping, t.hub.created, t.hub.done;
      pending, seen, broadcasts, dropped, peak := t.pending, t.seen, t.broadcasts, t.dropped, t.peak;
    }

    /** What the other coroutines, the clients and the heartbeats do during an await. */
    method Others(part: Part, script: seq<Step>)
      requires Valid()
      modifies this
      ensures Valid() && StillOurs(old(View()), View(), part)
      ensures View() == Played(old(View()), part, script)
    {
      for i := 0 to |script|
        invariant Valid() && StillOurs(old(View()), View(), part)
        invariant View() == Played(old(View()), part, script[..i])
      {
        assert script[..i + 1][..i] == script[..i];
        if Enabled(View(), script[i]) && ByOthers(script[i], part) {
          StepReaches(View(), script[i]);
          OthersLeaveUs(View(), script[i], part);
          MoveTo(Apply(View(), script[i]));
        }
      }
      assert script[..|script|] == script;
    }

    /** connect up to its first await: the handshake goes on while the list has room. */
    method BeginConnect(ws: nat) returns (goesOn: bool)
      requires ws !in seen
      modifies this`seen, this`pending, this`peak
      ensures View() == Apply(old(View()), Step.Connect(ws)) && (goesOn <==> ws in pending)
      ensures ws !in old(pending) ==> (goesOn <==> |activeConnections| < maxConnections)
    {
      seen := seen + {ws};
      if |activeConnections| >= maxConnections { return ws in pending; }
      if |pending| + 1 > peak { peak := |pending| + 1; }
      pending := pending + {ws};
      return true;
    }

    /** connect after accept() returned or raised. */
    method FinishConnect(ws: nat, succeeds: bool)
      requires ws in pending
      modifies this`activeConnections, this`pingTask, this`created, this`pending
      ensures View() == Apply(old(View()), AcceptReturns(ws, succeeds))
      ensures activeConnections == if succeeds then old(activeConnections) + [ws] else old(activeConnections)
    {
      pending := pending - {ws};
      if succeeds {
        activeConnections := activeConnections + [ws];
        if pingTask.None? || pingTask.value in done {
          pingTask := Some(created);
          created := created + 1;
        }
      }
    }

    /**
     A socket is let in exactly when the list has room at the check and its handshake succeeds; meanwhile the others may
     have filled the list.  It is then listed, and a heartbeat is running.
     */
    method Connect(ws: nat, script: seq<Step>, succeeds: bool) returns (connected: bool)
      requires Valid() && ws !in seen
      modifies this
      ensures Valid()
      ensures connected <==> old(|activeConnections|) < maxConnections && succeeds
      ensures connected ==> ws in activeConnections && pingTask.Some? && Unfinished(View().hub, pingTask.value)
      ensures !connected ==> ws !in activeConnections
      ensures old(|activeConnections|) >= maxConnections ==> activeConnections == old(activeConnections)
    {
      NotYetPending(View(), ws);
      StepReaches(View(), Step.Connect(ws));
      var goesOn := BeginConnect(ws);
      if !goesOn { return false; }
      connected := Await(ws, script, succeeds);
    }

    /** The handshake: accept() is awaited. */
    method Await(ws: nat, script: seq<Step>, succeeds: bool) returns (connected: bool)
      requires Valid() && ws in pending
      modifies this
      ensures Valid() && connected == succeeds
      ensures connected ==> ws in activeConnections && pingTask.Some? && Unfinished(View().hub, pingTask.value)
      ensures !connected ==> ws !in activeConnections
    {
      Others(Handshake(ws), script);
      StepReaches(View(), AcceptReturns(ws, succeeds));
      HeartbeatRuns(View(), ws);
      PendingIsUnlisted(View(), ws);
      FinishConnect(ws, succeeds);
      return succeeds;
    }

    /** Removes the first occurrence, if there is one. */
    method Remove(ws: nat)
      modifies this`activeConnections
      ensures View().hub == Drop(old(View()).hub, ws)
      ensures View() == old(View()).(hub := View().hub)
    {
      var i := 0;
      while i < |activeConnections| && activeConnections[i] != ws
        invariant 0 <= i <= |activeConnections|
        invariant forall j :: 0 <= j < i ==> activeConnections[j] != ws
      {
        i := i + 1;
      }
      WithoutFirst(activeConnections, ws, i);
      if i < |activeConnections| {
        activeConnections := activeConnections[..i] + activeConnections[i + 1..];
      }
    }

    method DisconnectFor(ws: nat, cause: Cause)
      modifies this`activeConnections, this`dropped
      ensures View() == Disconnect(old(View()), ws, cause)
    {
      if ws in activeConnections { dropped := dropped[ws := cause]; }
      Remove(ws);
    }

    /** disconnect, called by the endpoint when its client has gone. */
    method ClientGone(ws: nat)
      requires Valid() && Enabled(View(), ClientLeaves(ws))
      modifies this`activeConnections, this`dropped
      ensures Valid() && View() == Apply(old(View()), ClientLeaves(ws)) && ws !in activeConnections
    {
      StepReaches(View(), ClientLeaves(ws));
      LeavesList(View(), ws);
      DisconnectFor(ws, ByClient);
    }

    /**
     The endpoint for one socket: connect, wait for messages, disconnect when the client has `gone`.  Meanwhile a failed
     send may have taken the socket off the list; afterwards it is off in any case.
     */
    method Endpoint(ws: nat, script: seq<Step>, succeeds: bool, listening: seq<Step>, gone: bool) returns (connected: bool)
      requires Valid() && ws !in seen
      modifies this
      ensures Valid()
      ensures connected <==> old(|activeConnections|) < maxConnections && succeeds
      ensures connected && gone ==> ws !in activeConnections
    {
      connected := Connect(ws, script, succeeds);
      if connected {
        ListedIsOpen(View(), ws);
        Others(Listening(ws), listening);
        if gone { ClientGone(ws); }
      }
    }

    /** The end of one send: a failed one drops its socket. */
    method SendReturned(id: nat, ws: nat, ok: bool)
      requires Enabled(View(), SendReturns(id, ws, ok))
      modifies this`activeConnections, this`dropped, this`broadcasts
      ensures View() == Apply(old(View()), SendReturns(id, ws, ok))
      ensures ok ==> activeConnections == old(activeConnections)
      ensures !ok && Distinct(old(activeConnections)) ==> ws !in activeConnections
    {
      if Distinct(activeConnections) { WithoutMeaning(activeConnections, ws); }
      if !ok { DisconnectFor(ws, ByBroadcast(id)); }
      var sends: map<nat, Outcome> := broadcasts[id];
      var after: map<nat, Outcome> := sends[ws := if ok then Sent else Dropped];
      broadcasts := broadcasts[id := after];
    }

    /** broadcast up to its await: a send for everyone on the list. */
    method StartSending(id: nat)
      requires id !in broadcasts
      modifies this`broadcasts
      ensures View() == Apply(old(View()), StartBroadcast(id))
      ensures broadcasts == old(broadcasts)[id := broadcasts[id]]
    {
      var snapshot := activeConnections;
      var sends: map<nat, Outcome> := map ws: nat | ws in snapshot :: Sending;
      broadcasts := broadcasts[id := sends];
    }

    /** Some send of broadcast `id` ends, after whatever the others did. */
    method Deliver(part: Part, id: nat, d: Delivery)
      requires Valid() && id in broadcasts && Sends(part, id) && Beats(part)
      modifies this
      ensures Valid() && Beats(part)
      ensures id in broadcasts && Resolved(old(broadcasts[id]), broadcasts[id], d)
    {
      Others(part, d.others);
      if d.ws in broadcasts[id] && broadcasts[id][d.ws] == Sending {
        StepReaches(View(), SendReturns(id, d.ws, d.ok));
        SendReturned(id, d.ws, d.ok);
      }
    }

    /** The send to `d.ws`, if it was still under way, has ended as `d` says; no other has. */
    static predicate Resolved(before: map<nat, Outcome>, after: map<nat, Outcome>, d: Delivery) {
      after == if d.ws in before && before[d.ws] == Sending then before[d.ws := if d.ok then Sent else Dropped] else before
    }

    predicate Sends(part: Part, id: nat) { part == Broadcasting(id) || (part.Beating? && part.id == id) }

    /** The heartbeat on whose behalf a broadcast is sent has not finished. */
    predicate Beats(part: Part)
      reads this
    {
      part.Beating? ==> Unfinished(View().hub, part.task)
    }

    /**
     Sends to everyone on the list at the start, in whatever order the sends end; `finished` when all have, as they do when
     the script has an end for each.  Then each of these sockets has been sent the message or is off the list.
     */
    method Broadcast(part: Part, id: nat, deliveries: seq<Delivery>) returns (finished: bool)
      requires Valid() && id !in broadcasts && Sends(part, id) && Beats(part)
      modifies this
      ensures Valid() && Beats(part)
      ensures id in broadcasts && forall ws :: ws in broadcasts[id] <==> ws in old(activeConnections)
      ensures finished ==> forall ws :: ws in old(activeConnections) ==>
                broadcasts[id][ws] == Sent || (broadcasts[id][ws] == Dropped && ws !in activeConnections)
      ensures (forall ws :: ws in old(activeConnections) ==> Ends(deliveries, ws)) ==> finished
      ensures forall ws :: ws in broadcasts[id] && broadcasts[id][ws] == Sent && ws in dropped ==> dropped[ws] != ByBroadcast(id)
    {
      StepReaches(View(), StartBroadcast(id));
      StartSending(id);
      for i := 0 to |deliveries|
        invariant Valid() && Beats(part)
        invariant id in broadcasts && forall ws :: ws in broadcasts[id] <==> ws in old(activeConnections)
        invariant EndedUpTo(broadcasts[id], deliveries, i)
      {
        ghost var sends := broadcasts[id];
        Deliver(part, id, deliveries[i]);
        OneMoreEnded(sends, broadcasts[id], deliveries, i);
      }
      finished := forall ws :: ws in broadcasts[id] ==> broadcasts[id][ws] != Sending;
      AllEnded(broadcasts[id], deliveries);
      BroadcastEnds(View(), id);
    }

    /** The first `n` deliveries have ended their sends. */
    static ghost predicate EndedUpTo(sends: map<nat, Outcome>, deliveries: seq<Delivery>, n: nat)
      requires n <= |deliveries|
    {
      forall j :: 0 <= j < n && deliveries[j].ws in sends ==> sends[deliveries[j].ws] != Sending
    }

    static lemma OneMoreEnded(before: map<nat, Outcome>, after: map<nat, Outcome>, deliveries: seq<Delivery>, n: nat)
      requires n < |deliveries| && EndedUpTo(before, deliveries, n) && Resolved(before, after, deliveries[n])
      ensures EndedUpTo(after, deliveries, n + 1)
    {
    }

    static lemma AllEnded(sends: map<nat, Outcome>, deliveries: seq<Delivery>)
      requires EndedUpTo(sends, deliveries, |deliveries|)
      ensures (forall ws :: ws in sends ==> Ends(deliveries, ws)) ==> forall ws :: ws in sends ==> sends[ws] != Sending
    {
    }

    static predicate Ends(deliveries: seq<Delivery>, ws: nat) {
      exists i :: 0 <= i < |deliveries| && deliveries[i].ws == ws
    }

    /** After the sleep everyone listed by then is pinged; an empty list is not. */
    method Ping(task: nat, round: Round) returns (ghost listed: seq<nat>, pinged: Option<nat>, finished: bool)
      requires Valid() && Unfinished(View().hub, task)
      modifies this
      ensures Valid() && Unfinished(View().hub, task)
      ensures listed == Played(old(View()), Heartbeat(task), round.asleep).hub.active
      ensures pinged == None <==> listed == []
      ensures pinged.Some? ==>
        pinged.value in broadcasts && forall ws :: ws in broadcasts[pinged.value] <==> ws in listed
      ensures pinged.Some? && finished ==> forall ws :: ws in listed ==>
                broadcasts[pinged.value][ws] == Sent || ws !in activeConnections
      ensures pinged.Some? && (forall ws :: ws in listed ==> Ends(round.deliveries, ws)) ==> finished
    {
      Others(Heartbeat(task), round.asleep);
      listed := activeConnections;
      pinged, finished := None, false;
      if activeConnections != [] {
        var id := FreshId(broadcasts.Keys);
        finished := Broadcast(Beating(task, id), id, round.deliveries);
        pinged := Some(id);
      }
    }

    /** The heartbeat runs until it is cancelled; each round that finds somebody listed is a broadcast. */
    method PingLoop(task: nat, rounds: seq<Round>) returns (ghost listed: seq<seq<nat>>, pings: seq<Option<nat>>)
      requires Valid() && Unfinished(View().hub, task)
      modifies this
      ensures Valid() && task in done
      ensures |listed| == |pings| == |rounds| && forall i :: 0 <= i < |rounds| ==> (pings[i] == None <==> listed[i] == [])
    {
      listed, pings := [], [];
      for i := 0 to |rounds|
        invariant Valid() && Unfinished(View().hub, task)
        invariant |listed| == |pings| == i && forall j :: 0 <= j < i ==> (pings[j] == None <==> listed[j] == [])
      {
        var here, pinged, finished := Ping(task, rounds[i]);
        listed, pings := listed + [here], pings + [pinged];
      }
      StepReaches(View(), TaskEnds(task));
      done := done + {task};
    }
  }

  lemma {:induction false} UnusedId(used: set<nat>) returns (id: nat)
    ensures forall x :: x in used ==> x < id
    decreases used
  {
    id := 0;
    if used != {} {
      var x :| x in used;
      var y := UnusedId(used - {x});
      id := if x < y then y else x + 1;
      assert forall z :: z in used ==> z == x || z in used - {x};
    }
  }

  method FreshId(used: set<nat>) returns (id: nat)
    ensures id !in used
  {
    ghost var bound := UnusedId(used);
    id := 0;
    while id in used
      invariant id <= bound
      decreases bound - id
    {
      id := id + 1;
    }
  }

  lemma PendingIsUnlisted(s: State, ws: nat)
    requires Reachable(s.hub.max, s) && ws in s.pending
    ensures ws !in s.hub.active
  {
    var steps :| Path(s.hub.max, s, steps);
    PathKeeps(s.hub.max, s, steps);
  }

  lemma ListedIsOpen(s: State, ws: nat)
    requires Reachable(s.hub.max, s) && ws in s.hub.active
    ensures Enabled(s, ClientLeaves(ws))
  {
    var steps :| Path(s.hub.max, s, steps);
    PathKeeps(s.hub.max, s, steps);
  }

  lemma LeavesList(s: State, ws: nat)
    requires Reachable(s.hub.max, s)
    ensures ws !in Disconnect(s, ws, ByClient).hub.active
  {
    var steps :| Path(s.hub.max, s, steps);
    PathKeeps(s.hub.max, s, steps);
    DisconnectKeeps(s, ws, ByClient);
  }

  lemma NotYetPending(s: State, ws: nat)
    requires Reachable(s.hub.max, s) && ws !in s.seen
    ensures ws !in s.pending && ws !in s.hub.active
  {
    var steps :| Path(s.hub.max, s, steps);
    PathKeeps(s.hub.max, s, steps);
  }

  /** The heartbeat a connection finds or starts has not finished. */
  lemma HeartbeatRuns(s: State, ws: nat)
    requires Reachable(s.hub.max, s) && ws in s.pending
    ensures var hub := Apply(s, AcceptReturns(ws, true)).hub;
      ws in hub.active && hub.ping.Some? && Unfinished(hub, hub.ping.value)
  {
    var steps :| Path(s.hub.max, s, steps);
    PathKeeps(s.hub.max, s, steps);
  }

  /** What a broadcast has done to its sockets so far. */
  lemma BroadcastEnds(s: State, id: nat)
    requires Reachable(s.hub.max, s) && id in s.broadcasts
    ensures forall ws :: ws in s.broadcasts[id] ==>
      (s.broadcasts[id][ws] == Dropped ==> ws !in s.hub.active) &&
      (s.broadcasts[id][ws] == Sent && ws in s.dropped ==> s.dropped[ws] != ByBroadcast(id))
  {
    var steps :| Path(s.hub.max, s, steps);
    PathKeeps(s.hub.max, s, steps);
  }
}

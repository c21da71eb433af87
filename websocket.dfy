/** The WebSocket subscription registry: which connections follow which
    task, kept as a map from task id to a set of connections, with replies
    and progress messages recorded in each connection's outbox. */
module WebSocketRegistry {

  datatype ReadyState = Connecting | Open | Closing | Closed

  /** A message the server sends. A progress message carries its `type`,
      the task and the rest of its payload. */
  datatype Outgoing =
    | Subscribed(taskId: string)
    | Unsubscribed(taskId: string)
    | Pong
    | Error(message: string)
    | Progress(kind: string, taskId: string, body: string)

  /** One connection: the task it last subscribed to (`ws.taskId`), its
      state, and what has been sent to it. */
  class Client {
    var taskId: Option<string>
    var readyState: ReadyState
    var outbox: seq<Outgoing>

    constructor (readyState: ReadyState)
      ensures taskId.None? && this.readyState == readyState && outbox == []
    {
      taskId := None;
      this.readyState := readyState;
      outbox := [];
    }
  }

  datatype Option<T> = None | Some(value: T)

  type Registry = map<string, set<Client>>

  /** No task id maps to an empty set. */
  predicate NoEmptySets(m: Registry) {
    forall t :: t in m ==> m[t] != {}
  }

  /** The registry after `subscribeToTask(ws, t)`. */
  function AddSubscriber(m: Registry, t: string, ws: Client): (r: Registry)
    ensures t in r && r[t] == (if t in m then m[t] else {}) + {ws}
    ensures r.Keys == m.Keys + {t}
    ensures forall u :: u in m && u != t ==> r[u] == m[u]
  {
    m[t := (if t in m then m[t] else {}) + {ws}]
  }

  /** The registry after `ws` leaves `t`'s set, the key going when the set empties. */
  function DropSubscriber(m: Registry, t: string, ws: Client): (r: Registry)
    ensures t !in r || ws !in r[t]
    ensures t in r ==> t in m && r[t] == m[t] - {ws}
    ensures forall u :: u != t ==> (u in r <==> u in m) && (u in r ==> r[u] == m[u])
  {
    if t !in m then m
    else if m[t] - {ws} == {} then m - {t}
    else m[t := m[t] - {ws}]
  }

  /** Subscribing twice is subscribing once. */
  lemma AddSubscriberIdempotent(m: Registry, t: string, ws: Client)
    ensures AddSubscriber(AddSubscriber(m, t, ws), t, ws) == AddSubscriber(m, t, ws)
  {
    var once := AddSubscriber(m, t, ws);
    assert once[t] + {ws} == once[t];
  }

  /** Neither update ever leaves an empty set behind. */
  lemma UpdatesKeepSetsNonEmpty(m: Registry, t: string, ws: Client)
    requires NoEmptySets(m)
    ensures NoEmptySets(AddSubscriber(m, t, ws))
    ensures NoEmptySets(DropSubscriber(m, t, ws))
  {
    var r := DropSubscriber(m, t, ws);
    forall u | u in r
      ensures r[u] != {}
    {
      if u == t {
        assert r[t] == m[t] - {ws} && (m[t] - {ws} != {});
      }
    }
  }

  /** Dropping a subscriber that was there lowers that task's count by one and
      leaves every other count alone. */
  lemma DropLowersCountByOne(m: Registry, t: string, ws: Client)
    requires t in m && ws in m[t]
    ensures CountIn(DropSubscriber(m, t, ws), t) == CountIn(m, t) - 1
    ensures forall u :: u != t ==> CountIn(DropSubscriber(m, t, ws), u) == CountIn(m, u)
  {
    var r := DropSubscriber(m, t, ws);
    if t in r {
      assert |m[t] - {ws}| == |m[t]| - 1;
    } else {
      assert m[t] - {ws} == {};
      assert m[t] == {ws};
    }
  }

  /** `getTaskConnectionCount`. */
  function CountIn(m: Registry, t: string): (n: nat)
    ensures NoEmptySets(m) ==> (n > 0 <==> t in m)
  {
    if t in m then |m[t]| else 0
  }

  /** The sum of the set sizes over some of the keys. */
  ghost function SizeSum(m: Registry, keys: set<string>): nat
    requires keys <= m.Keys
    decreases keys
  {
    if keys == {} then 0
    else
      var k :| k in keys;
      |m[k]| + SizeSum(m, keys - {k})
  }

  /** The sum does not depend on which key is taken first. */
  lemma {:induction false} SizeSumAny(m: Registry, keys: set<string>, k: string)
    requires keys <= m.Keys && k in keys
    ensures SizeSum(m, keys) == |m[k]| + SizeSum(m, keys - {k})
    decreases keys
  {
    var j :| j in keys && SizeSum(m, keys) == |m[j]| + SizeSum(m, keys - {j});
    if j != k {
      SizeSumAny(m, keys - {j}, k);
      SizeSumAny(m, keys - {k}, j);
      assert keys - {j} - {k} == keys - {k} - {j};
    }
  }

  /** Each task's count is part of the total. */
  lemma {:induction false} CountWithinTotal(m: Registry, keys: set<string>, t: string)
    requires keys <= m.Keys && t in keys
    ensures CountIn(m, t) <= SizeSum(m, keys)
  {
    SizeSumAny(m, keys, t);
  }

  /** The message `broadcastAutomationProgress` sends: the payload is spread
      after `type`, so a payload with its own `type` replaces it. */
  function ProgressMessage(taskId: string, payloadType: Option<string>, body: string): (msg: Outgoing)
    ensures msg.Progress? && msg.taskId == taskId
    ensures payloadType.None? ==> msg.kind == "automation_progress"
    ensures payloadType.Some? ==> msg.kind == payloadType.value
  {
    Progress(if payloadType.Some? then payloadType.value else "automation_progress", taskId, body)
  }

  /** An incoming message: its `type` and its `taskId` ("" when absent). */
  datatype Incoming = Incoming(kind: string, taskId: string)

  /** The service: the task map, updated in place. */
  class WebSocketService {
    var clients: Registry

    constructor ()
      ensures clients == map[]
    {
      clients := map[];
    }

    /** `subscribeToTask`. */
    method SubscribeToTask(ws: Client, taskId: string)
      modifies this, ws
      ensures clients == AddSubscriber(old(clients), taskId, ws)
      ensures ws.taskId == Some(taskId) && ws.outbox == old(ws.outbox) + [Subscribed(taskId)]
      ensures ws.readyState == old(ws.readyState)
      ensures old(NoEmptySets(clients)) ==> NoEmptySets(clients)
    {
      if taskId !in clients {
        clients := clients[taskId := {}];
      }
      clients := clients[taskId := clients[taskId] + {ws}];
      ws.taskId := Some(taskId);
      ws.outbox := ws.outbox + [Subscribed(taskId)];
      if old(NoEmptySets(clients)) {
        UpdatesKeepSetsNonEmpty(old(clients), taskId, ws);
      }
    }

    /** `unsubscribeFromTask`: `ws.taskId` is cleared whichever task it named. */
    method UnsubscribeFromTask(ws: Client, taskId: string)
      modifies this, ws
      ensures clients == DropSubscriber(old(clients), taskId, ws)
      ensures ws.taskId.None? && ws.outbox == old(ws.outbox) + [Unsubscribed(taskId)]
      ensures ws.readyState == old(ws.readyState)
      ensures old(NoEmptySets(clients)) ==> NoEmptySets(clients)
    {
      var registry := clients;
      if taskId in registry {
        registry := registry[taskId := registry[taskId] - {ws}];
        if registry[taskId] == {} {
          registry := registry - {taskId};
        }
      }
      assert registry == DropSubscriber(clients, taskId, ws);
      if NoEmptySets(clients) {
        UpdatesKeepSetsNonEmpty(clients, taskId, ws);
      }
      clients := registry;
      ws.taskId := None;
      ws.outbox := ws.outbox + [Unsubscribed(taskId)];
    }

    /** `removeClient`: only the task `ws.taskId` names is touched. */
    method RemoveClient(ws: Client)
      modifies this
      ensures ws.taskId.Some? && ws.taskId.value != "" ==> clients == DropSubscriber(old(clients), ws.taskId.value, ws)
      ensures !(ws.taskId.Some? && ws.taskId.value != "") ==> clients == old(clients)
      ensures old(NoEmptySets(clients)) ==> NoEmptySets(clients)
    {
      if ws.taskId.Some? && ws.taskId.value != "" && ws.taskId.value in clients {
        var t := ws.taskId.value;
        clients := clients[t := clients[t] - {ws}];
        if clients[t] == {} {
          clients := clients - {t};
        }
        if old(NoEmptySets(clients)) {
          UpdatesKeepSetsNonEmpty(old(clients), t, ws);
        }
      }
    }

    /** `handleMessage`: subscribe and unsubscribe need a task id; ping is
        answered; anything else gets an error. */
    method HandleMessage(ws: Client, data: Incoming)
      modifies this, ws
      ensures data.kind == "subscribe" && data.taskId != "" ==>
        && clients == AddSubscriber(old(clients), data.taskId, ws)
        && ws.taskId == Some(data.taskId) && ws.outbox == old(ws.outbox) + [Subscribed(data.taskId)]
      ensures data.kind == "unsubscribe" && data.taskId != "" ==>
        && clients == DropSubscriber(old(clients), data.taskId, ws)
        && ws.taskId.None? && ws.outbox == old(ws.outbox) + [Unsubscribed(data.taskId)]
      ensures !(data.kind in {"subscribe", "unsubscribe"} && data.taskId != "") ==>
        clients == old(clients) && ws.taskId == old(ws.taskId)
      ensures data.kind == "ping" ==> ws.outbox == old(ws.outbox) + [Pong]
      ensures data.kind !in {"subscribe", "unsubscribe", "ping"} ==> ws.outbox == old(ws.outbox) + [Error("Unknown message type")]
      ensures data.kind in {"subscribe", "unsubscribe"} && data.taskId == "" ==> ws.outbox == old(ws.outbox)
      ensures ws.readyState == old(ws.readyState)
    {
      if data.kind == "subscribe" {
        if data.taskId != "" {
          SubscribeToTask(ws, data.taskId);
        }
      } else if data.kind == "unsubscribe" {
        if data.taskId != "" {
          UnsubscribeFromTask(ws, data.taskId);
        }
      } else if data.kind == "ping" {
        ws.outbox := ws.outbox + [Pong];
      } else {
        ws.outbox := ws.outbox + [Error("Unknown message type")];
      }
    }

    /** `broadcastAutomationProgress`: each open subscriber is sent the
        message; one whose send throws (a member of `failing`) is dropped
        from the set, and an emptied set is left in place. */
    method BroadcastAutomationProgress(taskId: string, payloadType: Option<string>, body: string, failing: set<Client>)
      modifies this, if taskId in clients then clients[taskId] else {}
      ensures taskId !in old(clients) ==> clients == old(clients)
      ensures taskId in old(clients) ==>
        clients == old(clients)[taskId := set c: Client | c in old(clients[taskId]) && !(old(c.readyState) == Open && c in failing)]
      ensures taskId in old(clients) ==> forall c :: c in old(clients[taskId]) ==>
        && c.readyState == old(c.readyState) && c.taskId == old(c.taskId)
        && c.outbox == if old(c.readyState) == Open && c !in failing then old(c.outbox) + [ProgressMessage(taskId, payloadType, body)]
                       else old(c.outbox)
    {
      if taskId in clients {
        var message := ProgressMessage(taskId, payloadType, body);
        var members: set<Client> := clients[taskId];
        var remaining: set<Client> := members;
        var kept: set<Client> := members;
        while remaining != {}
          invariant remaining <= members
          invariant clients == old(clients)[taskId := kept]
          invariant kept == set c | c in members && !(c !in remaining && c.readyState == Open && c in failing)
          invariant forall c :: c in members ==> c.readyState == old(c.readyState) && c.taskId == old(c.taskId)
          invariant forall c :: c in members && c !in remaining ==>
            c.outbox == if c.readyState == Open && c !in failing then old(c.outbox) + [message] else old(c.outbox)
          invariant forall c :: c in remaining ==> c.outbox == old(c.outbox)
          decreases remaining
        {
          var client :| client in remaining;
          if client.readyState == Open {
            if client in failing {
              kept := kept - {client};
              clients := clients[taskId := kept];
            } else {
              client.outbox := client.outbox + [message];
            }
          }
          remaining := remaining - {client};
        }
        assert kept == set c: Client | c in old(clients[taskId]) && !(old(c.readyState) == Open && c in failing);
      }
    }

    function TaskConnectionCount(taskId: string): (n: nat)
      reads this
      ensures n == CountIn(clients, taskId)
      ensures NoEmptySets(clients) ==> (n > 0 <==> taskId in clients)
    {
      CountIn(clients, taskId)
    }

    /** `getActiveTasks`, as a set. */
    function ActiveTasks(): (tasks: set<string>)
      reads this
      ensures NoEmptySets(clients) ==> forall t :: t in tasks <==> CountIn(clients, t) > 0
    {
      clients.Keys
    }

    /** `getTotalConnections`: the set sizes summed over every task. */
    method TotalConnections() returns (total: nat)
      ensures total == SizeSum(clients, clients.Keys)
    {
      total := 0;
      var remaining := clients.Keys;
      while remaining != {}
        invariant remaining <= clients.Keys
        invariant total + SizeSum(clients, remaining) == SizeSum(clients, clients.Keys)
        decreases remaining
      {
        var t :| t in remaining;
        SizeSumAny(clients, remaining, t);
        total := total + |clients[t]|;
        remaining := remaining - {t};
      }
    }
  }

  /** A connection that subscribes to a second task stays in the first
      task's set; closing it then cleans up only the second. */
  method StaleSubscriptionSurvivesClose(service: WebSocketService, ws: Client, first: string, second: string)
    requires first != second && second != ""
    modifies service, ws
    ensures first in service.clients && ws in service.clients[first]
    ensures second !in service.clients || ws !in service.clients[second]
  {
    service.SubscribeToTask(ws, first);
    service.SubscribeToTask(ws, second);
    service.RemoveClient(ws);
  }
}

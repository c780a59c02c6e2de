/**
  The simulated data platform: a streaming service that keeps per-topic message lists and
  per-topic subscriber lists, a warehouse whose status follows each query and bulk insert,
  and the platform object that keeps a capped event log and mirrors every event onto the
  `system_metrics` stream.
*/
module MockCdp {
  import opened Wrappers
  import opened JsonData

  datatype ComponentStatus = Idle | Active | Processing | Error {
    /** The `.value` of the enum member. */
    function Value(): string {
      match this
      case Idle => "idle"
      case Active => "active"
      case Processing => "processing"
      case Error => "error"
    }
  }

  /** A subscriber callback, seen only through its identity. */
  type SubscriberId = nat

  /** `message_with_metadata`: the stored form of a published message. */
  datatype Message = Message(timestamp: string, topic: string, data: Json)

  /** One invocation of a subscriber callback with a message. */
  datatype Delivery = Delivery(subscriber: SubscriberId, message: Message)

  /** `subscribers.get(topic, [])`. */
  function SubscribersOf(subscribers: map<string, seq<SubscriberId>>, topic: string): seq<SubscriberId> {
    if topic in subscribers then subscribers[topic] else []
  }

  /** The invocations made when `m` is handed to each of `subs` in turn. */
  function Deliveries(subs: seq<SubscriberId>, m: Message): (r: seq<Delivery>)
    ensures |r| == |subs|
    ensures forall i :: 0 <= i < |subs| ==> r[i] == Delivery(subs[i], m)
  {
    if subs == [] then [] else [Delivery(subs[0], m)] + Deliveries(subs[1..], m)
  }

  /** Every stored message names the topic it is stored under. */
  ghost predicate Tagged(topics: map<string, seq<Message>>) {
    forall t, k :: t in topics && 0 <= k < |topics[t]| ==> topics[t][k].topic == t
  }

  lemma TaggedAppend(topics: map<string, seq<Message>>, m: Message)
    requires Tagged(topics) && m.topic in topics
    ensures Tagged(topics[m.topic := topics[m.topic] + [m]])
  {
    var after: map<string, seq<Message>> := topics[m.topic := topics[m.topic] + [m]];
    forall t: string, k: int | t in after && 0 <= k < |after[t]|
      ensures after[t][k].topic == t
    {
      if t == m.topic && k < |topics[t]| {
        assert after[t][k] == topics[t][k];
      }
    }
  }

  /** `MockDataFlow`: Kafka-like topics held in memory. */
  class DataFlow {
    var status: ComponentStatus
    var topics: map<string, seq<Message>>
    var subscribers: map<string, seq<SubscriberId>>
    /** Every subscriber invocation so far, oldest first. */
    var delivered: seq<Delivery>

    /** Every topic has a subscriber list, and every stored message names its own topic. */
    ghost predicate Valid()
      reads this
    {
      && topics.Keys <= subscribers.Keys
      && Tagged(topics)
    }

    constructor ()
      ensures Valid()
      ensures status == Idle && topics == map[] && subscribers == map[] && delivered == []
    {
      status := Idle;
      topics := map[];
      subscribers := map[];
      delivered := [];
    }

    /** `create_topic`: both lists are reset to empty, even when the topic exists. */
    method CreateTopic(name: string)
      requires Valid()
      modifies this
      ensures Valid()
      ensures topics == old(topics)[name := []]
      ensures subscribers == old(subscribers)[name := []]
      ensures status == old(status) && delivered == old(delivered)
    {
      topics := topics[name := []];
      subscribers := subscribers[name := []];
    }

    /**
      `publish`: a topic not yet in `topics` is created first (which empties its subscriber
      list); the message is appended to its topic, then each subscriber of the topic is
      invoked once with it, in registration order.
    */
    method Publish(topic: string, data: Json, now: string)
      requires Valid()
      modifies this
      ensures Valid()
      ensures status == Idle
      ensures var m := Message(now, topic, data);
              var before := if topic in old(topics) then old(topics)[topic] else [];
              topics == old(topics)[topic := before + [m]]
      ensures subscribers == if topic in old(topics) then old(subscribers) else old(subscribers)[topic := []]
      ensures delivered == old(delivered) + Deliveries(SubscribersOf(subscribers, topic), Message(now, topic, data))
    {
      status := Active;
      if topic !in topics {
        CreateTopic(topic);
      }
      var m := Message(now, topic, data);
      TaggedAppend(topics, m);
      topics := topics[topic := topics[topic] + [m]];
      var calls := InvokeAll(SubscribersOf(subscribers, topic), m);
      delivered := delivered + calls;
      status := Idle;
    }

    /** `subscribe`: the callback joins the end of the topic's list, which is created if absent. */
    method Subscribe(topic: string, callback: SubscriberId)
      requires Valid()
      modifies this
      ensures Valid()
      ensures subscribers == old(subscribers)[topic := SubscribersOf(old(subscribers), topic) + [callback]]
      ensures topics == old(topics) && status == old(status) && delivered == old(delivered)
    {
      var current := SubscribersOf(subscribers, topic);
      subscribers := subscribers[topic := current + [callback]];
    }

    /** `get_recent_messages`: `[]` for an unknown topic, otherwise Python's `messages[-limit:]`. */
    function RecentMessages(topic: string, limit: int): (r: seq<Message>)
      reads this
      ensures topic !in topics ==> r == []
      ensures topic in topics && limit >= 1 ==>
                var all := topics[topic];
                r == all[|all| - Min(limit, |all|)..]
      ensures topic in topics && limit == 0 ==> r == topics[topic]
      ensures topic in topics && limit < 0 ==> r == topics[topic][Min(-limit, |topics[topic]|)..]
    {
      if topic !in topics then [] else PySliceFrom(topics[topic], -limit)
    }
  }

  /** The loop of `publish` that calls each subscriber of the topic with the message, in order. */
  method InvokeAll(subs: seq<SubscriberId>, m: Message) returns (calls: seq<Delivery>)
    ensures calls == Deliveries(subs, m)
  {
    calls := [];
    var i := 0;
    while i < |subs|
      invariant 0 <= i <= |subs|
      invariant calls == Deliveries(subs[..i], m)
    {
      assert subs[..i + 1] == subs[..i] + [subs[i]];
      DeliveriesAppend(subs[..i], subs[i], m);
      calls := calls + [Delivery(subs[i], m)];
      i := i + 1;
    }
    assert subs[..i] == subs;
  }

  lemma {:induction false} DeliveriesAppend(subs: seq<SubscriberId>, s: SubscriberId, m: Message)
    ensures Deliveries(subs + [s], m) == Deliveries(subs, m) + [Delivery(s, m)]
  {
    if subs != [] {
      assert (subs + [s])[1..] == subs[1..] + [s];
      DeliveriesAppend(subs[1..], s, m);
    }
  }

  /** A callback registered before its topic exists is dropped by the first publish. */
  method SubscribeBeforeCreateIsDropped(callback: SubscriberId, data: Json, now: string)
    returns (delivered: seq<Delivery>, stored: seq<Message>)
    ensures delivered == []
    ensures stored == [Message(now, "alerts", data)]
  {
    var flow := new DataFlow();
    flow.Subscribe("alerts", callback);
    flow.Publish("alerts", data, now);
    delivered := flow.delivered;
    stored := flow.topics["alerts"];
  }

  /** Once the topic exists, subscribers are invoked in the order they subscribed. */
  method SubscribersNotifiedInOrder(first: SubscriberId, second: SubscriberId, data: Json, now: string)
    returns (delivered: seq<Delivery>)
    ensures delivered == [Delivery(first, Message(now, "alerts", data)), Delivery(second, Message(now, "alerts", data))]
  {
    var flow := new DataFlow();
    flow.CreateTopic("alerts");
    flow.Subscribe("alerts", first);
    flow.Subscribe("alerts", second);
    flow.Publish("alerts", data, now);
    delivered := flow.delivered;
  }

  /** What a warehouse query does, as decided by the SQL engine: rows, or an exception. */
  datatype QueryOutcome = Rows(rows: seq<Record>) | Raises(detail: string)

  const WarehouseTables: set<string> := {"employees", "schedules", "demand_forecast", "retention_metrics"}

  /** `MockCDPDataWarehouse`: the SQL engine is an oracle; the rows bulk-inserted are kept per table. */
  class Warehouse {
    var status: ComponentStatus
    var tables: map<string, seq<Record>>

    /** `__init__` with `initialize_schema`: the four tables exist and are empty. */
    constructor ()
      ensures status == Idle
      ensures tables.Keys == WarehouseTables
      ensures forall t :: t in tables ==> tables[t] == []
    {
      status := Idle;
      tables := map t | t in WarehouseTables :: [];
    }

    /** `query`: PROCESSING while it runs, IDLE after a result, ERROR when the engine raises. */
    method Query(outcome: QueryOutcome) returns (r: Result<seq<Record>>)
      modifies this`status
      ensures outcome.Rows? ==> status == Idle && r == Ok(outcome.rows)
      ensures outcome.Raises? ==> status == Error && r == Err(OperationFailed(outcome.detail))
    {
      status := Processing;
      match outcome
      case Rows(rows) =>
        status := Idle;
        r := Ok(rows);
      case Raises(detail) =>
        status := Error;
        r := Err(OperationFailed(detail));
    }

    /**
      `insert_bulk`: empty data returns at once with status IDLE; otherwise the rows are
      appended and the status returns to IDLE, unless the engine raises (unknown table or
      rejected rows), which has no handler and so leaves the status PROCESSING.
    */
    method InsertBulk(table: string, data: seq<Record>, engineAccepts: bool) returns (r: Result<()>)
      modifies this
      ensures data == [] ==> status == Idle && tables == old(tables) && r == Ok(())
      ensures data != [] && table in old(tables) && engineAccepts ==>
                status == Idle && tables == old(tables)[table := old(tables)[table] + data] && r == Ok(())
      ensures data != [] && !(table in old(tables) && engineAccepts) ==>
                status == Processing && tables == old(tables) && r.Err?
    {
      status := Processing;
      if data == [] {
        status := Idle;
        return Ok(());
      }
      if table in tables && engineAccepts {
        tables := tables[table := tables[table] + data];
        status := Idle;
        r := Ok(());
      } else {
        r := Err(OperationFailed("insert into " + table + " failed"));
      }
    }
  }

  /** `MockCloudearML`; its training and prediction are not part of this model. */
  class MachineLearning {
    var status: ComponentStatus
    var isTrained: bool

    constructor ()
      ensures status == Idle && !isTrained
    {
      status := Idle;
      isTrained := false;
    }
  }

  datatype Event = Event(timestamp: string, component: string, eventType: string, details: Json) {
    function ToJson(): Json {
      JObject(map["timestamp" := JStr(timestamp), "component" := JStr(component),
                  "event_type" := JStr(eventType), "details" := details])
    }
  }

  const MaxEvents: nat := 1000

  const InitialTopics: seq<string> :=
    ["employee_updates", "schedule_changes", "demand_signals", "retention_alerts", "system_metrics"]

  /** `event_log[-cap:]` applied only when the log is longer than `cap`. */
  function KeepNewest(log: seq<Event>, cap: nat): (r: seq<Event>)
    ensures |r| == Min(|log|, cap)
    ensures r == log[|log| - |r|..]
  {
    if |log| > cap then log[|log| - cap..] else log
  }

  datatype PlatformStatus = PlatformStatus(
    dataWarehouse: string, mlPlatform: string, dataFlow: string,
    totalEvents: nat, uptime: string, lastUpdate: string)

  /** `MockCDPPlatform`. */
  class Platform {
    const warehouse: Warehouse
    const ml: MachineLearning
    const dataFlow: DataFlow
    var eventLog: seq<Event>

    ghost predicate Valid()
      reads this, dataFlow
    {
      dataFlow.Valid() && |eventLog| <= MaxEvents
    }

    constructor ()
      ensures Valid() && fresh(warehouse) && fresh(ml) && fresh(dataFlow)
      ensures eventLog == [] && dataFlow.topics == map[] && dataFlow.subscribers == map[]
      ensures warehouse.status == Idle && ml.status == Idle && dataFlow.status == Idle
      ensures !ml.isTrained && dataFlow.delivered == []
    {
      warehouse := new Warehouse();
      ml := new MachineLearning();
      dataFlow := new DataFlow();
      eventLog := [];
    }

    /** `_initialize_topics`: the five standard topics exist and are empty; others are untouched. */
    method InitializeTopics()
      requires Valid()
      modifies dataFlow
      ensures Valid()
      ensures forall t :: t in InitialTopics ==> t in dataFlow.topics && dataFlow.topics[t] == [] && dataFlow.subscribers[t] == []
      ensures forall t :: t !in InitialTopics ==> (t in dataFlow.topics <==> t in old(dataFlow.topics))
      ensures forall t :: t !in InitialTopics && t in dataFlow.topics ==> dataFlow.topics[t] == old(dataFlow.topics[t])
      ensures forall t :: t !in InitialTopics ==> SubscribersOf(dataFlow.subscribers, t) == SubscribersOf(old(dataFlow.subscribers), t)
      ensures dataFlow.status == old(dataFlow.status) && dataFlow.delivered == old(dataFlow.delivered)
    {
      var i := 0;
      while i < |InitialTopics|
        invariant 0 <= i <= |InitialTopics|
        invariant dataFlow.Valid()
        invariant forall k :: 0 <= k < i ==> InitialTopics[k] in dataFlow.topics && dataFlow.topics[InitialTopics[k]] == [] && dataFlow.subscribers[InitialTopics[k]] == []
        invariant forall t :: t !in InitialTopics ==> (t in dataFlow.topics <==> t in old(dataFlow.topics))
        invariant forall t :: t !in InitialTopics && t in dataFlow.topics ==> dataFlow.topics[t] == old(dataFlow.topics[t])
        invariant forall t :: t !in InitialTopics ==> SubscribersOf(dataFlow.subscribers, t) == SubscribersOf(old(dataFlow.subscribers), t)
        invariant dataFlow.status == old(dataFlow.status) && dataFlow.delivered == old(dataFlow.delivered)
      {
        dataFlow.CreateTopic(InitialTopics[i]);
        i := i + 1;
      }
    }

    /**
      `log_event`: the event is appended, mirrored onto the `system_metrics` topic (which is
      never trimmed), and the log is cut back to its newest 1000 entries. The event and the
      stored message each read the clock: `eventTime` and `publishTime`.
    */
    method LogEvent(component: string, eventType: string, details: Json, eventTime: string, publishTime: string)
      requires Valid()
      modifies this, dataFlow
      ensures Valid()
      ensures eventLog == KeepNewest(old(eventLog) + [Event(eventTime, component, eventType, details)], MaxEvents)
      ensures |eventLog| == Min(|old(eventLog)| + 1, MaxEvents)
      ensures eventLog[|eventLog| - 1] == Event(eventTime, component, eventType, details)
      ensures var m := Message(publishTime, "system_metrics", Event(eventTime, component, eventType, details).ToJson());
              var before := if "system_metrics" in old(dataFlow.topics) then old(dataFlow.topics)["system_metrics"] else [];
              && dataFlow.topics == old(dataFlow.topics)["system_metrics" := before + [m]]
              && dataFlow.delivered == old(dataFlow.delivered) + Deliveries(SubscribersOf(dataFlow.subscribers, "system_metrics"), m)
      ensures dataFlow.subscribers ==
                if "system_metrics" in old(dataFlow.topics) then old(dataFlow.subscribers)
                else old(dataFlow.subscribers)["system_metrics" := []]
      ensures dataFlow.status == Idle
    {
      var event := Event(eventTime, component, eventType, details);
      eventLog := eventLog + [event];
      dataFlow.Publish("system_metrics", event.ToJson(), publishTime);
      if |eventLog| > MaxEvents {
        eventLog := eventLog[|eventLog| - MaxEvents..];
      }
    }

    /** `get_platform_status`. */
    function Status(now: string): (r: PlatformStatus)
      reads this, warehouse, ml, dataFlow
      requires Valid()
      ensures r.totalEvents == |eventLog| <= MaxEvents
      ensures r.dataWarehouse == warehouse.status.Value() && r.mlPlatform == ml.status.Value()
      ensures r.dataFlow == dataFlow.status.Value()
      ensures r.uptime == "99.9%" && r.lastUpdate == now
    {
      PlatformStatus(warehouse.status.Value(), ml.status.Value(), dataFlow.status.Value(),
                     |eventLog|, "99.9%", now)
    }
  }
}

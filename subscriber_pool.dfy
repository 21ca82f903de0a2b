/**
 * The subscriber side: the pool of consumers, the consumer-group policy, and
 * the receive task each consumer backs.  A task subscribes once; on failure it
 * counts the failure and ends, otherwise it receives until the run ends,
 * handing every well-formed payload to the message validator and counting
 * every receive error, empty payload and malformed payload.  The broker is
 * abstracted: the subscription outcome and the sequence of deliveries are
 * inputs, and the end of the delivery sequence is the moment the task
 * observes that the run is over.
 */
module SubscriberPool {
  import opened Text
  import opened Settings
  import opened ClientFactory
  import opened Metrics

  // -------------------------------------------------------- consumer groups

  const GROUP_PREFIX: string := "rpcperf_subscriber_"

  /** The consumer group of pool slot `slot`: slot 0's group for everyone when a single group is requested. */
  function GroupIdFor(singleGroup: bool, slot: nat): (g: string)
    ensures singleGroup ==> g == "rpcperf_subscriber_0"
    ensures |g| > |GROUP_PREFIX| && g[..|GROUP_PREFIX|] == GROUP_PREFIX && AllDigits(g[|GROUP_PREFIX|..])
    ensures !singleGroup ==> ParseDecimal(g[|GROUP_PREFIX|..]) == slot
    ensures g[|GROUP_PREFIX|] == '0' ==> |g| == |GROUP_PREFIX| + 1
  {
    var id := if singleGroup then 0 else slot;
    ParseDecimalOfDecimal(id);
    var g := GROUP_PREFIX + Decimal(id);
    assert g[|GROUP_PREFIX|..] == Decimal(id);
    g
  }

  /** Without the single-group flag, distinct slots get distinct groups; with it, all share one. */
  lemma GroupIdsDistinct(singleGroup: bool, a: nat, b: nat)
    ensures singleGroup ==> GroupIdFor(singleGroup, a) == GroupIdFor(singleGroup, b)
    ensures !singleGroup && a != b ==> GroupIdFor(singleGroup, a) != GroupIdFor(singleGroup, b)
  {
    if !singleGroup && GroupIdFor(singleGroup, a) == GroupIdFor(singleGroup, b) {
      var ga := GroupIdFor(singleGroup, a);
      assert ParseDecimal(ga[|GROUP_PREFIX|..]) == a;
    }
  }

  // ------------------------------------------------------------- the task

  /** What one receive produced. */
  datatype Delivery = RecvError(error: string) | EmptyPayload | MalformedPayload(error: string) | Payload(bytes: seq<Byte>)

  /** Receives that count as receive errors: broker errors, empty and malformed payloads. */
  function ReceiveErrors(ds: seq<Delivery>): nat {
    if |ds| == 0 then 0
    else ReceiveErrors(ds[..|ds| - 1]) + (if ds[|ds| - 1].Payload? then 0 else 1)
  }

  /** The well-formed payloads, in order. */
  function Payloads(ds: seq<Delivery>): seq<seq<Byte>> {
    if |ds| == 0 then []
    else Payloads(ds[..|ds| - 1]) + (if ds[|ds| - 1].Payload? then [ds[|ds| - 1].bytes] else [])
  }

  /** The metrics after a task whose subscription had outcome `subscribed` and which received `ds`. */
  function AfterSubscribing(before: Counters, subscribed: bool, ds: seq<Delivery>): Counters {
    if subscribed then
      before.(subscribe := before.subscribe + 1,
              subscriberCurr := before.subscriberCurr + 1,
              subscribeOk := before.subscribeOk + 1,
              receive := before.receive + ReceiveErrors(ds),
              receiveEx := before.receiveEx + ReceiveErrors(ds))
    else
      before.(subscribe := before.subscribe + 1,
              subscribeEx := before.subscribeEx + 1)
  }

  /**
   * `subscriber_task`.  `subscribe` is the broker's answer to the subscription
   * request for `topics`.  `validated` lists the payloads handed to the validator,
   * one call each; the validator's own verdict does not affect the loop.
   */
  method SubscriberTask(before: Counters, topics: seq<string>, subscribe: seq<string> -> bool, ds: seq<Delivery>)
    returns (after: Counters, validated: seq<seq<Byte>>)
    ensures after == AfterSubscribing(before, subscribe(topics), ds)
    ensures validated == (if subscribe(topics) then Payloads(ds) else [])
  {
    after := before.(subscribe := before.subscribe + 1);
    validated := [];
    if subscribe(topics) {
      after := after.(subscriberCurr := after.subscriberCurr + 1);
      after := after.(subscribeOk := after.subscribeOk + 1);
      var i := 0;
      while i < |ds|
        invariant 0 <= i <= |ds|
        invariant validated == Payloads(ds[..i])
        invariant after == AfterSubscribing(before, true, ds[..i])
      {
        assert ds[..i + 1][..i] == ds[..i];
        match ds[i] {
          case Payload(bytes) =>
            validated := validated + [bytes];
          case MalformedPayload(_) =>
            after := after.(receive := after.receive + 1);
            after := after.(receiveEx := after.receiveEx + 1);
          case EmptyPayload =>
            after := after.(receive := after.receive + 1);
            after := after.(receiveEx := after.receiveEx + 1);
          case RecvError(_) =>
            after := after.(receive := after.receive + 1);
            after := after.(receiveEx := after.receiveEx + 1);
        }
        i := i + 1;
      }
      assert ds[..i] == ds;
    } else {
      after := after.(subscribeEx := after.subscribeEx + 1);
    }
  }

  /** Every delivery is either validated once or counted once as a receive error. */
  lemma {:induction false} ErrorsPlusPayloads(ds: seq<Delivery>)
    ensures ReceiveErrors(ds) + |Payloads(ds)| == |ds|
  {
    if |ds| > 0 {
      ErrorsPlusPayloads(ds[..|ds| - 1]);
    }
  }

  /** A failed subscription receives nothing and only counts the attempt and the failure. */
  lemma FailedSubscriptionCounts(before: Counters, ds: seq<Delivery>)
    ensures var after := AfterSubscribing(before, false, ds);
            && after.subscribe == before.subscribe + 1
            && after.subscribeEx == before.subscribeEx + 1
            && after.subscribeOk == before.subscribeOk
            && after.subscriberCurr == before.subscriberCurr
            && after.receive == before.receive && after.receiveEx == before.receiveEx
  {
  }

  /** A run with only well-formed payloads changes no receive counter. */
  lemma {:induction false} WellFormedChangesNoCounter(ds: seq<Delivery>)
    requires forall k :: 0 <= k < |ds| ==> ds[k].Payload?
    ensures ReceiveErrors(ds) == 0 && |Payloads(ds)| == |ds|
  {
    if |ds| > 0 {
      WellFormedChangesNoCounter(ds[..|ds| - 1]);
    }
  }

  // ------------------------------------------------------------- the pool

  /** A consumer of the pool: its component, its slot in that component's pool, and its configuration. */
  datatype Subscriber = Subscriber(component: nat, slot: nat, config: ClientConfig)

  /** A spawned task: the consumer it shares and its own copy of the topic list. */
  datatype Spawn = Spawn(subscriber: nat, topics: seq<string>)

  /** The pool slots of one component: `(component, slot)` for every slot, in order. */
  function SlotsOf(i: nat, c: Component): seq<(nat, nat)> {
    match c
    case KeyspaceComponent => []
    case TopicsComponent(t) => seq(t.subscriberPoolsize, s requires 0 <= s => (i, s))
  }

  /** Every pool slot of every `Topics` component, component by component. */
  function Slots(cs: seq<Component>): seq<(nat, nat)> {
    if |cs| == 0 then [] else Slots(cs[..|cs| - 1]) + SlotsOf(|cs| - 1, cs[|cs| - 1])
  }

  /** The total number of receive tasks: pool size times concurrency, summed over the components. */
  function TaskTotal(cs: seq<Component>): nat {
    if |cs| == 0 then 0
    else TaskTotal(cs[..|cs| - 1]) + (match cs[|cs| - 1]
                                      case KeyspaceComponent => 0
                                      case TopicsComponent(t) => t.subscriberPoolsize * t.subscriberConcurrency)
  }

  function Placement(subs: seq<Subscriber>): (r: seq<(nat, nat)>)
    ensures |r| == |subs|
  {
    seq(|subs|, j requires 0 <= j < |subs| => (subs[j].component, subs[j].slot))
  }

  /** The number of tasks sharing consumer `j`. */
  function SpawnsOn(spawns: seq<Spawn>, j: nat): nat {
    if |spawns| == 0 then 0
    else SpawnsOn(spawns[..|spawns| - 1], j) + (if spawns[|spawns| - 1].subscriber == j then 1 else 0)
  }

  /** The concurrency of a component's pool (none for anything but a `Topics` component). */
  function Concurrency(cs: seq<Component>, component: nat): nat {
    if component < |cs| && cs[component].TopicsComponent? then cs[component].spec.subscriberConcurrency else 0
  }

  /** Consumer `s` belongs to a `Topics` component and is configured with its slot's group. */
  predicate Configured(c: Config, cs: seq<Component>, s: Subscriber) {
    && s.component < |cs|
    && cs[s.component].TopicsComponent?
    && s.slot < cs[s.component].spec.subscriberPoolsize
    && IsConsumerConfig(c, GroupIdFor(cs[s.component].spec.kafkaSingleSubscriberGroup, s.slot), s.config)
  }

  /** Task `sp` shares an existing consumer and subscribes to that consumer's component topics. */
  predicate SpawnedFor(cs: seq<Component>, subs: seq<Subscriber>, sp: Spawn) {
    && sp.subscriber < |subs|
    && subs[sp.subscriber].component < |cs|
    && cs[subs[sp.subscriber].component].TopicsComponent?
    && sp.topics == cs[subs[sp.subscriber].component].spec.topics
  }

  /** The consumers and tasks launched so far are configured, attached and counted as the pool requires. */
  predicate Launched(c: Config, cs: seq<Component>, subs: seq<Subscriber>, spawns: seq<Spawn>) {
    && (forall j :: 0 <= j < |subs| ==> Configured(c, cs, subs[j]))
    && (forall k :: 0 <= k < |spawns| ==> SpawnedFor(cs, subs, spawns[k]))
    && (forall j :: 0 <= j < |subs| ==> SpawnsOn(spawns, j) == Concurrency(cs, subs[j].component))
  }

  /** The per-task copy of the topic list. */
  method CopyTopics(topics: seq<string>) returns (copy: seq<string>)
    ensures copy == topics
  {
    copy := [];
    for k := 0 to |topics|
      invariant copy == topics[..k]
    {
      copy := copy + [topics[k]];
    }
  }

  /**
   * `launch_subscribers`: for every `Topics` component, one consumer per pool
   * slot, configured with that slot's group, and `subscriberConcurrency`
   * tasks sharing each consumer, each with its own copy of the topic list.
   */
  method LaunchSubscribers(c: Config, cs: seq<Component>) returns (subs: seq<Subscriber>, spawns: seq<Spawn>)
    ensures Placement(subs) == Slots(cs)
    ensures |spawns| == TaskTotal(cs)
    ensures Launched(c, cs, subs, spawns)
  {
    subs := [];
    spawns := [];
    for i := 0 to |cs|
      invariant Placement(subs) == Slots(cs[..i])
      invariant |spawns| == TaskTotal(cs[..i])
      invariant Launched(c, cs, subs, spawns)
    {
      assert cs[..i + 1][..i] == cs[..i];
      match cs[i] {
        case KeyspaceComponent =>
          assert Slots(cs[..i + 1]) == Slots(cs[..i]) + [];
        case TopicsComponent(topics) =>
          subs, spawns := LaunchComponent(c, cs, i, subs, spawns);
      }
    }
    assert cs[..|cs|] == cs;
  }

  /** One `Topics` component's share of `launch_subscribers`: the loop over its pool slots. */
  method LaunchComponent(c: Config, cs: seq<Component>, i: nat, subs0: seq<Subscriber>, spawns0: seq<Spawn>)
    returns (subs: seq<Subscriber>, spawns: seq<Spawn>)
    requires i < |cs| && cs[i].TopicsComponent?
    requires Placement(subs0) == Slots(cs[..i])
    requires |spawns0| == TaskTotal(cs[..i])
    requires Launched(c, cs, subs0, spawns0)
    ensures Placement(subs) == Slots(cs[..i + 1])
    ensures |spawns| == TaskTotal(cs[..i + 1])
    ensures Launched(c, cs, subs, spawns)
  {
    var poolsize := cs[i].spec.subscriberPoolsize;
    var concurrency := cs[i].spec.subscriberConcurrency;
    ghost var slots := SlotsOf(i, cs[i]);
    subs, spawns := subs0, spawns0;
    for id := 0 to poolsize
      invariant Placement(subs) == Slots(cs[..i]) + slots[..id]
      invariant |spawns| == TaskTotal(cs[..i]) + id * concurrency
      invariant Launched(c, cs, subs, spawns)
    {
      ghost var before := subs;
      ghost var count := |spawns|;
      subs, spawns := LaunchSlot(c, cs, i, id, subs, spawns);
      SlotStep(before, subs, Slots(cs[..i]), slots, i, id);
      MulStep(count, TaskTotal(cs[..i]), id, concurrency, |spawns|);
    }
    assert slots[..poolsize] == slots;
    ComponentTotals(cs, i);
  }

  /** Appending one consumer appends its placement. */
  lemma PlacementAppend(before: seq<Subscriber>, after: seq<Subscriber>)
    requires |after| == |before| + 1 && after[..|before|] == before
    ensures Placement(after) == Placement(before) + [(after[|before|].component, after[|before|].slot)]
  {
    assert forall j :: 0 <= j < |before| ==> after[j] == before[j];
  }

  /** One more slot placed: the placement grows by that slot. */
  lemma SlotStep(before: seq<Subscriber>, after: seq<Subscriber>, placed: seq<(nat, nat)>, slots: seq<(nat, nat)>, i: nat, id: nat)
    requires id < |slots| && slots[id] == (i, id)
    requires Placement(before) == placed + slots[..id]
    requires |after| == |before| + 1 && after[..|before|] == before
    requires after[|before|].component == i && after[|before|].slot == id
    ensures Placement(after) == placed + slots[..id + 1]
  {
    PlacementAppend(before, after);
    assert slots[..id + 1] == slots[..id] + [(i, id)];
  }

  lemma MulStep(count: nat, base: nat, id: nat, concurrency: nat, next: nat)
    requires count == base + id * concurrency && next == count + concurrency
    ensures next == base + (id + 1) * concurrency
  {
  }

  /** `Slots` and `TaskTotal` of one more component. */
  lemma ComponentTotals(cs: seq<Component>, i: nat)
    requires i < |cs| && cs[i].TopicsComponent?
    ensures Slots(cs[..i + 1]) == Slots(cs[..i]) + SlotsOf(i, cs[i])
    ensures TaskTotal(cs[..i + 1]) == TaskTotal(cs[..i]) + cs[i].spec.subscriberPoolsize * cs[i].spec.subscriberConcurrency
  {
    assert cs[..i + 1][..i] == cs[..i];
  }

  /** One pool slot: its consumer, then the tasks that share it. */
  method LaunchSlot(c: Config, cs: seq<Component>, i: nat, id: nat, subs0: seq<Subscriber>, spawns0: seq<Spawn>)
    returns (subs: seq<Subscriber>, spawns: seq<Spawn>)
    requires i < |cs| && cs[i].TopicsComponent? && id < cs[i].spec.subscriberPoolsize
    requires Launched(c, cs, subs0, spawns0)
    ensures |subs| == |subs0| + 1 && subs[..|subs0|] == subs0
    ensures subs[|subs0|].component == i && subs[|subs0|].slot == id
    ensures |spawns| == |spawns0| + cs[i].spec.subscriberConcurrency
    ensures Launched(c, cs, subs, spawns)
  {
    var topics := cs[i].spec;
    // every consumer of the pool joins group 0 when a single subscriber group is requested
    var groupId := if topics.kafkaSingleSubscriberGroup then 0 else id;
    var config := GetKafkaConsumer(c, GROUP_PREFIX + Decimal(groupId));
    subs := subs0 + [Subscriber(i, id, config)];
    assert subs[..|subs0|] == subs0;
    var client := |subs0|;
    spawns := SpawnReceivers(spawns0, client, topics.topics, topics.subscriberConcurrency);
    assert GroupIdFor(topics.kafkaSingleSubscriberGroup, id) == GROUP_PREFIX + Decimal(groupId);
    forall j | 0 <= j < |subs|
      ensures Configured(c, cs, subs[j]) && SpawnsOn(spawns, j) == Concurrency(cs, subs[j].component)
    {
      if j < client {
        assert subs[j] == subs0[j];
      }
    }
    forall k | 0 <= k < |spawns|
      ensures SpawnedFor(cs, subs, spawns[k])
    {
      if k < |spawns0| {
        assert spawns[k] == spawns0[k] && SpawnedFor(cs, subs0, spawns0[k]);
      }
    }
  }

  /** The `concurrency` receive tasks sharing consumer `client`, each with its own copy of `topics`. */
  method SpawnReceivers(spawns0: seq<Spawn>, client: nat, topics: seq<string>, concurrency: nat) returns (spawns: seq<Spawn>)
    requires forall k :: 0 <= k < |spawns0| ==> spawns0[k].subscriber < client
    ensures |spawns| == |spawns0| + concurrency && spawns[..|spawns0|] == spawns0
    ensures forall k :: |spawns0| <= k < |spawns| ==> spawns[k] == Spawn(client, topics)
    ensures forall j :: 0 <= j < client ==> SpawnsOn(spawns, j) == SpawnsOn(spawns0, j)
    ensures SpawnsOn(spawns, client) == concurrency
  {
    spawns := spawns0;
    NoSpawnsOnFreshSubscriber(spawns, client);
    for t := 0 to concurrency
      invariant |spawns| == |spawns0| + t && spawns[..|spawns0|] == spawns0
      invariant forall k :: |spawns0| <= k < |spawns| ==> spawns[k] == Spawn(client, topics)
      invariant forall j :: 0 <= j < client ==> SpawnsOn(spawns, j) == SpawnsOn(spawns0, j)
      invariant SpawnsOn(spawns, client) == t
    {
      var subTopics := CopyTopics(topics);
      ghost var previous := spawns;
      spawns := spawns + [Spawn(client, subTopics)];
      assert spawns[..|spawns| - 1] == previous;
    }
  }

  lemma {:induction false} NoSpawnsOnFreshSubscriber(spawns: seq<Spawn>, j: nat)
    requires forall k :: 0 <= k < |spawns| ==> spawns[k].subscriber < j
    ensures SpawnsOn(spawns, j) == 0
  {
    if |spawns| > 0 {
      NoSpawnsOnFreshSubscriber(spawns[..|spawns| - 1], j);
    }
  }
}

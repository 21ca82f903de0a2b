/**
 * The publisher side: the pool of producers and the publish task each of them
 * backs.  A task consumes work items from the shared channel until the run
 * ends or the channel closes; every item is sent once and counted as a success
 * (with one latency sample) or as a failure.  The broker and the clock are
 * abstracted: each received item comes with the outcome of its send, and a
 * successful send with its measured latency.  The end of the step sequence is
 * the moment the task observes that the run is over.
 */
module PublisherPool {
  import opened Settings
  import opened ClientFactory
  import opened Metrics

  /** The only kind of work item. */
  datatype WorkItem = Publish(topic: string, key: seq<Byte>, message: seq<Byte>)

  /** What a producer sends: no explicit partition, timestamp or headers. */
  datatype Record = Record(topic: string, key: seq<Byte>, payload: seq<Byte>)

  datatype SendResult = Delivered(latencyNanos: nat) | SendFailed(error: string)

  /** One turn of the task loop as seen from outside. */
  datatype Step = Received(item: WorkItem, result: SendResult) | ChannelClosed

  datatype TaskExit = Stopped | ClosedChannelError

  // ------------------------------------------------- specification of a run

  /** The number of items served: the steps before the first closed channel. */
  function Served(steps: seq<Step>): (n: nat)
    ensures n <= |steps|
    ensures forall k :: 0 <= k < n ==> steps[k].Received?
    ensures n < |steps| ==> steps[n].ChannelClosed?
  {
    if |steps| == 0 || steps[0].ChannelClosed? then 0 else 1 + Served(steps[1..])
  }

  function RecordOf(item: WorkItem): Record {
    Record(item.topic, item.key, item.message)
  }

  /** The records sent for the received items, in order. */
  function Records(steps: seq<Step>): seq<Record> {
    if |steps| == 0 then []
    else Records(steps[..|steps| - 1]) + (match steps[|steps| - 1]
                                           case Received(item, _) => [RecordOf(item)]
                                           case ChannelClosed => [])
  }

  function Delivered(steps: seq<Step>): nat {
    if |steps| == 0 then 0
    else Delivered(steps[..|steps| - 1]) + (if steps[|steps| - 1].Received? && steps[|steps| - 1].result.Delivered? then 1 else 0)
  }

  function Failed(steps: seq<Step>): nat {
    if |steps| == 0 then 0
    else Failed(steps[..|steps| - 1]) + (if steps[|steps| - 1].Received? && steps[|steps| - 1].result.SendFailed? then 1 else 0)
  }

  /** The latencies of the successful sends, in order. */
  function Latencies(steps: seq<Step>): seq<nat> {
    if |steps| == 0 then []
    else Latencies(steps[..|steps| - 1]) + (if steps[|steps| - 1].Received? && steps[|steps| - 1].result.Delivered?
                                            then [steps[|steps| - 1].result.latencyNanos] else [])
  }

  /** The metrics after a run of the publish loop over `steps`. */
  function AfterPublishing(before: Counters, steps: seq<Step>): Counters {
    var n := Served(steps);
    var done := steps[..n];
    before.(request := before.request + n,
            publish := before.publish + n,
            publishOk := before.publishOk + Delivered(done),
            publishEx := before.publishEx + Failed(done),
            publishLatency := before.publishLatency + Latencies(done),
            publisherCurr := before.publisherCurr + (if n < |steps| then 1 else 0))
  }

  // ------------------------------------------------------------ the task

  /**
   * `publisher_task`: the gauge of running publishers goes up at start and back
   * down at a normal stop; a closed channel ends the task with an error before
   * the gauge is decremented.
   */
  method PublisherTask(before: Counters, steps: seq<Step>) returns (after: Counters, sent: seq<Record>, exit: TaskExit)
    ensures exit == (if Served(steps) < |steps| then ClosedChannelError else Stopped)
    ensures sent == Records(steps[..Served(steps)])
    ensures after == AfterPublishing(before, steps)
  {
    after := before.(publisherCurr := before.publisherCurr + 1);
    sent := [];
    var i := 0;
    while i < |steps|
      invariant 0 <= i <= |steps|
      invariant forall k :: 0 <= k < i ==> steps[k].Received?
      invariant sent == Records(steps[..i])
      invariant after == before.(request := before.request + i,
                                 publish := before.publish + i,
                                 publishOk := before.publishOk + Delivered(steps[..i]),
                                 publishEx := before.publishEx + Failed(steps[..i]),
                                 publishLatency := before.publishLatency + Latencies(steps[..i]),
                                 publisherCurr := before.publisherCurr + 1)
    {
      assert steps[..i + 1][..i] == steps[..i];
      match steps[i] {
        case ChannelClosed =>
          ServedUpTo(steps, i);
          return after, sent, ClosedChannelError;
        case Received(item, result) =>
          after := after.(request := after.request + 1);
          after := after.(publish := after.publish + 1);
          sent := sent + [Record(item.topic, item.key, item.message)];
          match result {
            case Delivered(latency) =>
              after := after.(publishOk := after.publishOk + 1);
              after := after.(publishLatency := after.publishLatency + [latency]);
            case SendFailed(_) =>
              after := after.(publishEx := after.publishEx + 1);
          }
      }
      i := i + 1;
    }
    assert steps[..i] == steps;
    ServedUpTo(steps, i);
    after := after.(publisherCurr := after.publisherCurr - 1);
    exit := Stopped;
  }

  // -------------------------------------------------------------- lemmas

  /** A task that received `i` items and then found the channel closed or the run over served exactly `i`. */
  lemma {:induction false} ServedUpTo(steps: seq<Step>, i: nat)
    requires i <= |steps|
    requires forall k :: 0 <= k < i ==> steps[k].Received?
    requires i < |steps| ==> steps[i].ChannelClosed?
    ensures Served(steps) == i
  {
    if i > 0 {
      ServedUpTo(steps[1..], i - 1);
    }
  }

  /** Every served item is counted exactly once, as a success or as a failure. */
  lemma {:induction false} DeliveredPlusFailed(steps: seq<Step>)
    requires forall k :: 0 <= k < |steps| ==> steps[k].Received?
    ensures Delivered(steps) + Failed(steps) == |steps|
    ensures |Records(steps)| == |steps|
  {
    if |steps| > 0 {
      DeliveredPlusFailed(steps[..|steps| - 1]);
    }
  }

  /** A successful send records exactly one latency sample; a failed one records none. */
  lemma {:induction false} OneSamplePerSuccess(steps: seq<Step>)
    ensures |Latencies(steps)| == Delivered(steps)
  {
    if |steps| > 0 {
      OneSamplePerSuccess(steps[..|steps| - 1]);
    }
  }

  /** The counter deltas of a run: requests and publishes count items; ok and ex split them. */
  lemma PublishDeltas(before: Counters, steps: seq<Step>)
    ensures var after := AfterPublishing(before, steps);
            && after.request - before.request == after.publish - before.publish == Served(steps)
            && (after.publishOk - before.publishOk) + (after.publishEx - before.publishEx) == Served(steps)
            && |after.publishLatency| - |before.publishLatency| == after.publishOk - before.publishOk
            && after.publisherCurr - before.publisherCurr == (if Served(steps) < |steps| then 1 else 0)
  {
    var done := steps[..Served(steps)];
    DeliveredPlusFailed(done);
    OneSamplePerSuccess(done);
  }

  /**
   * Fed only items whose sends all fail and never closed, a task counts every
   * item as a failure, records no latency and stops normally.
   */
  lemma {:induction false} AllFailuresNoSamples(before: Counters, steps: seq<Step>)
    requires forall k :: 0 <= k < |steps| ==> steps[k].Received? && steps[k].result.SendFailed?
    ensures var after := AfterPublishing(before, steps);
            && after.publishEx == before.publishEx + |steps|
            && after.publishOk == before.publishOk
            && after.publishLatency == before.publishLatency
            && after.publisherCurr == before.publisherCurr
  {
    var n := Served(steps);
    assert n == |steps|;
    assert steps[..n] == steps;
    NoSuccesses(steps);
    DeliveredPlusFailed(steps);
  }

  lemma {:induction false} NoSuccesses(steps: seq<Step>)
    requires forall k :: 0 <= k < |steps| ==> steps[k].Received? && steps[k].result.SendFailed?
    ensures Delivered(steps) == 0 && Latencies(steps) == []
  {
    if |steps| > 0 {
      NoSuccesses(steps[..|steps| - 1]);
    }
  }

  // ------------------------------------------------------------- the pool

  /** The number of tasks sharing producer `slot`. */
  function TasksOn(tasks: seq<nat>, slot: nat): nat {
    if |tasks| == 0 then 0
    else TasksOn(tasks[..|tasks| - 1], slot) + (if tasks[|tasks| - 1] == slot then 1 else 0)
  }

  /**
   * `launch_publishers`: one producer per pool slot, one connect event per
   * producer, and `publisherConcurrency` tasks sharing each producer.  A task
   * is represented by the slot of the producer it shares.
   */
  method LaunchPublishers(c: Config, before: Counters) returns (after: Counters, producers: seq<ClientConfig>, tasks: seq<nat>)
    ensures |producers| == c.pubsub.publisherPoolsize
    ensures forall s :: 0 <= s < |producers| ==> IsProducerConfig(c, producers[s])
    ensures |tasks| == c.pubsub.publisherPoolsize * c.pubsub.publisherConcurrency
    ensures forall k :: 0 <= k < |tasks| ==> tasks[k] < |producers|
    ensures forall s :: 0 <= s < |producers| ==> TasksOn(tasks, s) == c.pubsub.publisherConcurrency
    ensures after == before.(publisherConnect := before.publisherConnect + c.pubsub.publisherPoolsize)
  {
    var poolsize := c.pubsub.publisherPoolsize;
    var concurrency := c.pubsub.publisherConcurrency;
    after := before;
    producers := [];
    tasks := [];
    for slot := 0 to poolsize
      invariant |producers| == slot
      invariant forall s :: 0 <= s < slot ==> IsProducerConfig(c, producers[s])
      invariant |tasks| == slot * concurrency
      invariant forall k :: 0 <= k < |tasks| ==> tasks[k] < slot
      invariant forall s :: 0 <= s < slot ==> TasksOn(tasks, s) == concurrency
      invariant after == before.(publisherConnect := before.publisherConnect + slot)
    {
      var client := GetKafkaProducer(c);
      producers := producers + [client];
      after := after.(publisherConnect := after.publisherConnect + 1);
      tasks := SpawnTasks(tasks, slot, concurrency);
      assert |tasks| == (slot + 1) * concurrency;
    }
  }

  /** The `concurrency` tasks that share producer `slot`, spawned after the tasks of the earlier slots. */
  method SpawnTasks(tasks0: seq<nat>, slot: nat, concurrency: nat) returns (tasks: seq<nat>)
    requires forall k :: 0 <= k < |tasks0| ==> tasks0[k] < slot
    ensures |tasks| == |tasks0| + concurrency
    ensures forall k :: 0 <= k < |tasks| ==> tasks[k] <= slot
    ensures forall s :: 0 <= s < slot ==> TasksOn(tasks, s) == TasksOn(tasks0, s)
    ensures TasksOn(tasks, slot) == concurrency
  {
    tasks := tasks0;
    NoTasksOnFreshSlot(tasks, slot);
    for t := 0 to concurrency
      invariant |tasks| == |tasks0| + t
      invariant forall k :: 0 <= k < |tasks| ==> tasks[k] <= slot
      invariant forall s :: 0 <= s < slot ==> TasksOn(tasks, s) == TasksOn(tasks0, s)
      invariant TasksOn(tasks, slot) == t
    {
      ghost var previous := tasks;
      tasks := tasks + [slot];
      assert tasks[..|tasks| - 1] == previous;
    }
  }

  /** Tasks on slots past the last one are counted as absent. */
  lemma {:induction false} NoTasksOnFreshSlot(tasks: seq<nat>, slot: nat)
    requires forall k :: 0 <= k < |tasks| ==> tasks[k] < slot
    ensures TasksOn(tasks, slot) == 0
  {
    if |tasks| > 0 {
      NoTasksOnFreshSlot(tasks[..|tasks| - 1], slot);
    }
  }
}

/**
 * Topic provisioning.  For every topic declared by a `Topics` workload
 * component, in order, the driver asks the admin client to create it with the
 * declared partition count and replication factor 1.  A topic that already
 * exists is validated against the broker's metadata; every other outcome
 * (another creation error, no admin response, a failed metadata fetch, empty
 * metadata, a partition-count mismatch) ends provisioning with a fatal error
 * naming the topic.  The broker is abstracted into two answers: the response
 * to a creation request and the metadata fetched for a topic name.
 */
module TopicProvisioner {
  import opened Settings

  /** The creation request sent for one topic. */
  datatype NewTopic = NewTopic(name: string, numPartitions: int, replication: nat)

  datatype ErrorCode = TopicAlreadyExists | OtherError(code: string)

  /** One per-topic entry of an admin response. */
  datatype TopicResult = Created(topic: string) | Rejected(topic: string, code: ErrorCode)

  datatype CreateResponse = NoResponse(reason: string) | Response(results: seq<TopicResult>)

  /** Fetched metadata: the partition count of each topic reported, in order. */
  datatype Metadata = MetadataUnavailable(reason: string) | Metadata(topicPartitions: seq<nat>)

  /** What the broker answers; each answer is a function of the request alone. */
  datatype Broker = Broker(create: NewTopic -> CreateResponse, metadata: string -> Metadata)

  datatype FatalReason =
    | NoAdminResponse(reason: string)
    | CreateFailed(topic: string, code: string)
    | MetadataFetchFailed(reason: string)
    | EmptyMetadata
    | PartitionMismatch(asked: nat, found: nat)

  datatype Status = Ok | Fatal(topic: string, reason: FatalReason)

  /** A declared topic with its component's partition count. */
  datatype Declared = Declared(name: string, partitions: nat)

  const I32_RANGE: int := 0x1_0000_0000

  /** The value of `n as i32`: the low 32 bits read as a two's-complement number. */
  function AsI32(n: nat): (r: int)
    ensures -0x8000_0000 <= r < 0x8000_0000
    ensures (r - n) % I32_RANGE == 0
    ensures n < 0x8000_0000 ==> r == n
  {
    var low := n % I32_RANGE;
    if low < 0x8000_0000 then low else low - I32_RANGE
  }

  function Request(d: Declared): NewTopic {
    NewTopic(d.name, AsI32(d.partitions), 1)
  }

  /** The metadata reports the topic (first entry) with the declared partition count. */
  predicate PartitionsMatch(partitions: nat, md: Metadata) {
    md.Metadata? && |md.topicPartitions| > 0 && md.topicPartitions[0] == partitions
  }

  /** Checks an existing topic against its declaration using the fetched metadata. */
  function ValidateTopic(topic: string, partitions: nat, md: Metadata): (s: Status)
    ensures s.Ok? <==> PartitionsMatch(partitions, md)
    ensures s.Fatal? ==> s.topic == topic
  {
    match md
    case MetadataUnavailable(e) => Fatal(topic, MetadataFetchFailed(e))
    case Metadata(ps) =>
      if |ps| == 0 then Fatal(topic, EmptyMetadata)
      else if ps[0] != partitions then Fatal(topic, PartitionMismatch(partitions, ps[0]))
      else Ok
  }

  /** A result entry that lets provisioning go on. */
  predicate ResultAccepted(d: Declared, r: TopicResult, b: Broker) {
    r.Created? || (r.code == TopicAlreadyExists && PartitionsMatch(d.partitions, b.metadata(d.name)))
  }

  /** The verdict on one result entry of a creation response. */
  function ResultStatus(d: Declared, r: TopicResult, b: Broker): (s: Status)
    ensures s.Ok? <==> ResultAccepted(d, r, b)
    ensures s.Fatal? ==> s.topic == d.name
  {
    match r
    case Created(_) => Ok
    case Rejected(t, TopicAlreadyExists) => ValidateTopic(d.name, d.partitions, b.metadata(d.name))
    case Rejected(t, OtherError(code)) => Fatal(d.name, CreateFailed(t, code))
  }

  /** Result entries are handled in order; the first fatal one decides. */
  function ResultsStatus(d: Declared, rs: seq<TopicResult>, b: Broker): (s: Status)
    ensures s.Ok? <==> forall i :: 0 <= i < |rs| ==> ResultAccepted(d, rs[i], b)
    ensures s.Fatal? ==> s.topic == d.name
  {
    if |rs| == 0 then Ok
    else
      var s := ResultStatus(d, rs[0], b);
      if s.Fatal? then s else ResultsStatus(d, rs[1..], b)
  }

  /** The verdict on one declared topic. */
  function TopicStatus(d: Declared, b: Broker): (s: Status)
    ensures s.Ok? <==> b.create(Request(d)).Response?
                       && forall i :: 0 <= i < |b.create(Request(d)).results| ==> ResultAccepted(d, b.create(Request(d)).results[i], b)
    ensures s.Fatal? ==> s.topic == d.name
  {
    match b.create(Request(d))
    case NoResponse(e) => Fatal(d.name, NoAdminResponse(e))
    case Response(rs) => ResultsStatus(d, rs, b)
  }

  /** The declared topics of one component. */
  function DeclaredIn(c: Component): seq<Declared> {
    match c
    case KeyspaceComponent => []
    case TopicsComponent(t) => seq(|t.topics|, i requires 0 <= i < |t.topics| => Declared(t.topics[i], t.partitions))
  }

  /** Every declared topic, component by component, in order. */
  function AllDeclared(cs: seq<Component>): seq<Declared> {
    if |cs| == 0 then [] else DeclaredIn(cs[0]) + AllDeclared(cs[1..])
  }

  /** The overall verdict and the creation requests issued, up to and including the first fatal topic. */
  datatype Outcome = Outcome(status: Status, requests: seq<NewTopic>)

  function Provision(ds: seq<Declared>, b: Broker): Outcome {
    if |ds| == 0 then Outcome(Ok, [])
    else
      var s := TopicStatus(ds[0], b);
      if s.Fatal? then Outcome(s, [Request(ds[0])])
      else
        var rest := Provision(ds[1..], b);
        Outcome(rest.status, [Request(ds[0])] + rest.requests)
  }

  function Requests(ds: seq<Declared>): (rs: seq<NewTopic>)
    ensures |rs| == |ds|
    ensures forall i :: 0 <= i < |ds| ==> rs[i] == Request(ds[i])
  {
    seq(|ds|, i requires 0 <= i < |ds| => Request(ds[i]))
  }

  /**
   * Each request names its declared topic, asks for replication factor 1, and
   * carries the declared partition count cast to 32 bits: the count itself
   * whenever it fits in an `i32`.
   */
  lemma RequestsDeclare(ds: seq<Declared>)
    ensures |Requests(ds)| == |ds|
    ensures forall i :: 0 <= i < |ds| ==>
              && Requests(ds)[i].name == ds[i].name
              && Requests(ds)[i].replication == 1
              && -0x8000_0000 <= Requests(ds)[i].numPartitions < 0x8000_0000
              && (Requests(ds)[i].numPartitions - ds[i].partitions) % I32_RANGE == 0
              && (ds[i].partitions < 0x8000_0000 ==> Requests(ds)[i].numPartitions == ds[i].partitions)
  {
  }

  /** `create_topics`: the loop over workload components, stopping at the first fatal topic. */
  method CreateTopics(components: seq<Component>, b: Broker) returns (status: Status, requests: seq<NewTopic>)
    ensures Outcome(status, requests) == Provision(AllDeclared(components), b)
  {
    requests := [];
    var i := 0;
    while i < |components|
      invariant 0 <= i <= |components|
      invariant Provision(AllDeclared(components), b)
                == Prepend(requests, Provision(AllDeclared(components[i..]), b))
    {
      ghost var later := AllDeclared(components[i + 1..]);
      assert components[i..][1..] == components[i + 1..];
      ProvisionAppend(DeclaredIn(components[i]), later, b);
      var s: Status, issued: seq<NewTopic>;
      match components[i] {
        case KeyspaceComponent =>
          s, issued := Ok, [];
        case TopicsComponent(t) =>
          s, issued := CreateComponentTopics(t, b);
      }
      PrependTwice(requests, issued, Provision(later, b));
      requests := requests + issued;
      if s.Fatal? {
        status := s;
        return;
      }
      i := i + 1;
    }
    status := Ok;
  }

  /** The inner loop of `create_topics` over the topics of one component. */
  method CreateComponentTopics(t: Topics, b: Broker) returns (status: Status, requests: seq<NewTopic>)
    ensures Outcome(status, requests) == Provision(DeclaredIn(TopicsComponent(t)), b)
  {
    ghost var pending := DeclaredIn(TopicsComponent(t));
    var partitions := t.partitions;
    requests := [];
    var j := 0;
    while j < |t.topics|
      invariant 0 <= j <= |t.topics|
      invariant Provision(pending, b) == Prepend(requests, Provision(pending[j..], b))
    {
      var s, request := CreateTopic(Declared(t.topics[j], partitions), b);
      assert pending[j..][0] == Declared(t.topics[j], partitions) && pending[j..][1..] == pending[j + 1..];
      PrependTwice(requests, [request], Provision(pending[j + 1..], b));
      requests := requests + [request];
      if s.Fatal? {
        return s, requests;
      }
      j := j + 1;
    }
    status := Ok;
  }

  /** One topic: the creation request, then the verdict on the admin client's answer. */
  method CreateTopic(d: Declared, b: Broker) returns (status: Status, request: NewTopic)
    ensures request == Request(d)
    ensures status == TopicStatus(d, b)
  {
    request := NewTopic(d.name, AsI32(d.partitions), 1);
    match b.create(request) {
      case NoResponse(e) =>
        status := Fatal(d.name, NoAdminResponse(e));
      case Response(results) =>
        status := HandleResults(d, results, b);
    }
  }

  /** Provisioning a concatenation: the first part, then the second only if the first succeeded. */
  lemma {:induction false} ProvisionAppend(ds: seq<Declared>, es: seq<Declared>, b: Broker)
    ensures Provision(ds + es, b)
            == if Provision(ds, b).status.Fatal? then Provision(ds, b)
               else Prepend(Provision(ds, b).requests, Provision(es, b))
  {
    if |ds| > 0 {
      assert (ds + es)[0] == ds[0] && (ds + es)[1..] == ds[1..] + es;
      ProvisionAppend(ds[1..], es, b);
    } else {
      assert ds + es == es;
    }
  }

  /**
   * The loop over the entries of one admin response: an already-existing topic
   * is validated, any other rejection is fatal, the first fatal entry stops.
   */
  method HandleResults(d: Declared, results: seq<TopicResult>, b: Broker) returns (status: Status)
    ensures status == ResultsStatus(d, results, b)
  {
    var k := 0;
    while k < |results|
      invariant 0 <= k <= |results|
      invariant ResultsStatus(d, results, b) == ResultsStatus(d, results[k..], b)
    {
      assert results[k..][1..] == results[k + 1..];
      match results[k] {
        case Created(_) =>
        case Rejected(topic, code) =>
          if code == TopicAlreadyExists {
            var v := ValidateTopic(d.name, d.partitions, b.metadata(d.name));
            if v.Fatal? {
              return v;
            }
          } else {
            return Fatal(d.name, CreateFailed(topic, code.code));
          }
      }
      k := k + 1;
    }
    return Ok;
  }

  /** The outcome after requests already issued, all of them accepted. */
  function Prepend(done: seq<NewTopic>, o: Outcome): Outcome {
    Outcome(o.status, done + o.requests)
  }

  lemma PrependTwice(first: seq<NewTopic>, second: seq<NewTopic>, o: Outcome)
    ensures Prepend(first, Prepend(second, o)) == Prepend(first + second, o)
  {
    assert first + (second + o.requests) == (first + second) + o.requests;
  }

  // -------------------------------------------------------------- lemmas

  /** Topic `n` is the first declared topic whose verdict is fatal. */
  predicate FirstFatalAt(ds: seq<Declared>, b: Broker, n: nat) {
    n < |ds| && TopicStatus(ds[n], b).Fatal? && forall k :: 0 <= k < n ==> TopicStatus(ds[k], b).Ok?
  }

  /**
   * Provisioning succeeds exactly when every declared topic is accepted, and
   * then a creation request went out for every declared topic, in order.
   */
  lemma {:induction false} ProvisionOk(ds: seq<Declared>, b: Broker)
    ensures Provision(ds, b).status.Ok? <==> forall k :: 0 <= k < |ds| ==> TopicStatus(ds[k], b).Ok?
    ensures Provision(ds, b).status.Ok? ==> Provision(ds, b).requests == Requests(ds)
  {
    if |ds| > 0 {
      ProvisionOk(ds[1..], b);
      if TopicStatus(ds[0], b).Ok? {
        assert forall k :: 1 <= k < |ds| ==> ds[k] == ds[1..][k - 1];
        assert Requests(ds) == [Request(ds[0])] + Requests(ds[1..]);
      }
    }
  }

  /**
   * A fatal outcome is the verdict of the first rejected topic; the topics
   * before it were accepted and nothing is requested after it.
   */
  lemma {:induction false} ProvisionFatal(ds: seq<Declared>, b: Broker)
    requires Provision(ds, b).status.Fatal?
    ensures exists n: nat :: FirstFatalAt(ds, b, n)
                        && Provision(ds, b) == Outcome(TopicStatus(ds[n], b), Requests(ds[..n + 1]))
  {
    if TopicStatus(ds[0], b).Fatal? {
      assert FirstFatalAt(ds, b, 0);
      assert Requests(ds[..1]) == [Request(ds[0])];
    } else {
      ProvisionFatal(ds[1..], b);
      var n: nat :| FirstFatalAt(ds[1..], b, n)
               && Provision(ds[1..], b) == Outcome(TopicStatus(ds[1..][n], b), Requests(ds[1..][..n + 1]));
      forall k | 0 <= k < n + 1
        ensures TopicStatus(ds[k], b).Ok?
      {
        if k > 0 {
          assert ds[k] == ds[1..][k - 1];
        }
      }
      assert ds[1..][n] == ds[n + 1];
      assert Requests(ds[..n + 2]) == [Request(ds[0])] + Requests(ds[1..][..n + 1]);
      assert FirstFatalAt(ds, b, n + 1);
    }
  }

  /** The fatal error always names the declared topic it is about. */
  lemma FatalNamesDeclaredTopic(ds: seq<Declared>, b: Broker)
    requires Provision(ds, b).status.Fatal?
    ensures exists n :: 0 <= n < |ds| && Provision(ds, b).status.topic == ds[n].name
  {
    ProvisionFatal(ds, b);
  }

  /**
   * Declaring "t1" with 4 partitions: a broker without the topic creates it;
   * a broker that already has it with 4 partitions validates it; declaring it
   * with 8 partitions against that broker is fatal.
   */
  lemma ExistingTopicScenario()
    ensures var absent := Broker((r: NewTopic) => Response([Created(r.name)]), (n: string) => Metadata([]));
            Provision([Declared("t1", 4)], absent) == Outcome(Ok, [NewTopic("t1", 4, 1)])
    ensures var present := Broker((r: NewTopic) => Response([Rejected(r.name, TopicAlreadyExists)]), (n: string) => Metadata([4]));
            && Provision([Declared("t1", 4)], present) == Outcome(Ok, [NewTopic("t1", 4, 1)])
            && Provision([Declared("t1", 8)], present)
               == Outcome(Fatal("t1", PartitionMismatch(8, 4)), [NewTopic("t1", 8, 1)])
  {
  }
}

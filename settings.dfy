/**
 * The parts of the benchmark configuration the Kafka driver reads: the broker
 * endpoints, the pubsub section (timeouts, producer and consumer knobs, the
 * publisher pool shape), the optional TLS material, and the workload components
 * that declare topics.  Values the driver only forwards as configuration
 * strings (acks mode, compression type, offset-reset policy) are given here
 * already rendered as strings.
 */
module Settings {
  import opened Wrappers

  type Byte = b: int | 0 <= b < 256

  /** TLS material; each file is optional. */
  datatype Tls = Tls(
    caFile: Option<string>,
    privateKey: Option<string>,
    privateKeyPassword: Option<string>,
    certificate: Option<string>)

  /** The pubsub section.  Timeouts are durations in nanoseconds. */
  datatype Pubsub = Pubsub(
    connectTimeout: nat,
    publishTimeout: nat,
    publisherPoolsize: nat,
    publisherConcurrency: nat,
    kafkaAcks: string,
    kafkaCompressionType: string,
    kafkaLingerMs: Option<string>,
    kafkaBatchSize: Option<string>,
    kafkaBatchNumMessages: Option<string>,
    kafkaRequestTimeoutMs: Option<string>,
    kafkaExactlyOnce: bool,
    kafkaAutoOffsetReset: string,
    kafkaFetchMessageMaxBytes: Option<string>)

  datatype Config = Config(endpoints: seq<string>, pubsub: Pubsub, tls: Option<Tls>)

  /** A `Topics` workload component: the topics, their partition count and the subscriber pool shape. */
  datatype Topics = Topics(
    topics: seq<string>,
    partitions: nat,
    subscriberPoolsize: nat,
    subscriberConcurrency: nat,
    kafkaSingleSubscriberGroup: bool)

  /** Workload components; only `TopicsComponent` matters to this driver. */
  datatype Component = KeyspaceComponent | TopicsComponent(spec: Topics)

  /** Whole milliseconds in a duration given in nanoseconds (truncating, as `as_millis` does). */
  function AsMillis(nanos: nat): (ms: nat)
    ensures ms * 1_000_000 <= nanos < (ms + 1) * 1_000_000
  {
    nanos / 1_000_000
  }
}

/**
 * The metrics the Kafka driver updates, as one record of counters and gauges
 * plus the samples recorded in the publish-latency histogram.  Tasks take the
 * record before they run and return it afterwards.
 */
module Metrics {

  datatype Counters = Counters(
    request: nat,               // REQUEST
    publish: nat,               // PUBSUB_PUBLISH
    publishOk: nat,             // PUBSUB_PUBLISH_OK
    publishEx: nat,             // PUBSUB_PUBLISH_EX
    publishLatency: seq<nat>,   // samples of PUBSUB_PUBLISH_LATENCY, in nanoseconds
    publisherConnect: nat,      // PUBSUB_PUBLISHER_CONNECT
    publisherCurr: int,         // PUBSUB_PUBLISHER_CURR (a gauge)
    subscribe: nat,             // PUBSUB_SUBSCRIBE
    subscribeOk: nat,           // PUBSUB_SUBSCRIBE_OK
    subscribeEx: nat,           // PUBSUB_SUBSCRIBE_EX
    subscriberCurr: int,        // PUBSUB_SUBSCRIBER_CURR (a gauge)
    receive: nat,               // PUBSUB_RECEIVE
    receiveEx: nat)             // PUBSUB_RECEIVE_EX
}

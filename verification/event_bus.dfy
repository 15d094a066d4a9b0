/** The publish-subscribe bus, reduced to an outbox: publishing appends one
    keyed message to a sequence that the next stage consumes in order. */
module EventBus {

  /** Topic names as configured by default in each producing service. */
  const TransactionsCreatedTopic: string := "transactions.created"
  const RiskScoredTopic: string := "risk.scored"
  const FraudDecisionMadeTopic: string := "fraud.decision.made"

  /** One record sent with `KafkaTemplate.send(topic, key, payload)`. */
  datatype Message<T> = Message(topic: string, key: string, payload: T)

  /** Appends one message; everything already published stays in place. */
  function Publish<T>(outbox: seq<Message<T>>, topic: string, key: string, payload: T): (r: seq<Message<T>>)
    ensures |r| == |outbox| + 1
    ensures r[..|outbox|] == outbox
    ensures r[|outbox|] == Message(topic, key, payload)
  {
    outbox + [Message(topic, key, payload)]
  }
}

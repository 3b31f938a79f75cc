/** The Kafka side shared by all processes, and the journal of what reached the endpoints. */
module Topics {
  import opened Domain
  import opened Lifecycle
  import HotStates

  class Broker {
    var messages: seq<Message>       // pending and slow lane
    var acked: set<nat>              // positions whose handler returned nil
    var stateLog: seq<StateRecord>   // compacted state topic
    var deliveries: seq<Ref>         // HTTP requests made
    var outcomes: seq<Outcome>       // terminal results
    ghost var book: Book             // history variable of the protocol

    constructor ()
      ensures messages == [] && acked == {} && stateLog == [] && deliveries == [] && outcomes == [] && book == map[]
    {
      messages, acked, stateLog, deliveries, outcomes, book := [], {}, [], [], [], map[];
    }
  }

  /** What a worker reports of a delivery: a status write, a published result, an outcome given to the circuit
      breaker. */
  datatype Report =
    | StatusSet(id: WebhookId, state: WebhookState, attempts: int)
    | ResultPublished(result: Ref, success: bool, shouldRetry: bool)
    | OutcomeRecorded(endpointHash: string, good: bool)

  class Journal {
    var reports: seq<Report>

    constructor ()
      ensures reports == []
    {
      reports := [];
    }
  }

  /** The protocol state that the live objects make up, given what schedulers hold in memory. */
  ghost function WorldOf(hot: HotStates.HotState, broker: Broker, hands: Hands): World
    requires hot.Valid()
    reads hot, broker
  {
    World(broker.messages, broker.acked, hot.View(), broker.stateLog, hands, broker.deliveries, broker.outcomes,
        broker.book)
  }
}

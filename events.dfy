/**
 * The events carried on the event bus and the bus itself: an append-only
 * log of (topic, key, event) records that the producers write to.
 */
module Events {
  import opened Common

  /** A vote as published by vote intake; never changed after publication. */
  datatype VoteRecordedEvent = VoteRecordedEvent(
    voteId: Uuid,
    pollId: Uuid,
    optionId: Uuid,
    userId: Uuid,
    timestamp: Instant)

  /** One option of a newly created poll, as announced on the bus. */
  datatype EventOption = EventOption(optionId: Uuid, text: string)

  /** A newly created poll, as announced on the bus. */
  datatype PollCreatedEvent = PollCreatedEvent(pollId: Uuid, title: string, options: seq<EventOption>)

  datatype BusEvent = VoteRecorded(vote: VoteRecordedEvent) | PollCreated(poll: PollCreatedEvent)

  datatype BusRecord = BusRecord(topic: string, key: string, event: BusEvent)

  const VotesTopic := "votes-topic"
  const PollsCreatedTopic := "polls-created-topic"

  /**
   * How the broker client treats one send: the record is accepted
   * (`Acknowledged`); the send returns but the record is lost later
   * (`Lost`, a failure of the asynchronous delivery nobody waits for); or
   * the send call itself throws before handing the record over (`Rejected`,
   * e.g. a serialization error or a metadata timeout).
   */
  datatype SendOutcome = Acknowledged | Lost | Rejected

  /** The exception a rejected send throws out of its caller. */
  const SendException := "KafkaException"

  /**
   * The event bus as the producers see it: only an acknowledged send
   * appends a record, exactly one; a lost or rejected one appends nothing.
   */
  class EventBus {
    var log: seq<BusRecord>

    constructor ()
      ensures log == []
    {
      log := [];
    }

    /** Sends one record; `threw` says whether the call itself threw. */
    method Send(topic: string, key: string, event: BusEvent, outcome: SendOutcome) returns (threw: bool)
      modifies this
      ensures threw <==> outcome == Rejected
      ensures log == old(log) + (if outcome == Acknowledged then [BusRecord(topic, key, event)] else [])
    {
      threw := outcome == Rejected;
      if outcome == Acknowledged {
        log := log + [BusRecord(topic, key, event)];
      }
    }
  }
}

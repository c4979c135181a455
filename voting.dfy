/**
 * Vote intake of the voting service: POST /votes builds a vote event from
 * the request body, the optional X-User-Id header and freshly generated
 * values, publishes it on the votes topic keyed by the poll id, and answers
 * 202 {"status":"queued"} without waiting for the publication.
 */
module Voting {
  import opened Common
  import opened Events

  datatype VoteRequest = VoteRequest(pollId: Uuid, optionId: Uuid)

  /**
   * The event for `req`. `parseUuid` is UUID.fromString (None where it
   * throws); `randomUserId` and `randomVoteId` are the two random UUIDs the
   * handler draws and `now` the current instant. A malformed header throws
   * before anything is built.
   */
  function BuildEvent(req: VoteRequest, userIdHeader: Option<string>, parseUuid: string -> Option<Uuid>,
                      randomUserId: Uuid, randomVoteId: Uuid, now: Instant): (r: Result<VoteRecordedEvent, string>)
    ensures userIdHeader.None? ==> r.Success? && r.value.userId == randomUserId
    ensures userIdHeader.Some? ==>
      (r.Success? <==> parseUuid(userIdHeader.value).Some?) &&
      (r.Success? ==> r.value.userId == parseUuid(userIdHeader.value).value)
    ensures r.Success? ==>
      r.value.pollId == req.pollId && r.value.optionId == req.optionId &&
      r.value.voteId == randomVoteId && r.value.timestamp == now
  {
    var userId :=
      if userIdHeader.Some? then parseUuid(userIdHeader.value) else Some(randomUserId);
    if userId.None? then Failure("IllegalArgumentException")
    else Success(VoteRecordedEvent(randomVoteId, req.pollId, req.optionId, userId.value, now))
  }

  const Queued := HttpResponse(202, map["status" := "queued"])

  /** The vote intake endpoint, writing to the shared event bus. */
  class VoteController {
    const bus: EventBus

    constructor (bus: EventBus)
      ensures this.bus == bus
    {
      this.bus := bus;
    }

    /**
     * Records a vote. `outcome` is what the broker client does with the
     * record: the reply is 202 unless the send call itself throws, and never
     * depends on whether the record is later lost.
     */
    method RecordVote(req: VoteRequest, userIdHeader: Option<string>, parseUuid: string -> Option<Uuid>,
                      randomUserId: Uuid, randomVoteId: Uuid, now: Instant, outcome: SendOutcome)
      returns (reply: Reply<HttpResponse>)
      modifies bus
      ensures var built := BuildEvent(req, userIdHeader, parseUuid, randomUserId, randomVoteId, now);
        && (built.Failure? ==> reply.Threw? && bus.log == old(bus.log))
        && (built.Success? ==> reply == if outcome == Rejected then Threw(SendException) else Returned(Queued))
        && (built.Success? ==>
              bus.log == old(bus.log) + (if outcome == Acknowledged then [BusRecord(VotesTopic, req.pollId, VoteRecorded(built.value))] else []))
      ensures var built := BuildEvent(req, userIdHeader, parseUuid, randomUserId, randomVoteId, now);
        VoteEvents(bus.log) == VoteEvents(old(bus.log)) + (if built.Success? && outcome == Acknowledged then [built.value] else [])
    {
      var built := BuildEvent(req, userIdHeader, parseUuid, randomUserId, randomVoteId, now);
      if built.Failure? {
        return Threw(built.error);
      }
      ghost var before := bus.log;
      var threw := bus.Send(VotesTopic, req.pollId, VoteRecorded(built.value), outcome);
      if outcome == Acknowledged {
        assert bus.log == before + [BusRecord(VotesTopic, built.value.pollId, VoteRecorded(built.value))];
        AcceptedVoteAddsOneEvent(before, built.value);
      } else {
        assert bus.log == before;
      }
      if threw {
        return Threw(SendException);
      }
      reply := Returned(Queued);
    }
  }

  /** Votes on the log: every record of the votes topic that carries a vote event, in log order. */
  function VoteEvents(log: seq<BusRecord>): (es: seq<VoteRecordedEvent>)
    ensures |es| <= |log|
    decreases |log|
  {
    if log == [] then []
    else
      var last := log[|log| - 1];
      VoteEvents(log[..|log| - 1]) + (if last.topic == VotesTopic && last.event.VoteRecorded? then [last.event.vote] else [])
  }

  /** Each accepted vote puts exactly one event on the votes topic, keyed by its poll id. */
  lemma {:induction false} AcceptedVoteAddsOneEvent(log: seq<BusRecord>, e: VoteRecordedEvent)
    ensures VoteEvents(log + [BusRecord(VotesTopic, e.pollId, VoteRecorded(e))]) == VoteEvents(log) + [e]
  {
    var log' := log + [BusRecord(VotesTopic, e.pollId, VoteRecorded(e))];
    assert log'[..|log'| - 1] == log;
  }
}

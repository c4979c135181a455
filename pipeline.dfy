/**
 * The vote pipeline end to end: vote intake publishes on the votes topic,
 * and the two consumer groups read the same records independently, the
 * tally aggregator (group "results-service") and the vote ledger (group
 * "voting-service"). Each group writes only its own state.
 */
module Pipeline {
  import opened Common
  import opened Events
  import opened Tally
  import opened Ledger
  import opened Voting

  /** Votes O1, O1, O2 on poll P through intake: three events on the votes topic, in that order. */
  method PublishThreeVotes(p: Uuid, o1: Uuid, o2: Uuid, voteIds: seq<Uuid>, userIds: seq<Uuid>,
                           now: Instant, parseUuid: string -> Option<Uuid>)
    returns (log: seq<BusRecord>)
    requires |voteIds| == 3 && |userIds| == 3
    ensures |log| == 3 && forall i :: 0 <= i < 3 ==> log[i].topic == VotesTopic && log[i].key == p && log[i].event.VoteRecorded?
    ensures log[0].event.vote.optionId == o1 && log[1].event.vote.optionId == o1 && log[2].event.vote.optionId == o2
    ensures forall i :: 0 <= i < 3 ==> log[i].event.vote.pollId == p && log[i].event.vote.voteId == voteIds[i]
  {
    var bus := new EventBus();
    var intake := new VoteController(bus);
    var r1 := intake.RecordVote(VoteRequest(p, o1), None, parseUuid, userIds[0], voteIds[0], now, Acknowledged);
    var r2 := intake.RecordVote(VoteRequest(p, o1), None, parseUuid, userIds[1], voteIds[1], now, Acknowledged);
    var r3 := intake.RecordVote(VoteRequest(p, o2), None, parseUuid, userIds[2], voteIds[2], now, Acknowledged);
    log := bus.log;
  }

  /**
   * The tally group handles the three events and then the first one again:
   * O1 = 3, O2 = 1, total = 4, four messages.
   */
  method TallyWithRedelivery(e1: VoteRecordedEvent, e2: VoteRecordedEvent, e3: VoteRecordedEvent)
    returns (total: int, count1: int, count2: int, messages: nat)
    requires e1.pollId == e2.pollId == e3.pollId
    requires e1.optionId == e2.optionId && e1.optionId != e3.optionId
    ensures total == 4 && count1 == 3 && count2 == 1 && messages == 4
  {
    var p, o1, o2 := e1.pollId, e1.optionId, e3.optionId;
    var listener := new ResultsListener();
    OptionKeyInjective(p, o1, p, o2);
    OptionKeyIsNotTotalKey(p, o1, p);
    OptionKeyIsNotTotalKey(p, o2, p);
    ghost var before := listener.counters;
    listener.HandleVote(e1, NoFault);
    AfterVoteEffect(before, e1, NoFault);
    before := listener.counters;
    listener.HandleVote(e2, NoFault);
    AfterVoteEffect(before, e2, NoFault);
    before := listener.counters;
    listener.HandleVote(e3, NoFault);
    AfterVoteEffect(before, e3, NoFault);
    before := listener.counters;
    listener.HandleVote(e1, NoFault);
    AfterVoteEffect(before, e1, NoFault);
    total := Count(listener.counters, TotalKey(p));
    count1 := Count(listener.counters, OptionKey(p, o1));
    count2 := Count(listener.counters, OptionKey(p, o2));
    messages := |listener.broadcast|;
  }

  /**
   * The ledger group handles the same four deliveries: four rows, the first
   * and the last being copies of the same event under different keys.
   */
  method LedgerWithRedelivery(e1: VoteRecordedEvent, e2: VoteRecordedEvent, e3: VoteRecordedEvent, rowIds: seq<Uuid>)
    returns (rows: seq<Vote>)
    requires |rowIds| == 4 && forall i, j :: 0 <= i < j < 4 ==> rowIds[i] != rowIds[j]
    ensures |rows| == 4 && rows[0].id != rows[3].id && rows[0].(id := rows[3].id) == rows[3]
    ensures rows[0].pollId == e1.pollId && rows[1].pollId == e2.pollId && rows[2].pollId == e3.pollId
  {
    var ledger := new VoteConsumer();
    ledger.Handle(e1, rowIds[0]);
    ledger.Handle(e2, rowIds[1]);
    ledger.Handle(e3, rowIds[2]);
    ledger.Handle(e1, rowIds[3]);
    rows := ledger.rows;
  }

  /**
   * Votes O1, O1, O2 on poll P go through intake and the bus to both groups,
   * and the first record is then delivered to both groups again: the tally
   * ends at O1 = 3, O2 = 1, total = 4 with four messages, and the ledger
   * holds four rows for three votes.
   */
  method ThreeVotesWithRedelivery(p: Uuid, o1: Uuid, o2: Uuid, voteIds: seq<Uuid>, userIds: seq<Uuid>,
                                  rowIds: seq<Uuid>, now: Instant, parseUuid: string -> Option<Uuid>)
    returns (total: int, count1: int, count2: int, messages: nat, rows: seq<Vote>)
    requires o1 != o2
    requires |voteIds| == 3 && |userIds| == 3
    requires |rowIds| == 4 && forall i, j :: 0 <= i < j < 4 ==> rowIds[i] != rowIds[j]
    ensures total == 4 && count1 == 3 && count2 == 1 && messages == 4
    ensures |rows| == 4 && rows[0].(id := rows[3].id) == rows[3]
    ensures forall i :: 0 <= i < 4 ==> rows[i].pollId == p
  {
    var log := PublishThreeVotes(p, o1, o2, voteIds, userIds, now, parseUuid);
    var e1, e2, e3 := log[0].event.vote, log[1].event.vote, log[2].event.vote;
    total, count1, count2, messages := TallyWithRedelivery(e1, e2, e3);
    rows := LedgerWithRedelivery(e1, e2, e3, rowIds);
  }
}

/**
 * The vote ledger of the voting service: a second, independent consumer of
 * the votes topic (consumer group "voting-service") that copies every event
 * it is handed into a new row of the votes table. The row's primary key is
 * generated by the store; the event's voteId is not stored and not consulted,
 * so a redelivered event becomes a second row.
 */
module Ledger {
  import opened Common
  import opened Events

  /** A row of the votes table. */
  datatype Vote = Vote(id: Uuid, pollId: Uuid, optionId: Uuid, userId: Uuid, createdAt: Instant)

  /** The row built for `e`, with the store-generated key `id`. */
  function ToVote(id: Uuid, e: VoteRecordedEvent): (v: Vote)
    ensures v.id == id
    ensures v.pollId == e.pollId && v.optionId == e.optionId && v.userId == e.userId && v.createdAt == e.timestamp
  {
    Vote(id, e.pollId, e.optionId, e.userId, e.timestamp)
  }

  /** Rows carry pairwise distinct primary keys. */
  ghost predicate KeysDistinct(rows: seq<Vote>) {
    forall i, j :: 0 <= i < j < |rows| ==> rows[i].id != rows[j].id
  }

  /** One delivery of an event to the ledger, with the key the store generates for its row. */
  datatype LedgerDelivery = LedgerDelivery(event: VoteRecordedEvent, generatedId: Uuid)

  /** The rows written by a sequence of deliveries, in delivery order. */
  function Rows(ds: seq<LedgerDelivery>): seq<Vote>
    decreases |ds|
  {
    if ds == [] then [] else Rows(ds[..|ds| - 1]) + [ToVote(ds[|ds| - 1].generatedId, ds[|ds| - 1].event)]
  }

  /**
   * One row per delivery, in order, each a copy of its event under the key
   * the store generated for it; with fresh keys the rows' keys stay distinct.
   */
  lemma {:induction false} RowsMatchDeliveries(ds: seq<LedgerDelivery>)
    ensures |Rows(ds)| == |ds|
    ensures forall i :: 0 <= i < |ds| ==> Rows(ds)[i] == ToVote(ds[i].generatedId, ds[i].event)
    ensures (forall i, j :: 0 <= i < j < |ds| ==> ds[i].generatedId != ds[j].generatedId) ==> KeysDistinct(Rows(ds))
    decreases |ds|
  {
    if ds != [] {
      RowsMatchDeliveries(ds[..|ds| - 1]);
    }
  }

  /**
   * Delivering the same event twice leaves two rows that differ only in
   * their generated keys: the ledger does not deduplicate by voteId.
   */
  lemma RedeliveryAddsSecondRow(e: VoteRecordedEvent, id1: Uuid, id2: Uuid)
    requires id1 != id2
    ensures var rows := Rows([LedgerDelivery(e, id1), LedgerDelivery(e, id2)]);
      && |rows| == 2
      && rows[0].id != rows[1].id
      && rows[0].(id := id2) == rows[1]
      && rows[1].pollId == e.pollId && rows[1].userId == e.userId
  {
    RowsMatchDeliveries([LedgerDelivery(e, id1), LedgerDelivery(e, id2)]);
  }

  /** Events that differ only in voteId give identical rows: the voteId is never read. */
  lemma VoteIdIgnored(id: Uuid, e: VoteRecordedEvent, otherVoteId: Uuid)
    ensures ToVote(id, e.(voteId := otherVoteId)) == ToVote(id, e)
  {
  }

  /** The ledger consumer and the table it writes to. */
  class VoteConsumer {
    var rows: seq<Vote>
    ghost var deliveries: seq<LedgerDelivery>

    ghost predicate Valid()
      reads this
    {
      rows == Rows(deliveries) && KeysDistinct(rows)
    }

    constructor ()
      ensures Valid() && rows == [] && deliveries == []
    {
      rows := [];
      deliveries := [];
    }

    /**
     * Handles one event. `generatedId` is the key the store generates for
     * the new row, which is never one already in the table.
     */
    method Handle(e: VoteRecordedEvent, generatedId: Uuid)
      requires Valid()
      requires forall i :: 0 <= i < |rows| ==> rows[i].id != generatedId
      modifies this
      ensures Valid()
      ensures deliveries == old(deliveries) + [LedgerDelivery(e, generatedId)]
      ensures rows == old(rows) + [ToVote(generatedId, e)]
    {
      var v := Vote(generatedId, e.pollId, e.optionId, e.userId, e.timestamp);
      rows := rows + [v];
      deliveries := deliveries + [LedgerDelivery(e, generatedId)];
      assert deliveries[..|deliveries| - 1] == old(deliveries);
    }
  }
}

/**
 * Poll creation and lookup in the polls service. POST /api/polls stores a
 * poll with one option per requested text, in order, and announces it on
 * the polls-created topic keyed by the poll id; GET /api/polls/{id} and
 * GET /api/polls read the poll table. An option refers back to its poll by
 * the poll's id.
 */
module Polls {
  import opened Common
  import opened Events

  datatype PollOption = PollOption(id: Uuid, pollId: Uuid, text: string)

  datatype Poll = Poll(id: Uuid, title: string, createdBy: string, options: seq<PollOption>)

  datatype CreatePollRequest = CreatePollRequest(title: string, options: seq<string>)

  const Anonymous := "anonymous"

  /**
   * The poll saved for `req`: `pollId` and `optionIds` are the keys the store
   * generates for the poll and for its options, one per requested text.
   */
  function NewPoll(req: CreatePollRequest, userIdHeader: Option<string>, pollId: Uuid, optionIds: seq<Uuid>): (p: Poll)
    requires |optionIds| == |req.options|
    ensures p.id == pollId && p.title == req.title
    ensures p.createdBy == if userIdHeader.Some? then userIdHeader.value else Anonymous
    ensures |p.options| == |req.options|
    ensures forall i :: 0 <= i < |p.options| ==>
      p.options[i].text == req.options[i] && p.options[i].pollId == pollId && p.options[i].id == optionIds[i]
  {
    var createdBy := if userIdHeader.Some? then userIdHeader.value else Anonymous;
    var options := seq(|req.options|, i requires 0 <= i < |req.options| => PollOption(optionIds[i], pollId, req.options[i]));
    Poll(pollId, title := req.title, createdBy := createdBy, options := options)
  }

  /** The announcement of a saved poll: its id, title and options' (id, text) pairs in order. */
  function CreatedEvent(p: Poll): (e: PollCreatedEvent)
    ensures e.pollId == p.id && e.title == p.title && |e.options| == |p.options|
    ensures forall i :: 0 <= i < |p.options| ==> e.options[i] == EventOption(p.options[i].id, p.options[i].text)
  {
    PollCreatedEvent(p.id, p.title, seq(|p.options|, i requires 0 <= i < |p.options| => EventOption(p.options[i].id, p.options[i].text)))
  }

  function EventTexts(options: seq<EventOption>): (texts: seq<string>)
    ensures |texts| == |options|
    ensures forall i :: 0 <= i < |options| ==> texts[i] == options[i].text
  {
    seq(|options|, i requires 0 <= i < |options| => options[i].text)
  }

  /** The announced event lists exactly the requested option texts, in request order, under the stored ids. */
  lemma AnnouncedOptionsMatchRequest(req: CreatePollRequest, userIdHeader: Option<string>, pollId: Uuid, optionIds: seq<Uuid>)
    requires |optionIds| == |req.options|
    ensures var e := CreatedEvent(NewPoll(req, userIdHeader, pollId, optionIds));
      && e.pollId == pollId && e.title == req.title
      && EventTexts(e.options) == req.options
      && forall i :: 0 <= i < |e.options| ==> e.options[i].optionId == optionIds[i]
  {
    var e := CreatedEvent(NewPoll(req, userIdHeader, pollId, optionIds));
    assert forall i :: 0 <= i < |req.options| ==> EventTexts(e.options)[i] == req.options[i];
  }

  /** Every stored poll is filed under its own id and each of its options refers back to it. */
  ghost predicate TableConsistent(polls: map<Uuid, Poll>) {
    forall id :: id in polls ==>
      polls[id].id == id &&
      forall i :: 0 <= i < |polls[id].options| ==> polls[id].options[i].pollId == id
  }

  datatype Found = Ok(poll: Poll) | NotFound

  /** GET /api/polls/{id}: the stored poll, or 404. */
  function Get(polls: map<Uuid, Poll>, id: Uuid): (r: Found)
    ensures r.Ok? <==> id in polls
    ensures r.Ok? ==> r.poll == polls[id]
  {
    if id in polls then Ok(polls[id]) else NotFound
  }

  /** GET /api/polls: every stored poll (the order is the store's and is not modelled). */
  function List(polls: map<Uuid, Poll>): (r: set<Poll>)
    ensures forall p :: p in r <==> exists id :: id in polls && polls[id] == p
  {
    polls.Values
  }

  /** A lookup by id after creating a poll finds that poll; polls already stored are still found unchanged. */
  lemma GetAfterCreate(polls: map<Uuid, Poll>, p: Poll, id: Uuid)
    ensures Get(polls[p.id := p], p.id) == Ok(p)
    ensures id != p.id ==> Get(polls[p.id := p], id) == Get(polls, id)
  {
  }

  /** The poll controller, its poll table and the event bus it publishes to. */
  class PollController {
    var polls: map<Uuid, Poll>
    const bus: EventBus

    ghost predicate Valid()
      reads this
    {
      TableConsistent(polls)
    }

    constructor (bus: EventBus)
      ensures Valid() && polls == map[] && this.bus == bus
    {
      polls := map[];
      this.bus := bus;
    }

    /**
     * POST /api/polls. `pollId` is the fresh key the store generates for the
     * poll and `optionIds` those it generates for the options; `outcome` is
     * what the broker client does with the announcement. The poll is saved
     * before the send, so it stays stored even when the send call throws and
     * the caller gets the exception instead of the saved poll.
     */
    method Create(req: CreatePollRequest, userIdHeader: Option<string>, pollId: Uuid, optionIds: seq<Uuid>,
                  outcome: SendOutcome)
      returns (reply: Reply<Poll>)
      requires Valid()
      requires pollId !in polls
      requires |optionIds| == |req.options|
      modifies this, bus
      ensures Valid()
      ensures var saved := NewPoll(req, userIdHeader, pollId, optionIds);
        && polls == old(polls)[pollId := saved]
        && reply == (if outcome == Rejected then Threw(SendException) else Returned(saved))
        && bus.log == old(bus.log) +
             (if outcome == Acknowledged then [BusRecord(PollsCreatedTopic, pollId, PollCreated(CreatedEvent(saved)))] else [])
    {
      var poll := NewPoll(req, userIdHeader, pollId, optionIds);
      polls := polls[pollId := poll];
      var saved := poll;
      var threw := bus.Send(PollsCreatedTopic, saved.id, PollCreated(CreatedEvent(saved)), outcome);
      if threw {
        return Threw(SendException);
      }
      reply := Returned(saved);
    }
  }
}

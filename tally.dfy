/**
 * The tally aggregator of the results service. For every vote event taken
 * from the votes topic (consumer group "results-service") it increments the
 * poll's total counter and the (poll, option) counter in the shared counter
 * store, then hands one {pollId, optionId, optionCount} message to the
 * STOMP broker under the poll's destination. Every exception is caught and
 * logged, so a failure part-way leaves the earlier steps in place.
 */
module Tally {
  import opened Common
  import opened Events

  // ---------------------------------------------------------------------
  // The counter store (a Redis string store): absent keys read as 0 and
  // INCR creates a missing counter before adding one.
  // ---------------------------------------------------------------------

  function Count(counters: map<string, int>, key: string): int {
    if key in counters then counters[key] else 0
  }

  function Incr(counters: map<string, int>, key: string): map<string, int> {
    counters[key := Count(counters, key) + 1]
  }

  // ---------------------------------------------------------------------
  // Counter keys
  // ---------------------------------------------------------------------

  function PollKey(pollId: string): string {
    "poll:" + pollId
  }

  function TotalKey(pollId: string): string {
    PollKey(pollId) + ":total"
  }

  function OptionKey(pollId: string, optionId: string): string {
    PollKey(pollId) + ":option:" + optionId
  }

  /** Position of the first ':' in `s`, or |s| when there is none. */
  function ColonIndex(s: string): nat
    decreases |s|
  {
    if s == [] || s[0] == ':' then 0 else 1 + ColonIndex(s[1..])
  }

  lemma {:induction false} ColonIndexAfter(a: string, b: string)
    requires ColonFree(a)
    ensures ColonIndex(a + ":" + b) == |a|
    decreases |a|
  {
    if a != [] {
      assert (a + ":" + b)[1..] == a[1..] + ":" + b;
      ColonIndexAfter(a[1..], b);
    }
  }

  /** A string cut at its first ':' determines both halves. */
  lemma SplitAtFirstColon(a: string, b: string, a': string, b': string)
    requires ColonFree(a) && ColonFree(a')
    requires a + ":" + b == a' + ":" + b'
    ensures a == a' && b == b'
  {
    var s := a + ":" + b;
    ColonIndexAfter(a, b);
    ColonIndexAfter(a', b');
    assert |a| == |a'|;
    assert a == s[..|a|] == a';
    assert b == s[|a| + 1..] == b';
  }

  lemma StripPollPrefix(x: string, y: string)
    requires "poll:" + x == "poll:" + y
    ensures x == y
  {
    assert x == ("poll:" + x)[5..];
  }

  /**
   * Two votes update the same option counter only when they are for the same
   * poll and the same option. Only the poll ids need to be free of ':'.
   */
  lemma OptionKeyInjective(p: string, o: string, p': string, o': string)
    requires ColonFree(p) && ColonFree(p')
    ensures OptionKey(p, o) == OptionKey(p', o') <==> p == p' && o == o'
  {
    if OptionKey(p, o) == OptionKey(p', o') {
      assert "poll:" + (p + ":" + ("option:" + o)) == OptionKey(p, o);
      assert "poll:" + (p' + ":" + ("option:" + o')) == OptionKey(p', o');
      StripPollPrefix(p + ":" + ("option:" + o), p' + ":" + ("option:" + o'));
      SplitAtFirstColon(p, "option:" + o, p', "option:" + o');
      assert o == ("option:" + o)[7..];
    }
  }

  /** Distinct polls have distinct total counters. */
  lemma TotalKeyInjective(p: string, p': string)
    ensures TotalKey(p) == TotalKey(p') <==> p == p'
  {
    if TotalKey(p) == TotalKey(p') {
      assert |p| == |p'|;
      assert p == TotalKey(p)[5..5 + |p|];
    }
  }

  /** No option counter is ever a total counter. */
  lemma OptionKeyIsNotTotalKey(p: string, o: string, p': string)
    requires ColonFree(p) && ColonFree(p')
    ensures OptionKey(p, o) != TotalKey(p')
  {
    var s, t := OptionKey(p, o), TotalKey(p');
    assert s[5..] == p + ":" + ("option:" + o);
    assert t[5..] == p' + ":" + "total";
    ColonIndexAfter(p, "option:" + o);
    ColonIndexAfter(p', "total");
    if |p| == |p'| {
      assert s[5 + |p| + 1] == 'o' && t[5 + |p| + 1] == 't';
    }
  }

  /** Without the separator condition the keys collide: an option counter can be some poll's total counter. */
  lemma ColonInPollIdCollides()
    ensures OptionKey("a", "b:total") == TotalKey("a:option:b")
  {
  }

  // ---------------------------------------------------------------------
  // Messages to the broker
  // ---------------------------------------------------------------------

  /** The simple broker relays every destination under this prefix. */
  const BrokerPrefix := "/topic"

  function ResultsDestination(pollId: string): (d: string)
    ensures |BrokerPrefix| <= |d| && d[..|BrokerPrefix|] == BrokerPrefix
  {
    "/topic/poll-results/" + pollId
  }

  datatype TallyPayload = TallyPayload(pollId: Uuid, optionId: Uuid, optionCount: int)

  datatype Broadcast = Broadcast(destination: string, payload: TallyPayload)

  // ---------------------------------------------------------------------
  // Handling one vote event
  // ---------------------------------------------------------------------

  /**
   * How far the effects of handling one event get: all of them
   * (`NoFault`), none (`TotalIncrementThrows`), the total increment only
   * (`OptionIncrementThrows`), both increments but no message
   * (`SendThrows`), or everything with a null reply to the option increment
   * (`NullOptionReply`). An exception from a call is caught by the handler
   * and stops it there. A call that takes effect and then throws (an
   * increment the store applied whose reply was lost) is labelled like the
   * next call throwing: its effects are those of the following label.
   */
  datatype Fault =
    | NoFault
    | TotalIncrementThrows
    | OptionIncrementThrows
    | NullOptionReply
    | SendThrows

  predicate ReachesTotal(f: Fault) {
    f != TotalIncrementThrows
  }

  predicate ReachesOption(f: Fault) {
    f != TotalIncrementThrows && f != OptionIncrementThrows
  }

  predicate Sends(f: Fault) {
    f == NoFault || f == NullOptionReply
  }

  datatype Delivery = Delivery(event: VoteRecordedEvent, fault: Fault)

  /** The counter store after a step, and the messages the step handed to the broker. */
  datatype Handled = Handled(counters: map<string, int>, sent: seq<Broadcast>)

  /** The effect of handling event `e` on the store `counters` when the step meets `fault`. */
  function AfterVote(counters: map<string, int>, e: VoteRecordedEvent, fault: Fault): Handled {
    if fault == TotalIncrementThrows then Handled(counters, [])
    else
      var afterTotal := Incr(counters, TotalKey(e.pollId));
      if fault == OptionIncrementThrows then Handled(afterTotal, [])
      else
        var afterOption := Incr(afterTotal, OptionKey(e.pollId, e.optionId));
        var optionCount := if fault == NullOptionReply then 0 else afterOption[OptionKey(e.pollId, e.optionId)];
        if fault == SendThrows then Handled(afterOption, [])
        else Handled(afterOption, [Broadcast(ResultsDestination(e.pollId), TallyPayload(e.pollId, e.optionId, optionCount))])
  }

  /**
   * One handled event adds exactly 1 to the poll's total counter (unless that
   * increment throws) and exactly 1 to its option counter (unless an earlier
   * step throws); every other counter keeps its presence and value; at most
   * one message is sent, to the poll's destination, carrying the event's ids
   * and the option counter just reached (0 on a null reply).
   */
  lemma AfterVoteEffect(counters: map<string, int>, e: VoteRecordedEvent, fault: Fault)
    ensures var h := AfterVote(counters, e, fault);
      && Count(h.counters, TotalKey(e.pollId)) == Count(counters, TotalKey(e.pollId)) + (if ReachesTotal(fault) then 1 else 0)
      && Count(h.counters, OptionKey(e.pollId, e.optionId)) == Count(counters, OptionKey(e.pollId, e.optionId)) + (if ReachesOption(fault) then 1 else 0)
      && (ReachesTotal(fault) ==> TotalKey(e.pollId) in h.counters)
      && (ReachesOption(fault) ==> OptionKey(e.pollId, e.optionId) in h.counters)
    ensures var h := AfterVote(counters, e, fault);
      forall k :: k != TotalKey(e.pollId) && k != OptionKey(e.pollId, e.optionId) ==>
        (k in h.counters <==> k in counters) && (k in counters ==> h.counters[k] == counters[k])
    ensures var h := AfterVote(counters, e, fault);
      && |h.sent| == (if Sends(fault) then 1 else 0)
      && (Sends(fault) ==> h.sent[0] == Broadcast(ResultsDestination(e.pollId),
            TallyPayload(e.pollId, e.optionId,
              if fault == NullOptionReply then 0 else Count(h.counters, OptionKey(e.pollId, e.optionId)))))
  {
    OptionKeyIsNotTotalKey(e.pollId, e.optionId, e.pollId);
  }

  /** A redelivered event is counted again: both counters grow by 2 and two messages go out. */
  lemma RedeliveryCountsTwice(counters: map<string, int>, e: VoteRecordedEvent)
    ensures var first := AfterVote(counters, e, NoFault);
      var second := AfterVote(first.counters, e, NoFault);
      && Count(second.counters, TotalKey(e.pollId)) == Count(counters, TotalKey(e.pollId)) + 2
      && Count(second.counters, OptionKey(e.pollId, e.optionId)) == Count(counters, OptionKey(e.pollId, e.optionId)) + 2
      && |first.sent + second.sent| == 2
      && (first.sent + second.sent)[1].payload.optionCount == (first.sent + second.sent)[0].payload.optionCount + 1
  {
    var first := AfterVote(counters, e, NoFault);
    AfterVoteEffect(counters, e, NoFault);
    AfterVoteEffect(first.counters, e, NoFault);
  }

  // ---------------------------------------------------------------------
  // A history of deliveries, replayed from an empty store
  // ---------------------------------------------------------------------

  function Replay(ds: seq<Delivery>): Handled
    decreases |ds|
  {
    if ds == [] then Handled(map[], [])
    else
      var before := Replay(ds[..|ds| - 1]);
      var step := AfterVote(before.counters, ds[|ds| - 1].event, ds[|ds| - 1].fault);
      Handled(step.counters, before.sent + step.sent)
  }

  /** Deliveries for poll `p` whose total increment took place. */
  function TotalIncrements(ds: seq<Delivery>, p: Uuid): nat
    decreases |ds|
  {
    if ds == [] then 0
    else
      var d := ds[|ds| - 1];
      TotalIncrements(ds[..|ds| - 1], p) + (if d.event.pollId == p && ReachesTotal(d.fault) then 1 else 0)
  }

  /** Deliveries for poll `p` and option `o` whose option increment took place. */
  function OptionIncrements(ds: seq<Delivery>, p: Uuid, o: Uuid): nat
    decreases |ds|
  {
    if ds == [] then 0
    else
      var d := ds[|ds| - 1];
      OptionIncrements(ds[..|ds| - 1], p, o) + (if d.event.pollId == p && d.event.optionId == o && ReachesOption(d.fault) then 1 else 0)
  }

  /** Deliveries for poll `p` whose effects stopped after the total increment (`OptionIncrementThrows`). */
  function Stranded(ds: seq<Delivery>, p: Uuid): nat
    decreases |ds|
  {
    if ds == [] then 0
    else
      var d := ds[|ds| - 1];
      Stranded(ds[..|ds| - 1], p) + (if d.event.pollId == p && d.fault == OptionIncrementThrows then 1 else 0)
  }

  /** Deliveries that reached the broker. */
  function SentCount(ds: seq<Delivery>): nat
    decreases |ds|
  {
    if ds == [] then 0 else SentCount(ds[..|ds| - 1]) + (if Sends(ds[|ds| - 1].fault) then 1 else 0)
  }

  /**
   * Every counter equals the number of deliveries that incremented it, and
   * the broker received exactly one message per delivery that got that far,
   * each addressed to the destination of the poll it reports on.
   */
  lemma {:induction false} ReplayCounts(ds: seq<Delivery>, p: Uuid, o: Uuid)
    ensures Count(Replay(ds).counters, TotalKey(p)) == TotalIncrements(ds, p)
    ensures Count(Replay(ds).counters, OptionKey(p, o)) == OptionIncrements(ds, p, o)
    ensures |Replay(ds).sent| == SentCount(ds)
    ensures forall i :: 0 <= i < |Replay(ds).sent| ==>
      Replay(ds).sent[i].destination == ResultsDestination(Replay(ds).sent[i].payload.pollId)
  {
    if ds != [] {
      var init := ds[..|ds| - 1];
      var d := ds[|ds| - 1];
      var before := Replay(init);
      ReplayCounts(init, p, o);
      AfterVoteEffect(before.counters, d.event, d.fault);
      TotalKeyInjective(d.event.pollId, p);
      OptionKeyInjective(d.event.pollId, d.event.optionId, p, o);
      OptionKeyIsNotTotalKey(d.event.pollId, d.event.optionId, p);
      OptionKeyIsNotTotalKey(p, o, d.event.pollId);
    }
  }

  /** Sum of the option counters of poll `p` over the options `opts`. */
  function OptionCounterSum(counters: map<string, int>, p: Uuid, opts: seq<Uuid>): int
    decreases |opts|
  {
    if opts == [] then 0 else Count(counters, OptionKey(p, opts[0])) + OptionCounterSum(counters, p, opts[1..])
  }

  /** Sum over `opts` of the option increments of poll `p`. */
  function OptionIncrementSum(ds: seq<Delivery>, p: Uuid, opts: seq<Uuid>): nat
    decreases |opts|
  {
    if opts == [] then 0 else OptionIncrements(ds, p, opts[0]) + OptionIncrementSum(ds, p, opts[1..])
  }

  predicate Distinct(opts: seq<Uuid>) {
    forall i, j :: 0 <= i < j < |opts| ==> opts[i] != opts[j]
  }

  lemma {:induction false} CounterSumIsIncrementSum(ds: seq<Delivery>, p: Uuid, opts: seq<Uuid>)
    ensures OptionCounterSum(Replay(ds).counters, p, opts) == OptionIncrementSum(ds, p, opts)
    decreases |opts|
  {
    if opts != [] {
      ReplayCounts(ds, p, opts[0]);
      CounterSumIsIncrementSum(ds, p, opts[1..]);
    }
  }

  /** Appending one delivery raises the option sum by one exactly when it increments one of the listed options of `p`. */
  lemma {:induction false} IncrementSumStep(ds: seq<Delivery>, d: Delivery, p: Uuid, opts: seq<Uuid>)
    requires Distinct(opts)
    ensures OptionIncrementSum(ds + [d], p, opts) ==
      OptionIncrementSum(ds, p, opts) + (if d.event.pollId == p && d.event.optionId in opts && ReachesOption(d.fault) then 1 else 0)
    decreases |opts|
  {
    assert (ds + [d])[..|ds + [d]| - 1] == ds;
    if opts != [] {
      assert Distinct(opts[1..]);
      IncrementSumStep(ds, d, p, opts[1..]);
      assert d.event.optionId in opts <==> d.event.optionId == opts[0] || d.event.optionId in opts[1..];
      assert d.event.optionId == opts[0] ==> d.event.optionId !in opts[1..];
    }
  }

  lemma {:induction false} NoDeliveriesNoIncrements(p: Uuid, opts: seq<Uuid>)
    ensures OptionIncrementSum([], p, opts) == 0
    decreases |opts|
  {
    if opts != [] {
      NoDeliveriesNoIncrements(p, opts[1..]);
    }
  }

  lemma {:induction false} IncrementsBalance(ds: seq<Delivery>, p: Uuid, opts: seq<Uuid>)
    requires Distinct(opts)
    requires forall d :: d in ds && d.event.pollId == p && ReachesOption(d.fault) ==> d.event.optionId in opts
    ensures TotalIncrements(ds, p) == OptionIncrementSum(ds, p, opts) + Stranded(ds, p)
    decreases |ds|
  {
    if ds == [] {
      NoDeliveriesNoIncrements(p, opts);
    } else {
      var init := ds[..|ds| - 1];
      var d := ds[|ds| - 1];
      assert ds == init + [d];
      assert forall x :: x in init ==> x in ds;
      assert d in ds;
      assert d.event.pollId == p && ReachesOption(d.fault) ==> d.event.optionId in opts;
      IncrementsBalance(init, p, opts);
      IncrementSumStep(init, d, p, opts);
      assert TotalIncrements(ds, p) == TotalIncrements(init, p) + (if d.event.pollId == p && ReachesTotal(d.fault) then 1 else 0);
      assert Stranded(ds, p) == Stranded(init, p) + (if d.event.pollId == p && d.fault == OptionIncrementThrows then 1 else 0);
      assert OptionIncrementSum(ds, p, opts) == OptionIncrementSum(init, p, opts) + (if d.event.pollId == p && d.event.optionId in opts && ReachesOption(d.fault) then 1 else 0);
    }
  }

  /**
   * A poll's total counter equals the sum of its option counters plus the
   * number of its deliveries that failed between the two increments; so
   * with no such failure the total is exactly the sum of the option counters.
   * `opts` lists (without repetition) every option that was voted for.
   */
  lemma TotalIsOptionSumPlusStranded(ds: seq<Delivery>, p: Uuid, opts: seq<Uuid>)
    requires Distinct(opts)
    requires forall d :: d in ds && d.event.pollId == p && ReachesOption(d.fault) ==> d.event.optionId in opts
    ensures Count(Replay(ds).counters, TotalKey(p)) == OptionCounterSum(Replay(ds).counters, p, opts) + Stranded(ds, p)
    ensures Stranded(ds, p) == 0 ==> Count(Replay(ds).counters, TotalKey(p)) == OptionCounterSum(Replay(ds).counters, p, opts)
  {
    ReplayCounts(ds, p, p);
    CounterSumIsIncrementSum(ds, p, opts);
    IncrementsBalance(ds, p, opts);
  }

  /** Votes O1, O1, O2 on poll P leave O1 = 2, O2 = 1, total = 3 and send three messages reporting 1, 2 and 1. */
  lemma ThreeVotesScenario(e1: VoteRecordedEvent, e2: VoteRecordedEvent, e3: VoteRecordedEvent)
    requires e1.pollId == e2.pollId == e3.pollId
    requires e1.optionId == e2.optionId && e3.optionId != e1.optionId
    ensures var r := Replay([Delivery(e1, NoFault), Delivery(e2, NoFault), Delivery(e3, NoFault)]);
      && Count(r.counters, OptionKey(e1.pollId, e1.optionId)) == 2
      && Count(r.counters, OptionKey(e1.pollId, e3.optionId)) == 1
      && Count(r.counters, TotalKey(e1.pollId)) == 3
      && |r.sent| == 3
      && r.sent[0].payload.optionCount == 1
      && r.sent[1].payload.optionCount == 2
      && r.sent[2].payload.optionCount == 1
      && forall i :: 0 <= i < 3 ==> r.sent[i].destination == ResultsDestination(e1.pollId)
  {
    var p, o1, o2 := e1.pollId, e1.optionId, e3.optionId;
    var ds := [Delivery(e1, NoFault), Delivery(e2, NoFault), Delivery(e3, NoFault)];
    assert ds[..2] == [Delivery(e1, NoFault), Delivery(e2, NoFault)];
    assert ds[..2][..1] == [Delivery(e1, NoFault)];
    assert ds[..2][..1][..0] == [];
    OptionKeyInjective(p, o1, p, o2);
    OptionKeyIsNotTotalKey(p, o1, p);
    OptionKeyIsNotTotalKey(p, o2, p);
    var r0 := Replay([]);
    var s1 := AfterVote(r0.counters, e1, NoFault);
    AfterVoteEffect(r0.counters, e1, NoFault);
    assert Replay(ds[..1]) == Handled(s1.counters, s1.sent);
    assert Count(s1.counters, OptionKey(p, o1)) == 1 && Count(s1.counters, OptionKey(p, o2)) == 0;
    var s2 := AfterVote(s1.counters, e2, NoFault);
    AfterVoteEffect(s1.counters, e2, NoFault);
    assert Replay(ds[..2]) == Handled(s2.counters, s1.sent + s2.sent);
    assert Count(s2.counters, OptionKey(p, o1)) == 2 && Count(s2.counters, OptionKey(p, o2)) == 0;
    var s3 := AfterVote(s2.counters, e3, NoFault);
    AfterVoteEffect(s2.counters, e3, NoFault);
    assert Replay(ds) == Handled(s3.counters, s1.sent + s2.sent + s3.sent);
  }

  // ---------------------------------------------------------------------
  // The listener
  // ---------------------------------------------------------------------

  /**
   * The results service's listener together with the state it writes to:
   * the counter store and the log of messages handed to the broker.
   * `deliveries` records every event handled so far and the fault met.
   */
  class ResultsListener {
    var counters: map<string, int>
    var broadcast: seq<Broadcast>
    ghost var deliveries: seq<Delivery>

    /** The store and the broker log are what replaying the handled deliveries gives. */
    ghost predicate Valid()
      reads this
    {
      Replay(deliveries) == Handled(counters, broadcast)
    }

    constructor ()
      ensures Valid() && deliveries == [] && counters == map[] && broadcast == []
    {
      counters := map[];
      broadcast := [];
      deliveries := [];
    }

    /** Handles one event; returns normally whatever the store or the broker does. */
    method HandleVote(e: VoteRecordedEvent, fault: Fault)
      requires Valid()
      modifies this
      ensures Valid()
      ensures deliveries == old(deliveries) + [Delivery(e, fault)]
      ensures counters == AfterVote(old(counters), e, fault).counters
      ensures broadcast == old(broadcast) + AfterVote(old(counters), e, fault).sent
    {
      deliveries := deliveries + [Delivery(e, fault)];
      assert deliveries[..|deliveries| - 1] == old(deliveries);
      var pollKey := PollKey(e.pollId);
      var optionKey := pollKey + ":option:" + e.optionId;
      if fault == TotalIncrementThrows {
        return;
      }
      counters := Incr(counters, pollKey + ":total");
      if fault == OptionIncrementThrows {
        return;
      }
      counters := Incr(counters, optionKey);
      var reply: Option<int> := if fault == NullOptionReply then None else Some(counters[optionKey]);
      var payload := TallyPayload(e.pollId, e.optionId, if reply.None? then 0 else reply.value);
      var destination := ResultsDestination(e.pollId);
      if fault == SendThrows {
        return;
      }
      broadcast := broadcast + [Broadcast(destination, payload)];
    }
  }
}

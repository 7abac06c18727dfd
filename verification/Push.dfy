/**
 * Push notifications: `notifyPrincipal` of apps/api/src/push-send.ts. The vendor's answers and the clock are
 * inputs; calls for one person do not overlap, and an exception outside the per-subscription handler is left out.
 */
module Push {
  import opened Prelude

  const THROTTLE_PER_HOUR: nat := 20
  const HOUR: nat := 3600

  datatype Outcome = Delivered | RefusedEndpoint | RefusedThrottle | Failed | Gone

  datatype Send = Send(principal: string, urgency: string, outcome: Outcome, at: int)

  /** `origin` is what a URL parser makes of `endpoint`, if anything. */
  datatype Subscription = Subscription(principal: string, endpoint: string, origin: Option<string>)

  /** What the vendor answers and when the row about it is written. */
  datatype Reply = Reply(accepted: bool, status: int, at: int)

  predicate Sending(urgency: string) {
    urgency == "BLOCKER" || urgency == "DECISION"
  }

  function SubscriptionsFor(subs: seq<Subscription>, principal: string): seq<Subscription> {
    if subs == [] then []
    else
      var last := subs[|subs| - 1];
      SubscriptionsFor(subs[..|subs| - 1], principal) + (if last.principal == principal then [last] else [])
  }

  /** Each subscription of the person's is among them as often as it is stored, and no other. */
  lemma {:induction false} EachSubscriptionOnce(subs: seq<Subscription>, principal: string, sub: Subscription)
    ensures multiset(SubscriptionsFor(subs, principal))[sub]
         == if sub.principal == principal then multiset(subs)[sub] else 0
  {
    if subs != [] {
      var init, last := subs[..|subs| - 1], subs[|subs| - 1];
      EachSubscriptionOnce(init, principal, sub);
      assert subs == init + [last];
    }
  }

  /** Deliveries to `principal` recorded after `cutoff`. */
  function DeliveredAfter(sends: seq<Send>, principal: string, cutoff: int): nat {
    if sends == [] then 0
    else
      var last := sends[|sends| - 1];
      DeliveredAfter(sends[..|sends| - 1], principal, cutoff)
      + (if last.principal == principal && last.outcome == Delivered && last.at > cutoff then 1 else 0)
  }

  /** Their places in the record, up to a last moment. */
  ghost function DeliveredWithin(sends: seq<Send>, principal: string, after: int, last: int): set<nat> {
    set i | 0 <= i < |sends| && sends[i].principal == principal && sends[i].outcome == Delivered
            && after < sends[i].at <= last
  }

  ghost function DeliveredSince(sends: seq<Send>, principal: string, cutoff: int): set<nat> {
    set i | 0 <= i < |sends| && sends[i].principal == principal && sends[i].outcome == Delivered && sends[i].at > cutoff
  }

  lemma {:induction false} DeliveriesCount(sends: seq<Send>, principal: string, cutoff: int)
    ensures DeliveredAfter(sends, principal, cutoff) == |DeliveredSince(sends, principal, cutoff)|
  {
    if sends != [] {
      var n := |sends| - 1;
      var before, now := DeliveredSince(sends[..n], principal, cutoff), DeliveredSince(sends, principal, cutoff);
      DeliveriesCount(sends[..n], principal, cutoff);
      forall i: nat | i < n ensures i in now <==> i in before { assert sends[..n][i] == sends[i]; }
      if n in now {
        assert now == before + {n};
      } else {
        assert now == before;
      }
    }
  }

  function OutcomeOf(sub: Subscription, allowed: set<string>, reply: Reply): Outcome {
    if sub.origin.None? || sub.origin.value !in allowed then RefusedEndpoint
    else if reply.accepted then Delivered
    else if reply.status == 404 || reply.status == 410 then Gone
    else Failed
  }

  /** The row about one subscription: refused unless its origin is allowed; delivered, gone or failed as the vendor
   *  answered. */
  ghost predicate Recorded(row: Send, principal: string, urgency: string, sub: Subscription, allowed: set<string>,
      reply: Reply) {
    && row.principal == principal && row.urgency == urgency && row.at == reply.at
    && (row.outcome == RefusedEndpoint <==> sub.origin.None? || sub.origin.value !in allowed)
    && (row.outcome == Delivered <==> sub.origin.Some? && sub.origin.value in allowed && reply.accepted)
    && (row.outcome == Gone <==> sub.origin.Some? && sub.origin.value in allowed && !reply.accepted
                                 && (reply.status == 404 || reply.status == 410))
    && row.outcome != RefusedThrottle
  }

  /** One row a subscription. */
  function Rows(principal: string, urgency: string, mine: seq<Subscription>, allowed: set<string>,
      replies: seq<Reply>): (rows: seq<Send>)
    requires |replies| >= |mine|
    ensures |rows| == |mine|
    ensures forall i :: 0 <= i < |mine| ==>
            rows[i] == Send(principal, urgency, OutcomeOf(mine[i], allowed, replies[i]), replies[i].at)
  {
    if mine == [] then []
    else
      var n := |mine| - 1;
      Rows(principal, urgency, mine[..n], allowed, replies)
      + [Send(principal, urgency, OutcomeOf(mine[n], allowed, replies[n]), replies[n].at)]
  }

  /** What one call adds to the record. */
  function Notified(sends: seq<Send>, mine: seq<Subscription>, call: Notify): seq<Send>
    requires |call.replies| >= |mine|
  {
    if !Sending(call.urgency) || !call.vapid || mine == [] then []
    else if DeliveredAfter(sends, call.principal, call.checkAt - HOUR) >= THROTTLE_PER_HOUR
    then [Send(call.principal, call.urgency, RefusedThrottle, call.checkAt)]
    else Rows(call.principal, call.urgency, mine, call.allowed, call.replies)
  }

  datatype Notify = Notify(principal: string, urgency: string, vapid: bool, allowed: set<string>, checkAt: int,
      replies: seq<Reply>)

  // ---------------------------------------------------------------- the bound

  /** The rolling hour from `after` on. */
  ghost function InHour(sends: seq<Send>, principal: string, after: int): set<nat> {
    DeliveredWithin(sends, principal, after, after + 3600)
  }

  /** Appending rows adds at most one delivery a row, and none by rows that are no delivery of this hour. */
  lemma {:induction false} InHourGrows(sends: seq<Send>, rows: seq<Send>, principal: string, after: int)
    ensures |InHour(sends + rows, principal, after)| <= |InHour(sends, principal, after)| + |rows|
    ensures (forall i :: 0 <= i < |rows| ==>
               rows[i].principal != principal || rows[i].outcome != Delivered || rows[i].at > after + 3600) ==>
            InHour(sends + rows, principal, after) == InHour(sends, principal, after)
  {
    if rows == [] {
      assert sends + rows == sends;
    } else {
      var init, last := rows[..|rows| - 1], rows[|rows| - 1];
      InHourGrows(sends, init, principal, after);
      assert sends + rows == sends + init + [last];
      InHourAppend(sends + init, last, principal, after);
    }
  }

  lemma InHourAppend(sends: seq<Send>, row: Send, principal: string, after: int)
    ensures |InHour(sends + [row], principal, after)| <= |InHour(sends, principal, after)| + 1
    ensures row.principal != principal || row.outcome != Delivered || row.at > after + 3600 ==>
            InHour(sends + [row], principal, after) == InHour(sends, principal, after)
  {
    forall i: nat | i < |sends| ensures (sends + [row])[i] == sends[i] {}
    SubsetSize(InHour(sends + [row], principal, after), InHour(sends, principal, after) + {|sends|});
  }

  lemma WindowWithinHour(sends: seq<Send>, principal: string, after: int, cutoff: int)
    requires cutoff <= after
    ensures |InHour(sends, principal, after)| <= DeliveredAfter(sends, principal, cutoff)
  {
    DeliveriesCount(sends, principal, cutoff);
    SubsetSize(InHour(sends, principal, after), DeliveredSince(sends, principal, cutoff));
  }

  /** What a call records: nothing for an FYI, without keys or subscriptions; one refusal when twenty were delivered in
   *  the hour before; else a row for each subscription. */
  ghost predicate Announced(before: seq<Send>, after: seq<Send>, mine: seq<Subscription>, call: Notify)
    requires |call.replies| >= |mine|
  {
    if (call.urgency != "BLOCKER" && call.urgency != "DECISION") || !call.vapid || mine == [] then after == before
    else if |DeliveredSince(before, call.principal, call.checkAt - 3600)| >= 20 then
      after == before + [Send(call.principal, call.urgency, RefusedThrottle, call.checkAt)]
    else
      && |after| == |before| + |mine| && before <= after
      && forall i :: 0 <= i < |mine| ==>
           Recorded(after[|before| + i], call.principal, call.urgency, mine[i], call.allowed, call.replies[i])
  }

  lemma NotifiedAnnounces(sends: seq<Send>, mine: seq<Subscription>, call: Notify)
    requires |call.replies| >= |mine|
    ensures Announced(sends, sends + Notified(sends, mine, call), mine, call)
  {
    DeliveriesCount(sends, call.principal, call.checkAt - 3600);
    var added := Notified(sends, mine, call);
    var now := sends + added;
    assert added == [] ==> now == sends;
    if |DeliveredSince(sends, call.principal, call.checkAt - 3600)| < 20 && added != [] {
      assert added == Rows(call.principal, call.urgency, mine, call.allowed, call.replies);
      forall i | 0 <= i < |mine|
        ensures Recorded(now[|sends| + i], call.principal, call.urgency, mine[i], call.allowed, call.replies[i])
      {
        assert now[|sends| + i] == added[i];
      }
    }
  }

  /** A call's rows are written after its check. */
  predicate Timed(call: Notify) {
    forall i :: 0 <= i < |call.replies| ==> call.checkAt <= call.replies[i].at
  }

  /** The check is made once, before the loop: one call can overshoot by what it loops over, and no more. */
  lemma CallWithinBound(before: seq<Send>, now: seq<Send>, mine: seq<Subscription>, call: Notify, principal: string,
      after: int, most: nat)
    requires |call.replies| >= |mine| && Timed(call) && (call.principal == principal ==> |mine| <= most)
    requires Announced(before, now, mine, call) && |InHour(before, principal, after)| <= 19 + most
    ensures |InHour(now, principal, after)| <= 19 + most
  {
    var rows := now[|before|..];
    assert now == before + rows;
    InHourGrows(before, rows, principal, after);
    DeliveriesCount(before, principal, call.checkAt - 3600);
    if call.principal != principal || |DeliveredSince(before, principal, call.checkAt - 3600)| >= 20
       || call.checkAt > after + 3600 {
      NoneThisHour(before, now, mine, call, principal, after);
    } else {
      WindowWithinHour(before, principal, after, call.checkAt - 3600);
    }
  }

  /** The rows of somebody else's call, of a refused one, or of one made after the hour are no deliveries of it. */
  lemma NoneThisHour(before: seq<Send>, now: seq<Send>, mine: seq<Subscription>, call: Notify, principal: string,
      after: int)
    requires |call.replies| >= |mine| && Timed(call) && Announced(before, now, mine, call)
    requires call.principal != principal || |DeliveredSince(before, principal, call.checkAt - 3600)| >= 20
            || call.checkAt > after + 3600
    ensures var rows := now[|before|..];
      forall i :: 0 <= i < |rows| ==>
        rows[i].principal != principal || rows[i].outcome != Delivered || rows[i].at > after + 3600
  {
    var rows := now[|before|..];
    forall i | 0 <= i < |rows|
      ensures rows[i].principal != principal || rows[i].outcome != Delivered || rows[i].at > after + 3600
    {
      assert rows[i] == now[|before| + i];
      if rows != [Send(call.principal, call.urgency, RefusedThrottle, call.checkAt)] {
        assert Recorded(now[|before| + i], call.principal, call.urgency, mine[i], call.allowed, call.replies[i]);
        assert call.replies[i].at >= call.checkAt;
      }
    }
  }

  /** A call with the subscriptions its loop ran over. */
  datatype Made = Made(mine: seq<Subscription>, call: Notify)

  /** The record grew by these calls, one after another. */
  ghost predicate GrownBy(records: seq<seq<Send>>, calls: seq<Made>) {
    && |records| == |calls| + 1 && records[0] == []
    && forall i :: 0 <= i < |calls| ==>
         && |calls[i].call.replies| >= |calls[i].mine| && Timed(calls[i].call)
         && Announced(records[i], records[i + 1], calls[i].mine, calls[i].call)
  }

  /** In no rolling hour are more than 19 deliveries, plus the most subscriptions one call looped over, made to one
   *  person, whoever else is notified in between. */
  lemma {:induction false} AtMostNineteenPlusOneLoop(records: seq<seq<Send>>, calls: seq<Made>, principal: string,
      after: int, most: nat)
    requires GrownBy(records, calls)
    requires forall i :: 0 <= i < |calls| && calls[i].call.principal == principal ==> |calls[i].mine| <= most
    ensures |InHour(records[|calls|], principal, after)| <= 19 + most
    decreases |calls|
  {
    if calls != [] {
      var n := |calls| - 1;
      var earlier := records[..|calls|];
      assert forall i :: 0 <= i < |earlier| ==> earlier[i] == records[i];
      assert GrownBy(earlier, calls[..n]);
      AtMostNineteenPlusOneLoop(earlier, calls[..n], principal, after, most);
      CallWithinBound(records[n], records[n + 1], calls[n].mine, calls[n].call, principal, after, most);
    }
  }

  // ---------------------------------------------------------------- the call on the stored rows

  /** DELETE by endpoint, whoever subscribed it. */
  function Without(subs: seq<Subscription>, endpoints: set<string>): seq<Subscription> {
    if subs == [] then []
    else
      var last := subs[|subs| - 1];
      Without(subs[..|subs| - 1], endpoints) + (if last.endpoint in endpoints then [] else [last])
  }

  /** Exactly these endpoints go. */
  lemma {:induction false} OnlyTheseGo(subs: seq<Subscription>, endpoints: set<string>, sub: Subscription)
    ensures multiset(Without(subs, endpoints))[sub] == if sub.endpoint in endpoints then 0 else multiset(subs)[sub]
  {
    if subs != [] {
      var init, last := subs[..|subs| - 1], subs[|subs| - 1];
      OnlyTheseGo(init, endpoints, sub);
      assert subs == init + [last];
      assert multiset(subs) == multiset(init) + multiset{last};
      if last.endpoint in endpoints {
        assert Without(subs, endpoints) == Without(init, endpoints);
      } else {
        assert multiset(Without(subs, endpoints)) == multiset(Without(init, endpoints)) + multiset{last};
      }
    }
  }

  lemma {:induction false} WithoutNone(subs: seq<Subscription>)
    ensures Without(subs, {}) == subs
  {
    if subs != [] { WithoutNone(subs[..|subs| - 1]); }
  }

  lemma WithoutAppend(subs: seq<Subscription>, sub: Subscription, endpoints: set<string>)
    ensures Without(subs + [sub], endpoints) == Without(subs, endpoints)
            + (if sub.endpoint in endpoints then [] else [sub])
  {
    assert (subs + [sub])[..|subs|] == subs;
  }

  lemma {:induction false} WithoutTwice(subs: seq<Subscription>, a: set<string>, b: set<string>)
    ensures Without(Without(subs, a), b) == Without(subs, a + b)
  {
    if subs != [] {
      var init, last := subs[..|subs| - 1], subs[|subs| - 1];
      WithoutTwice(init, a, b);
      if last.endpoint in a {
        assert Without(subs, a) == Without(init, a);
      } else {
        assert Without(subs, a) == Without(init, a) + [last];
        WithoutAppend(Without(init, a), last, b);
      }
    }
  }

  /** The endpoints the vendor reported gone. */
  ghost function GoneIn(mine: seq<Subscription>, rows: seq<Send>): set<string> {
    set i | 0 <= i < |mine| && i < |rows| && rows[i].outcome == Gone :: mine[i].endpoint
  }

  lemma GoneStep(mine: seq<Subscription>, rows: seq<Send>, row: Send)
    requires |rows| < |mine|
    ensures GoneIn(mine, rows + [row])
         == if row.outcome == Gone then GoneIn(mine, rows) + {mine[|rows|].endpoint} else GoneIn(mine, rows)
  {
    forall i | 0 <= i < |mine| && i < |rows| + 1
      ensures (rows + [row])[i] == if i < |rows| then rows[i] else row
    {}
    var grown := GoneIn(mine, rows + [row]);
    forall e | e in GoneIn(mine, rows) ensures e in grown {
      var i :| 0 <= i < |mine| && i < |rows| && rows[i].outcome == Gone && mine[i].endpoint == e;
      assert (rows + [row])[i].outcome == Gone;
    }
    if row.outcome == Gone { assert (rows + [row])[|rows|].outcome == Gone; }
  }

  /** The subscriptions left once these rows are written. */
  ghost function Left(subs: seq<Subscription>, mine: seq<Subscription>, rows: seq<Send>): seq<Subscription> {
    Without(subs, GoneIn(mine, rows))
  }

  lemma LeftNone(subs: seq<Subscription>, mine: seq<Subscription>)
    ensures Left(subs, mine, []) == subs
  {
    NoneGone(mine, []);
    WithoutNone(subs);
  }

  lemma RowsStep(principal: string, urgency: string, mine: seq<Subscription>, i: nat, allowed: set<string>,
      replies: seq<Reply>)
    requires i < |mine| <= |replies|
    ensures Rows(principal, urgency, mine[..i + 1], allowed, replies)
         == Rows(principal, urgency, mine[..i], allowed, replies)
            + [Send(principal, urgency, OutcomeOf(mine[i], allowed, replies[i]), replies[i].at)]
  {
    assert mine[..i + 1][..i] == mine[..i];
  }

  /** Forgetting one more endpoint as its row is written. */
  lemma DropStep(subs: seq<Subscription>, mine: seq<Subscription>, rows: seq<Send>, row: Send)
    requires |rows| < |mine|
    ensures Left(subs, mine, rows + [row])
         == if row.outcome == Gone then Without(Left(subs, mine, rows), {mine[|rows|].endpoint})
             else Left(subs, mine, rows)
  {
    GoneStep(mine, rows, row);
    WithoutTwice(subs, GoneIn(mine, rows), {mine[|rows|].endpoint});
  }

  lemma NoneGone(mine: seq<Subscription>, rows: seq<Send>)
    requires forall i :: 0 <= i < |rows| ==> rows[i].outcome != Gone
    ensures GoneIn(mine, rows) == {}
  {
  }

  class PushSender {
    var subs: seq<Subscription>
    var sends: seq<Send>
    var vapidReady: Option<bool>

    constructor (subs: seq<Subscription>)
      ensures this.subs == subs && sends == [] && vapidReady == None
    {
      this.subs, sends, vapidReady := subs, [], None;
    }

    /** Read from the environment once and remembered. */
    method VapidConfigured(hasKeys: bool) returns (ready: bool)
      modifies this`vapidReady
      ensures vapidReady == Some(ready) && ready == if old(vapidReady).Some? then old(vapidReady).value else hasKeys
    {
      if vapidReady.Some? { return vapidReady.value; }
      vapidReady := Some(hasKeys);
      return hasKeys;
    }

    /** Rows are appended, one for the whole call when it is refused for volume and one a subscription otherwise,
     *  and exactly the endpoints the vendor reported gone are forgotten. */
    method NotifyPrincipal(principal: string, urgency: string, hasKeys: bool, allowed: set<string>, checkAt: int,
        replies: seq<Reply>)
      requires |replies| >= |SubscriptionsFor(subs, principal)|
      modifies this
      ensures var vapid := if old(vapidReady).Some? then old(vapidReady).value else hasKeys;
        var mine := SubscriptionsFor(old(subs), principal);
        var rows := Notified(old(sends), mine, Notify(principal, urgency, vapid, allowed, checkAt, replies));
        sends == old(sends) + rows && subs == Left(old(subs), mine, rows)
      ensures var vapid := if old(vapidReady).Some? then old(vapidReady).value else hasKeys;
        Announced(old(sends), sends, SubscriptionsFor(old(subs), principal),
                  Notify(principal, urgency, vapid, allowed, checkAt, replies))
    {
      ghost var vapid := if vapidReady.Some? then vapidReady.value else hasKeys;
      NotifiedAnnounces(sends, SubscriptionsFor(subs, principal),
                        Notify(principal, urgency, vapid, allowed, checkAt, replies));
      WithoutNone(subs);
      NoneGone(SubscriptionsFor(subs, principal), []);
      if !Sending(urgency) { return; }
      var ready := VapidConfigured(hasKeys);
      if !ready { return; }
      var mine := SubscriptionsFor(subs, principal);
      if mine == [] { return; }
      if DeliveredAfter(sends, principal, checkAt - HOUR) >= THROTTLE_PER_HOUR {
        NoneGone(mine, [Send(principal, urgency, RefusedThrottle, checkAt)]);
        sends := sends + [Send(principal, urgency, RefusedThrottle, checkAt)];
        return;
      }
      SendEach(principal, urgency, mine, allowed, replies);
    }

    /** The loop over the subscriptions read before it. */
    method SendEach(principal: string, urgency: string, mine: seq<Subscription>, allowed: set<string>,
        replies: seq<Reply>)
      requires |replies| >= |mine|
      modifies this`sends, this`subs
      ensures sends == old(sends) + Rows(principal, urgency, mine, allowed, replies)
      ensures subs == Left(old(subs), mine, Rows(principal, urgency, mine, allowed, replies))
    {
      LeftNone(subs, mine);
      for i := 0 to |mine|
        invariant sends == old(sends) + Rows(principal, urgency, mine[..i], allowed, replies)
        invariant subs == Left(old(subs), mine, Rows(principal, urgency, mine[..i], allowed, replies))
      {
        ghost var rows := Rows(principal, urgency, mine[..i], allowed, replies);
        ghost var row := Send(principal, urgency, OutcomeOf(mine[i], allowed, replies[i]), replies[i].at);
        RowsStep(principal, urgency, mine, i, allowed, replies);
        DropStep(old(subs), mine, rows, row);
        SendOne(principal, urgency, mine[i], allowed, replies[i]);
        assert sends == old(sends) + (rows + [row]);
      }
      assert mine[..|mine|] == mine;
    }

    /** A refused origin is never sent to; an address goes only on the vendor's 404 or 410. */
    method SendOne(principal: string, urgency: string, sub: Subscription, allowed: set<string>, reply: Reply)
      modifies this`sends, this`subs
      ensures sends == old(sends) + [Send(principal, urgency, OutcomeOf(sub, allowed, reply), reply.at)]
      ensures subs == if OutcomeOf(sub, allowed, reply) == Gone then Without(old(subs), {sub.endpoint}) else old(subs)
      ensures |sends| == |old(sends)| + 1 && Recorded(sends[|old(sends)|], principal, urgency, sub, allowed, reply)
    {
      var outcome;
      if sub.origin.None? || sub.origin.value !in allowed {
        outcome := RefusedEndpoint;
      } else if reply.accepted {
        outcome := Delivered;
      } else if reply.status == 404 || reply.status == 410 {
        subs := Without(subs, {sub.endpoint});
        outcome := Gone;
      } else {
        outcome := Failed;
      }
      sends := sends + [Send(principal, urgency, outcome, reply.at)];
    }
  }
}

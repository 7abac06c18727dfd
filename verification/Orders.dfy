/**
 * Standing-order cycles: apps/api/src/orders.ts, the summon, started and cycled inserts of apps/api/src/events.ts,
 * the counting seam of `runAgentTurn` in apps/api/src/agent.ts, and the command order of
 * apps/api/src/commands/runOrders.ts, summon.ts and order.ts.
 *
 * One SQL statement is one step; what a process still means to do is a token, and a token may be dropped at any
 * time (a crash, or one of the refusals before the next statement). An event's seq is its index in the log.
 */
module Orders {
  import opened Prelude

  datatype Status = Active | Paused | Revoked | Expired | LimitReached

  predicate Terminal(s: Status) {
    s == Revoked || s == Expired || s == LimitReached
  }

  /** What an edit may change. */
  datatype Terms = Terms(maxCycles: Option<nat>, maxUnattended: nat, expiresAt: Option<int>)

  datatype Order = Order(
    roomId: string, triggerMember: string, actionMember: string, terms: Terms,
    status: Status, pauseReason: Option<string>, openCycleSeq: Option<nat>, cycleCount: nat, unattendedCount: nat)

  datatype Event =
    | Completed(roomId: string, member: string)
    | Summon(roomId: string, member: string, cause: nat, orderId: Option<string>, depth: nat)
    | Started(summon: nat)
    | Cycled(roomId: string, ofOrder: string, cycle: nat, trigger: nat)
    | Other

  // ---------------------------------------------------------------- one statement each

  /** `claimTrigger`: does the UPDATE's WHERE clause take the row? */
  predicate Claimable(o: Order, trigger: nat) {
    o.status == Active && (o.openCycleSeq.None? || o.openCycleSeq.value < trigger)
  }

  function ClaimedRow(o: Order, trigger: nat): Order {
    o.(openCycleSeq := Some(trigger))
  }

  function CountedRow(o: Order): Order {
    o.(cycleCount := o.cycleCount + 1, unattendedCount := o.unattendedCount + 1)
  }

  function StatusRow(o: Order, status: Status, reason: Option<string>): Order {
    o.(status := status, pauseReason := reason, unattendedCount := if status == Active then 0 else o.unattendedCount)
  }

  function WatchedRow(o: Order, roomId: string): Order {
    if o.roomId == roomId && o.status == Active && o.unattendedCount > 0 then o.(unattendedCount := 0) else o
  }

  function WatchedRows(orders: map<string, Order>, roomId: string): map<string, Order> {
    map id | id in orders :: WatchedRow(orders[id], roomId)
  }

  /** Migration 005's unique index: one summon per room, cause and member. */
  predicate HasSummon(log: seq<Event>, roomId: string, cause: nat, member: string) {
    exists i :: 0 <= i < |log| && log[i].Summon? && log[i].roomId == roomId && log[i].cause == cause
        && log[i].member == member
  }

  /** Migration 006's: one started row per summon. */
  predicate HasStarted(log: seq<Event>, summon: nat) {
    exists i :: 0 <= i < |log| && log[i] == Started(summon)
  }

  /** Migration 022's: one cycled row per room, order and trigger. */
  predicate HasCycled(log: seq<Event>, roomId: string, orderId: string, trigger: nat) {
    exists i :: 0 <= i < |log| && log[i].Cycled? && log[i].roomId == roomId && log[i].ofOrder == orderId
        && log[i].trigger == trigger
  }

  function AppendSummon(log: seq<Event>, e: Event): seq<Event>
    requires e.Summon?
  {
    if HasSummon(log, e.roomId, e.cause, e.member) then log else log + [e]
  }

  function AppendCycled(log: seq<Event>, e: Event): seq<Event>
    requires e.Cycled?
  {
    if HasCycled(log, e.roomId, e.ofOrder, e.trigger) then log else log + [e]
  }

  // ---------------------------------------------------------------- the protocol

  /** `claims`, `counted` and `lost` are history: every successful claim of an order, every summon whose start was
   *  counted, every stop whose process died before it was written. The rest is the database and the tokens; a count
   *  that reaches a limit leaves a stop to re-read the row for, whichever of it and the cycled row comes first. */
  datatype Sys = Sys(
    log: seq<Event>, orders: map<string, Order>,
    claims: map<string, seq<nat>>, counted: set<nat>, lost: multiset<(string, Status)>,
    toSummon: set<(string, nat)>, toCount: set<nat>, toCycle: set<(string, nat, nat)>,
    toStop: multiset<(string, Status)>, toWrite: multiset<(string, Status)>)

  const EMPTY := Sys([], map[], map[], {}, multiset{}, {}, {}, {}, multiset{}, multiset{})

  datatype Step =
    | Create(id: string, roomId: string, triggerMember: string, actionMember: string, terms: Terms)
    | Complete(roomId: string, member: string)
    | AppendOther
    | Claim(id: string, trigger: nat)
    | FireSummon(id: string, trigger: nat)
    | OtherSummon(roomId: string, member: string, cause: nat, orderId: Option<string>, depth: nat)
    | StartTurn(summon: nat)
    | CountCycle(summon: nat)
    | RecordCycle(id: string, cycle: nat, trigger: nat)
    | DecideStatus(id: string, next: Status)
    | ReadStop(id: string, next: Status)
    | LoseStop(id: string, next: Status)
    | WriteStatus(id: string, next: Status, reason: Option<string>)
    | HumanMessage(roomId: string)
    | UpdateConfig(id: string, terms: Terms)
    | Drop(id: string, trigger: nat, summon: nat, cycle: nat, next: Status)

  /** An order's own summon: fired for it, not emitted further down by a turn that inherited its id. */
  predicate Own(e: Event, id: string) {
    e.Summon? && e.orderId == Some(id) && e.depth == 0
  }

  /** The status a command or a gate may decide on, given the row it read: resume only a paused order, revoke anything
   *  not terminal, pause or expire only an active one. The cap is read by the counting seam alone. */
  predicate MayDecide(current: Status, next: Status) {
    match next
    case Active => current == Paused
    case Revoked => !Terminal(current)
    case LimitReached => false
    case _ => current == Active
  }

  function DoCreate(s: Sys, id: string, room: string, trig: string, act: string, terms: Terms): Sys {
    if id in s.orders then s
    else s.(orders := s.orders[id := Order(room, trig, act, terms, Active, None, None, 0, 0)],
        claims := s.claims[id := []])
  }

  /** The runner looked the order up by the completion's room and member; the UPDATE re-checks the status. */
  predicate MayClaim(s: Sys, id: string, t: nat) {
    && id in s.orders && id in s.claims
    && t < |s.log| && s.log[t] == Completed(s.orders[id].roomId, s.orders[id].triggerMember)
    && Claimable(s.orders[id], t)
  }

  function DoClaim(s: Sys, id: string, t: nat): Sys {
    if !MayClaim(s, id, t) then s
    else s.(orders := s.orders[id := ClaimedRow(s.orders[id], t)], claims := s.claims[id := s.claims[id] + [t]],
            toSummon := s.toSummon + {(id, t)})
  }

  function DoSummon(s: Sys, e: Event): (after: Sys)
    requires e.Summon?
    ensures after.orders == s.orders
  {
    s.(log := AppendSummon(s.log, e))
  }

  function DoFireSummon(s: Sys, id: string, t: nat): (after: Sys)
    ensures after.orders == s.orders
  {
    if (id, t) !in s.toSummon || id !in s.orders then s
    else DoSummon(s.(toSummon := s.toSummon - {(id, t)}),
        Summon(s.orders[id].roomId, s.orders[id].actionMember, t, Some(id), 0))
  }

  function DoStart(s: Sys, k: nat): (after: Sys)
    ensures after.orders == s.orders
  {
    if k >= |s.log| || !s.log[k].Summon? || HasStarted(s.log, k) then s
    else s.(log := s.log + [Started(k)],
            toCount := if s.log[k].orderId.Some? && s.log[k].depth == 0 then s.toCount + {k} else s.toCount)
  }

  predicate MayCount(s: Sys, k: nat) {
    k in s.toCount && k < |s.log| && s.log[k].Summon? && s.log[k].orderId.Some? && s.log[k].orderId.value in s.orders
  }

  predicate AtCap(o: Order) {
    o.terms.maxCycles.Some? && o.cycleCount >= o.terms.maxCycles.value
  }

  /** The stop a count owes: at the cap the order ends, else at the dial it pauses. */
  function StopOwed(o: Order): Option<Status> {
    if AtCap(o) then Some(LimitReached) else if o.unattendedCount >= o.terms.maxUnattended then Some(Paused) else None
  }

  function Owing(id: string, o: Order): multiset<(string, Status)> {
    match StopOwed(o)
    case None => multiset{}
    case Some(next) => multiset{(id, next)}
  }

  function DoCount(s: Sys, k: nat): Sys {
    if !MayCount(s, k) then s
    else
      var id := s.log[k].orderId.value;
      var o := s.orders[id];
      var taken := s.(toCount := s.toCount - {k});
      if o.status != Active then taken
      else taken.(counted := s.counted + {k}, orders := s.orders[id := CountedRow(o)],
                  toCycle := s.toCycle + {(id, o.cycleCount + 1, s.log[k].cause)},
                  toStop := s.toStop + Owing(id, CountedRow(o)))
  }

  function DoRecord(s: Sys, id: string, cycle: nat, t: nat): (after: Sys)
    ensures after.orders == s.orders
  {
    if (id, cycle, t) !in s.toCycle || id !in s.orders then s
    else s.(toCycle := s.toCycle - {(id, cycle, t)},
        log := AppendCycled(s.log, Cycled(s.orders[id].roomId, id, cycle, t)))
  }

  function DoDecide(s: Sys, id: string, next: Status): (after: Sys)
    ensures after.orders == s.orders
  {
    if id in s.orders && MayDecide(s.orders[id].status, next) then s.(toWrite := s.toWrite + multiset{(id, next)})
        else s
  }

  /** `stopOrder` re-reads the row, and goes on only if it is still active. */
  function DoReadStop(s: Sys, id: string, next: Status): (after: Sys)
    ensures after.orders == s.orders
  {
    if (id, next) !in s.toStop || id !in s.orders then s
    else s.(toStop := s.toStop - multiset{(id, next)},
            toWrite := if s.orders[id].status == Active then s.toWrite + multiset{(id, next)} else s.toWrite)
  }

  function DoLoseStop(s: Sys, id: string, next: Status): (after: Sys)
    ensures after.orders == s.orders
  {
    if (id, next) !in s.toStop then s
    else s.(toStop := s.toStop - multiset{(id, next)}, lost := s.lost + multiset{(id, next)})
  }

  function DoWrite(s: Sys, id: string, next: Status, reason: Option<string>): Sys {
    if (id, next) !in s.toWrite || id !in s.orders then s
    else s.(toWrite := s.toWrite - multiset{(id, next)},
        orders := s.orders[id := StatusRow(s.orders[id], next, reason)])
  }

  function DoConfig(s: Sys, id: string, terms: Terms): Sys {
    if id !in s.orders then s
    else s.(orders := s.orders[id := s.orders[id].(terms := terms)])
  }

  function Apply(s: Sys, step: Step): Sys {
    match step
    case Create(id, room, trig, act, terms) => DoCreate(s, id, room, trig, act, terms)
    case Complete(room, member) => s.(log := s.log + [Completed(room, member)])
    case AppendOther => s.(log := s.log + [Other])
    case Claim(id, t) => DoClaim(s, id, t)
    case FireSummon(id, t) => DoFireSummon(s, id, t)
    case OtherSummon(room, member, cause, orderId, depth) =>
      // A human's tag carries no order; a summon a turn emits inherits the order at depth 1 or more.
      if orderId.None? || depth > 0 then DoSummon(s, Summon(room, member, cause, orderId, depth)) else s
    case StartTurn(k) => DoStart(s, k)
    case CountCycle(k) => DoCount(s, k)
    case RecordCycle(id, cycle, t) => DoRecord(s, id, cycle, t)
    case DecideStatus(id, next) => DoDecide(s, id, next)
    case ReadStop(id, next) => DoReadStop(s, id, next)
    case LoseStop(id, next) => DoLoseStop(s, id, next)
    case WriteStatus(id, next, reason) => DoWrite(s, id, next, reason)
    case HumanMessage(room) => s.(log := s.log + [Other], orders := WatchedRows(s.orders, room))
    case UpdateConfig(id, terms) => DoConfig(s, id, terms)
    case Drop(id, t, k, cycle, next) =>
      s.(toSummon := s.toSummon - {(id, t)}, toCount := s.toCount - {k}, toCycle := s.toCycle - {(id, cycle, t)},
         toWrite := s.toWrite - multiset{(id, next)}, lost := s.lost + s.toWrite * multiset{(id, next)})
  }

  function Run(s: Sys, steps: seq<Step>): Sys
    decreases |steps|
  {
    if steps == [] then s else Run(Apply(s, steps[0]), steps[1..])
  }

  // ---------------------------------------------------------------- what every interleaving keeps

  ghost function SummonsOf(s: Sys, id: string): set<nat> {
    set k | 0 <= k < |s.log| && Own(s.log[k], id)
  }

  ghost function StartedOf(s: Sys, id: string): set<nat> {
    set k | k in SummonsOf(s, id) && HasStarted(s.log, k)
  }

  ghost function CountedOf(s: Sys, id: string): set<nat> {
    set k | k in s.counted && k < |s.log| && Own(s.log[k], id)
  }

  ghost function CycledOf(s: Sys, id: string): set<nat> {
    set k | 0 <= k < |s.log| && s.log[k].Cycled? && s.log[k].ofOrder == id
  }

  ghost predicate Increasing(a: seq<nat>) {
    forall i, j :: 0 <= i < j < |a| ==> a[i] < a[j]
  }

  /** Claims of an order rise, and the row remembers the last. */
  ghost predicate ClaimsHold(s: Sys) {
    && s.claims.Keys == s.orders.Keys
    && forall id :: id in s.orders ==>
         && Increasing(s.claims[id])
         && (forall i :: 0 <= i < |s.claims[id]| ==> s.claims[id][i] < |s.log|)
         && s.orders[id].openCycleSeq == (if s.claims[id] == [] then None else Some(s.claims[id][|s.claims[id]| - 1]))
  }

  ghost predicate OwnSummonHolds(s: Sys, e: Event, id: string) {
    id in s.orders && id in s.claims && e.Summon? && e.cause in s.claims[id]
    && e.roomId == s.orders[id].roomId && e.member == s.orders[id].actionMember
  }

  ghost predicate LogHolds(s: Sys) {
    && (forall i, j :: 0 <= i < j < |s.log| && s.log[i].Summon? && s.log[j].Summon? ==>
          s.log[i].roomId != s.log[j].roomId || s.log[i].cause != s.log[j].cause || s.log[i].member != s.log[j].member)
    && (forall k, id :: 0 <= k < |s.log| && Own(s.log[k], id) ==> OwnSummonHolds(s, s.log[k], id))
    && (forall id, t :: (id, t) in s.toSummon ==> id in s.claims && t in s.claims[id])
  }

  /** Every count has a started row of one of the order's own summons behind it, and no summon is counted twice. */
  ghost predicate CountsHold(s: Sys) {
    && (forall k :: k in s.toCount || k in s.counted ==>
          k < |s.log| && s.log[k].Summon? && s.log[k].orderId.Some? && s.log[k].depth == 0 && HasStarted(s.log, k))
    && s.toCount !! s.counted
    && forall id :: id in s.orders ==>
         s.orders[id].unattendedCount <= s.orders[id].cycleCount == |CountedOf(s, id)|
  }

  /** Some counted summon of `id` was caused by `trigger`. */
  ghost predicate CountedCause(s: Sys, id: string, trigger: nat) {
    exists k :: k in CountedOf(s, id) && s.log[k].cause == trigger
  }

  ghost predicate CyclesHold(s: Sys) {
    && (forall id, cycle, t :: (id, cycle, t) in s.toCycle ==> CountedCause(s, id, t))
    && (forall i :: 0 <= i < |s.log| && s.log[i].Cycled? ==>
          CountedCause(s, s.log[i].ofOrder, s.log[i].trigger)
          && s.log[i].ofOrder in s.orders && s.log[i].roomId == s.orders[s.log[i].ofOrder].roomId)
    && (forall i, j :: 0 <= i < j < |s.log| && s.log[i].Cycled? && s.log[j].Cycled? ==>
          s.log[i].ofOrder != s.log[j].ofOrder || s.log[i].trigger != s.log[j].trigger)
  }

  ghost predicate Inv(s: Sys) {
    ClaimsHold(s) && LogHolds(s) && CountsHold(s) && CyclesHold(s)
  }

  /** `t` extends the log by at most one event and keeps each order's wiring and claims. */
  ghost predicate Wired(s: Sys, t: Sys) {
    && s.log <= t.log && |t.log| <= |s.log| + 1
    && s.orders.Keys <= t.orders.Keys && s.claims.Keys <= t.claims.Keys
    && (forall id :: id in s.orders ==>
          t.orders[id].roomId == s.orders[id].roomId && t.orders[id].actionMember == s.orders[id].actionMember)
    && (forall id, x :: id in s.claims && x in s.claims[id] ==> x in t.claims[id])
  }

  lemma ClaimsFrame(s: Sys, t: Sys)
    requires ClaimsHold(s) && s.log <= t.log && t.claims == s.claims && t.orders.Keys == s.orders.Keys
    requires forall id :: id in s.orders ==> t.orders[id].openCycleSeq == s.orders[id].openCycleSeq
    ensures ClaimsHold(t)
  {
  }

  lemma OwnFrame(s: Sys, t: Sys, e: Event, id: string)
    requires Wired(s, t) && OwnSummonHolds(s, e, id)
    ensures OwnSummonHolds(t, e, id)
  {
  }

  lemma LogFrame(s: Sys, t: Sys)
    requires LogHolds(s) && Wired(s, t)
    requires |t.log| == |s.log| || !t.log[|s.log|].Summon?
    requires forall id, x :: (id, x) in t.toSummon ==> (id, x) in s.toSummon || (id in t.claims && x in t.claims[id])
    ensures LogHolds(t)
  {
    forall k, id | 0 <= k < |t.log| && Own(t.log[k], id) ensures OwnSummonHolds(t, t.log[k], id) {
      OwnFrame(s, t, s.log[k], id);
    }
  }

  lemma SameCounted(s: Sys, t: Sys, id: string)
    requires s.log <= t.log && s.counted == t.counted
    requires forall k :: k in s.counted ==> k < |s.log|
    ensures CountedOf(s, id) == CountedOf(t, id)
  {
  }

  lemma StaysStarted(s: Sys, t: Sys, k: nat)
    requires s.log <= t.log && HasStarted(s.log, k)
    ensures HasStarted(t.log, k)
  {
    var i :| 0 <= i < |s.log| && s.log[i] == Started(k);
    assert t.log[i] == Started(k);
  }

  lemma CountsFrame(s: Sys, t: Sys)
    requires CountsHold(s) && s.log <= t.log && t.counted == s.counted && t.toCount <= s.toCount
    requires forall id :: id in t.orders && id in s.orders ==>
               t.orders[id].cycleCount == s.orders[id].cycleCount
                   && t.orders[id].unattendedCount <= s.orders[id].unattendedCount
    requires forall id :: id in t.orders && id !in s.orders ==>
               t.orders[id].cycleCount == t.orders[id].unattendedCount == 0 && CountedOf(s, id) == {}
    ensures CountsHold(t)
  {
    forall k | k in t.toCount || k in t.counted
      ensures k < |t.log| && t.log[k].Summon? && t.log[k].orderId.Some? && t.log[k].depth == 0 && HasStarted(t.log, k)
    {
      StaysStarted(s, t, k);
    }
    forall id ensures CountedOf(s, id) == CountedOf(t, id) { SameCounted(s, t, id); }
  }

  lemma CauseFrame(s: Sys, t: Sys, id: string, x: nat)
    requires s.log <= t.log && s.counted <= t.counted && CountedCause(s, id, x)
    ensures CountedCause(t, id, x)
  {
    var k :| k in CountedOf(s, id) && s.log[k].cause == x;
    assert k in CountedOf(t, id) && t.log[k].cause == x;
  }

  lemma CyclesFrame(s: Sys, t: Sys)
    requires CyclesHold(s) && Wired(s, t) && s.counted <= t.counted
    requires |t.log| == |s.log| || !t.log[|s.log|].Cycled?
    requires forall id, cycle, x :: (id, cycle, x) in t.toCycle ==>
            (id, cycle, x) in s.toCycle || CountedCause(t, id, x)
    ensures CyclesHold(t)
  {
    forall id, x | CountedCause(s, id, x) ensures CountedCause(t, id, x) { CauseFrame(s, t, id, x); }
  }

  /** Everything but tokens, statuses, streaks and terms stays; at most an event no index speaks of is appended. */
  lemma QuietKeeps(s: Sys, t: Sys)
    requires Inv(s) && Wired(s, t)
    requires |t.log| == |s.log| || t.log[|s.log|].Completed? || t.log[|s.log|].Other?
    requires t.claims == s.claims && t.orders.Keys == s.orders.Keys && t.counted == s.counted
    requires t.toSummon <= s.toSummon && t.toCount <= s.toCount && t.toCycle <= s.toCycle
    requires forall id :: id in s.orders ==>
               && t.orders[id].openCycleSeq == s.orders[id].openCycleSeq
                   && t.orders[id].cycleCount == s.orders[id].cycleCount
               && t.orders[id].unattendedCount <= s.orders[id].unattendedCount
    ensures Inv(t)
  {
    ClaimsFrame(s, t);
    LogFrame(s, t);
    CountsFrame(s, t);
    CyclesFrame(s, t);
  }

  lemma OwnIsKnown(s: Sys, k: nat, id: string)
    requires LogHolds(s) && k < |s.log| && Own(s.log[k], id)
    ensures id in s.orders
  {
    assert OwnSummonHolds(s, s.log[k], id);
  }

  lemma NoneOwned(s: Sys, id: string)
    requires LogHolds(s) && id !in s.orders
    ensures CountedOf(s, id) == {}
  {
    forall k: nat | k < |s.log| ensures !Own(s.log[k], id) {
      if Own(s.log[k], id) { OwnIsKnown(s, k, id); }
    }
  }

  lemma CreateClaims(s: Sys, id: string, o: Order)
    requires ClaimsHold(s) && id !in s.orders && o.openCycleSeq.None?
    ensures ClaimsHold(s.(orders := s.orders[id := o], claims := s.claims[id := []]))
  {
  }

  lemma CreateWires(s: Sys, id: string, o: Order)
    requires s.claims.Keys == s.orders.Keys && id !in s.orders
    ensures Wired(s, s.(orders := s.orders[id := o], claims := s.claims[id := []]))
  {
  }

  lemma CreateCounts(s: Sys, t: Sys, id: string, o: Order)
    requires CountsHold(s) && id !in s.orders && o.cycleCount == o.unattendedCount == 0 && CountedOf(s, id) == {}
    requires t == s.(orders := s.orders[id := o], claims := s.claims[id := []])
    ensures CountsHold(t)
  {
    CountsFrame(s, t);
  }

  lemma CreateKeeps(s: Sys, id: string, room: string, trig: string, act: string, terms: Terms)
    requires Inv(s)
    ensures Inv(DoCreate(s, id, room, trig, act, terms))
  {
    if id !in s.orders {
      var o := Order(room, trig, act, terms, Active, None, None, 0, 0);
      var t := DoCreate(s, id, room, trig, act, terms);
      NoneOwned(s, id);
      CreateClaims(s, id, o);
      CreateWires(s, id, o);
      CreateCounts(s, t, id, o);
      LogFrame(s, t);
      CyclesFrame(s, t);
    }
  }

  lemma ClaimClaims(s: Sys, id: string, trigger: nat)
    requires ClaimsHold(s) && MayClaim(s, id, trigger)
    ensures ClaimsHold(DoClaim(s, id, trigger))
  {
    var t := DoClaim(s, id, trigger);
    ClaimExtends(s.claims[id], trigger);
    assert t.claims[id] == s.claims[id] + [trigger] && t.orders[id].openCycleSeq == Some(trigger);
  }

  lemma ClaimWires(s: Sys, id: string, trigger: nat)
    requires MayClaim(s, id, trigger)
    ensures Wired(s, DoClaim(s, id, trigger))
  {
    forall x | x in s.claims[id] ensures x in s.claims[id] + [trigger] {}
  }

  lemma ClaimLog(s: Sys, t: Sys, id: string, trigger: nat)
    requires LogHolds(s) && MayClaim(s, id, trigger) && t == DoClaim(s, id, trigger) && Wired(s, t)
    ensures LogHolds(t)
  {
    assert t.claims[id][|s.claims[id]|] == trigger;
    LogFrame(s, t);
  }

  lemma ClaimCounts(s: Sys, id: string, trigger: nat)
    requires CountsHold(s) && MayClaim(s, id, trigger)
    ensures CountsHold(DoClaim(s, id, trigger))
  {
    CountsFrame(s, DoClaim(s, id, trigger));
  }

  lemma ClaimCycles(s: Sys, id: string, trigger: nat)
    requires CyclesHold(s) && MayClaim(s, id, trigger)
    ensures CyclesHold(DoClaim(s, id, trigger))
  {
    ClaimWires(s, id, trigger);
    CyclesFrame(s, DoClaim(s, id, trigger));
  }

  lemma ClaimKeeps(s: Sys, id: string, trigger: nat)
    requires Inv(s)
    ensures Inv(DoClaim(s, id, trigger))
  {
    if MayClaim(s, id, trigger) {
      var t := DoClaim(s, id, trigger);
      ClaimClaims(s, id, trigger);
      ClaimWires(s, id, trigger);
      ClaimLog(s, t, id, trigger);
      ClaimCounts(s, id, trigger);
      ClaimCycles(s, id, trigger);
    }
  }

  lemma ClaimExtends(claims: seq<nat>, trigger: nat)
    requires Increasing(claims) && (claims == [] || claims[|claims| - 1] < trigger)
    ensures Increasing(claims + [trigger])
    ensures forall x :: x in claims + [trigger] <==> x in claims || x == trigger
  {
  }

  lemma SummonKeeps(s: Sys, e: Event)
    requires Inv(s) && e.Summon?
    requires forall id :: Own(e, id) ==> OwnSummonHolds(s, e, id)
    ensures Inv(DoSummon(s, e))
  {
    if !HasSummon(s.log, e.roomId, e.cause, e.member) {
      var t := s.(log := s.log + [e]);
      ClaimsFrame(s, t);
      CountsFrame(s, t);
      CyclesFrame(s, t);
      SummonLog(s, t, e);
    }
  }

  lemma SummonLog(s: Sys, t: Sys, e: Event)
    requires LogHolds(s) && e.Summon? && t == s.(log := s.log + [e])
    requires !HasSummon(s.log, e.roomId, e.cause, e.member) && forall id :: Own(e, id) ==> OwnSummonHolds(s, e, id)
    ensures LogHolds(t)
  {
    forall k, id | 0 <= k < |t.log| && Own(t.log[k], id) ensures OwnSummonHolds(t, t.log[k], id) {
      if k < |s.log| { OwnFrame(s, t, s.log[k], id); } else { OwnFrame(s, t, e, id); }
    }
  }

  lemma {:induction false} FireKeeps(s: Sys, id: string, trigger: nat)
    requires Inv(s)
    ensures Inv(DoFireSummon(s, id, trigger))
  {
    if (id, trigger) in s.toSummon && id in s.orders {
      var taken := s.(toSummon := s.toSummon - {(id, trigger)});
      QuietKeeps(s, taken);
      SummonKeeps(taken, Summon(s.orders[id].roomId, s.orders[id].actionMember, trigger, Some(id), 0));
    }
  }

  lemma StartKeeps(s: Sys, k: nat)
    requires Inv(s)
    ensures Inv(DoStart(s, k))
  {
    if k < |s.log| && s.log[k].Summon? && !HasStarted(s.log, k) {
      var t := DoStart(s, k);
      ClaimsFrame(s, t);
      LogFrame(s, t);
      CyclesFrame(s, t);
      StartCounts(s, k);
    }
  }

  lemma StartCounts(s: Sys, k: nat)
    requires CountsHold(s) && k < |s.log| && s.log[k].Summon? && !HasStarted(s.log, k)
    ensures CountsHold(DoStart(s, k))
  {
    var t := DoStart(s, k);
    forall x ensures CountedOf(s, x) == CountedOf(t, x) { SameCounted(s, t, x); }
    assert t.log[|s.log|] == Started(k) && HasStarted(t.log, k);
    forall x | x in s.toCount || x in s.counted ensures HasStarted(t.log, x) { StaysStarted(s, t, x); }
  }

  lemma CountWires(s: Sys, k: nat)
    requires MayCount(s, k)
    ensures Wired(s, DoCount(s, k))
  {
  }

  lemma CountClaims(s: Sys, k: nat)
    requires ClaimsHold(s) && MayCount(s, k)
    ensures ClaimsHold(DoCount(s, k))
  {
    ClaimsFrame(s, DoCount(s, k));
  }

  lemma CountCycles(s: Sys, t: Sys, k: nat)
    requires CyclesHold(s) && MayCount(s, k) && t == DoCount(s, k) && Wired(s, t) && s.log[k].depth == 0
    ensures CyclesHold(t)
  {
    if k in t.counted {
      assert k in CountedOf(t, s.log[k].orderId.value);
    }
    CyclesFrame(s, t);
  }

  lemma {:induction false} CountKeeps(s: Sys, k: nat)
    requires Inv(s)
    ensures Inv(DoCount(s, k))
  {
    if MayCount(s, k) {
      var t, id := DoCount(s, k), s.log[k].orderId.value;
      CountWires(s, k);
      CountClaims(s, k);
      LogFrame(s, t);
      CountCycles(s, t, k);
      if s.orders[id].status == Active { CountAddsOne(s, t, k, id); } else { CountsFrame(s, t); }
    }
  }

  lemma CountedGrows(s: Sys, t: Sys, k: nat, id: string)
    requires k < |s.log| && Own(s.log[k], id) && t.log == s.log && t.counted == s.counted + {k}
    ensures CountedOf(t, id) == CountedOf(s, id) + {k}
    ensures forall x :: x != id ==> CountedOf(t, x) == CountedOf(s, x)
  {
    forall x | x != id ensures CountedOf(t, x) == CountedOf(s, x) {
      assert !Own(s.log[k], x);
    }
  }

  lemma CountTokens(s: Sys, k: nat)
    requires CountsHold(s) && MayCount(s, k)
    ensures var t := DoCount(s, k);
      && (forall x :: x in t.toCount || x in t.counted ==>
            x < |t.log| && t.log[x].Summon? && t.log[x].orderId.Some? && t.log[x].depth == 0 && HasStarted(t.log, x))
      && t.toCount !! t.counted
  {
  }

  lemma CountAddsOne(s: Sys, t: Sys, k: nat, id: string)
    requires CountsHold(s) && MayCount(s, k) && id == s.log[k].orderId.value && s.orders[id].status == Active
    requires t == DoCount(s, k)
    ensures CountsHold(t)
  {
    CountTokens(s, k);
    CountedGrows(s, t, k, id);
    assert k !in CountedOf(s, id);
  }

  lemma RecordCycles(s: Sys, t: Sys, id: string, cycle: nat, trigger: nat)
    requires CyclesHold(s) && (id, cycle, trigger) in s.toCycle && id in s.orders
    requires t == DoRecord(s, id, cycle, trigger)
    ensures CyclesHold(t)
  {
    forall x, y | CountedCause(s, x, y) ensures CountedCause(t, x, y) { CauseFrame(s, t, x, y); }
  }

  lemma {:induction false} RecordKeeps(s: Sys, id: string, cycle: nat, trigger: nat)
    requires Inv(s)
    ensures Inv(DoRecord(s, id, cycle, trigger))
  {
    if (id, cycle, trigger) in s.toCycle && id in s.orders {
      var t := DoRecord(s, id, cycle, trigger);
      ClaimsFrame(s, t);
      LogFrame(s, t);
      CountsFrame(s, t);
      RecordCycles(s, t, id, cycle, trigger);
    }
  }

  lemma WatchedRowsWire(s: Sys, room: string)
    requires s.claims.Keys == s.orders.Keys
    ensures Wired(s, s.(orders := WatchedRows(s.orders, room)))
  {
  }

  lemma WatchedClaims(s: Sys, room: string)
    requires ClaimsHold(s)
    ensures ClaimsHold(s.(orders := WatchedRows(s.orders, room)))
  {
    ClaimsFrame(s, s.(orders := WatchedRows(s.orders, room)));
  }

  lemma WatchedCounts(s: Sys, room: string)
    requires CountsHold(s)
    ensures CountsHold(s.(orders := WatchedRows(s.orders, room)))
  {
    CountsFrame(s, s.(orders := WatchedRows(s.orders, room)));
  }

  lemma WatchedRowsKeep(s: Sys, room: string)
    requires Inv(s)
    ensures Inv(s.(orders := WatchedRows(s.orders, room)))
  {
    var t := s.(orders := WatchedRows(s.orders, room));
    WatchedRowsWire(s, room);
    WatchedClaims(s, room);
    WatchedCounts(s, room);
    LogFrame(s, t);
    CyclesFrame(s, t);
  }

  lemma OtherKeeps(s: Sys)
    requires Inv(s)
    ensures Inv(s.(log := s.log + [Other]))
  {
    TokensKeep(s, s.(log := s.log + [Other]));
  }

  lemma WatchedKeeps(s: Sys, room: string)
    requires Inv(s)
    ensures Inv(Apply(s, HumanMessage(room)))
  {
    WatchedRowsKeep(s, room);
    OtherKeeps(s.(orders := WatchedRows(s.orders, room)));
  }

  lemma {:induction false} RowStepKeeps(s: Sys, id: string, o: Order, toWrite: multiset<(string, Status)>)
    requires Inv(s) && id in s.orders
    requires o.roomId == s.orders[id].roomId && o.actionMember == s.orders[id].actionMember
    requires o.openCycleSeq == s.orders[id].openCycleSeq && o.cycleCount == s.orders[id].cycleCount
    requires o.unattendedCount <= s.orders[id].unattendedCount
    ensures Inv(s.(orders := s.orders[id := o], toWrite := toWrite))
  {
    QuietKeeps(s, s.(orders := s.orders[id := o], toWrite := toWrite));
  }

  lemma TokensKeep(s: Sys, t: Sys)
    requires Inv(s)
    requires t.log == s.log || t.log == s.log + [Other] || exists room, member ::
            t.log == s.log + [Completed(room, member)]
    requires t.orders == s.orders && t.claims == s.claims && t.counted == s.counted
    requires t.toSummon <= s.toSummon && t.toCount <= s.toCount && t.toCycle <= s.toCycle
    ensures Inv(t)
  {
    QuietKeeps(s, t);
  }

  lemma {:induction false} WriteKeeps(s: Sys, id: string, next: Status, reason: Option<string>)
    requires Inv(s)
    ensures Inv(DoWrite(s, id, next, reason))
  {
    if (id, next) in s.toWrite && id in s.orders {
      RowStepKeeps(s, id, StatusRow(s.orders[id], next, reason), s.toWrite - multiset{(id, next)});
    }
  }

  lemma {:induction false} ConfigKeeps(s: Sys, id: string, terms: Terms)
    requires Inv(s)
    ensures Inv(DoConfig(s, id, terms))
  {
    if id in s.orders {
      RowStepKeeps(s, id, s.orders[id].(terms := terms), s.toWrite);
    }
  }

  lemma CompleteKeeps(s: Sys, room: string, member: string)
    requires Inv(s)
    ensures Inv(s.(log := s.log + [Completed(room, member)]))
  {
    TokensKeep(s, s.(log := s.log + [Completed(room, member)]));
  }

  lemma DecideKeeps(s: Sys, id: string, next: Status)
    requires Inv(s)
    ensures Inv(DoDecide(s, id, next))
  {
    StopKeeps(s, DoDecide(s, id, next));
  }

  lemma StopKeeps(s: Sys, t: Sys)
    requires Inv(s) && t == s.(toStop := t.toStop, toWrite := t.toWrite, lost := t.lost)
    ensures Inv(t)
  {
    TokensKeep(s, t);
  }

  lemma DropKeeps(s: Sys, id: string, t: nat, k: nat, cycle: nat, next: Status)
    requires Inv(s)
    ensures Inv(Apply(s, Drop(id, t, k, cycle, next)))
  {
    TokensKeep(s, Apply(s, Drop(id, t, k, cycle, next)));
  }

  lemma TokenStepKeeps(s: Sys, step: Step)
    requires Inv(s)
    requires step.Complete? || step.AppendOther? || step.DecideStatus? || step.ReadStop? || step.LoseStop? || step.Drop?
    ensures Inv(Apply(s, step))
  {
    match step
    case Complete(room, member) => CompleteKeeps(s, room, member);
    case AppendOther => OtherKeeps(s);
    case DecideStatus(id, next) => DecideKeeps(s, id, next);
    case ReadStop(id, next) => StopKeeps(s, DoReadStop(s, id, next));
    case LoseStop(id, next) => StopKeeps(s, DoLoseStop(s, id, next));
    case Drop(id, t, k, cycle, next) => DropKeeps(s, id, t, k, cycle, next);
  }

  lemma OrderStepKeeps(s: Sys, step: Step)
    requires Inv(s)
    requires step.Create? || step.Claim? || step.HumanMessage? || step.WriteStatus? || step.UpdateConfig?
    ensures Inv(Apply(s, step))
  {
    match step
    case Create(id, room, trig, act, terms) => CreateKeeps(s, id, room, trig, act, terms);
    case Claim(id, t) => ClaimKeeps(s, id, t);
    case HumanMessage(room) => WatchedKeeps(s, room);
    case WriteStatus(id, next, reason) => WriteKeeps(s, id, next, reason);
    case UpdateConfig(id, terms) => ConfigKeeps(s, id, terms);
  }

  lemma SummonStepKeeps(s: Sys, step: Step)
    requires Inv(s) && (step.FireSummon? || step.OtherSummon?)
    ensures Inv(Apply(s, step))
  {
    match step
    case FireSummon(id, t) => FireKeeps(s, id, t);
    case OtherSummon(room, member, cause, orderId, depth) =>
      if orderId.None? || depth > 0 { SummonKeeps(s, Summon(room, member, cause, orderId, depth)); }
  }

  lemma CycleStepKeeps(s: Sys, step: Step)
    requires Inv(s) && (step.StartTurn? || step.CountCycle? || step.RecordCycle?)
    ensures Inv(Apply(s, step))
  {
    match step
    case StartTurn(k) => StartKeeps(s, k);
    case CountCycle(k) => CountKeeps(s, k);
    case RecordCycle(id, cycle, t) => RecordKeeps(s, id, cycle, t);
  }

  /** Every step, whatever other steps it lands between, keeps all four invariants. */
  lemma {:induction false} StepKeeps(s: Sys, step: Step)
    requires Inv(s)
    ensures Inv(Apply(s, step))
  {
    if step.FireSummon? || step.OtherSummon? {
      SummonStepKeeps(s, step);
    } else if step.StartTurn? || step.CountCycle? || step.RecordCycle? {
      CycleStepKeeps(s, step);
    } else if step.Complete? || step.AppendOther? || step.DecideStatus? || step.ReadStop? || step.LoseStop?
              || step.Drop? {
      TokenStepKeeps(s, step);
    } else {
      OrderStepKeeps(s, step);
    }
  }

  lemma {:induction false} RunKeeps(s: Sys, steps: seq<Step>)
    requires Inv(s)
    ensures Inv(Run(s, steps))
    decreases |steps|
  {
    if steps != [] {
      StepKeeps(s, steps[0]);
      RunKeeps(Apply(s, steps[0]), steps[1..]);
    }
  }

  // ---------------------------------------------------------------- a counted cycle is a turn taken

  /** What every interleaving from an empty database guarantees about an order. */
  ghost predicate CountsMeanTurns(s: Sys, id: string)
    requires id in s.orders && id in s.claims
  {
    && Increasing(s.claims[id])
    && s.orders[id].unattendedCount <= s.orders[id].cycleCount <= |StartedOf(s, id)|
    && |StartedOf(s, id)| <= |SummonsOf(s, id)| <= |s.claims[id]|
    && |CycledOf(s, id)| <= s.orders[id].cycleCount
  }

  /** One of an order's own summons per claim: the unique index tells two apart by their cause. */
  lemma SummonsWithinClaims(s: Sys, id: string)
    requires ClaimsHold(s) && LogHolds(s) && id in s.orders
    ensures |SummonsOf(s, id)| <= |s.claims[id]|
  {
    var causes := map k | k in SummonsOf(s, id) :: s.log[k].cause;
    var claims := SetOf(s.claims[id]);
    forall k | k in SummonsOf(s, id) ensures causes[k] in claims { assert OwnSummonHolds(s, s.log[k], id); }
    forall j, k | j in SummonsOf(s, id) && k in SummonsOf(s, id) && causes[j] == causes[k] ensures j == k {
      assert OwnSummonHolds(s, s.log[j], id) && OwnSummonHolds(s, s.log[k], id);
    }
    InjectionSize(SummonsOf(s, id), causes, claims);
    DistinctSize(s.claims[id]);
  }

  ghost function SetOf(a: seq<nat>): set<nat> {
    set t | t in a
  }

  lemma {:induction false} DistinctSize(a: seq<nat>)
    requires Increasing(a)
    ensures |SetOf(a)| == |a|
  {
    if a != [] {
      var rest, last := a[..|a| - 1], a[|a| - 1];
      DistinctSize(rest);
      assert SetOf(a) == SetOf(rest) + {last} by {
        assert a == rest + [last];
      }
      assert last !in rest;
    }
  }

  /** One cycled row per counted summon: the rows of an order differ in their trigger. */
  lemma CycledWithinCounts(s: Sys, id: string)
    requires CyclesHold(s)
    ensures |CycledOf(s, id)| <= |CountedOf(s, id)|
  {
    var counted := map i | i in CycledOf(s, id) :: CauseOf(s, id, s.log[i].trigger);
    forall j, k | j in CycledOf(s, id) && k in CycledOf(s, id) && counted[j] == counted[k] ensures j == k {
      assert s.log[j].trigger == s.log[counted[j]].cause == s.log[k].trigger;
    }
    InjectionSize(CycledOf(s, id), counted, CountedOf(s, id));
  }

  ghost function CauseOf(s: Sys, id: string, trigger: nat): (k: nat)
    requires CountedCause(s, id, trigger)
    ensures k in CountedOf(s, id) && s.log[k].cause == trigger
  {
    var k :| k in CountedOf(s, id) && s.log[k].cause == trigger; k
  }

  lemma {:induction false} InvMeansTurns(s: Sys, id: string)
    requires Inv(s) && id in s.orders
    ensures id in s.claims && CountsMeanTurns(s, id)
  {
    SummonsWithinClaims(s, id);
    CycledWithinCounts(s, id);
    SubsetSize(StartedOf(s, id), SummonsOf(s, id));
    SubsetSize(CountedOf(s, id), StartedOf(s, id));
  }

  lemma EmptyHolds()
    ensures Inv(EMPTY)
  {
  }

  /** Whatever interleaving of completions, replays, claims, summons, starts, status writes, human messages and
   *  crashes: claims rise, and streak <= count <= started turns <= own summons <= claims; no more cycled rows than
   *  counts. */
  lemma {:induction false} CountedCyclesMeanTurns(steps: seq<Step>, id: string)
    requires id in Run(EMPTY, steps).orders
    ensures id in Run(EMPTY, steps).claims && CountsMeanTurns(Run(EMPTY, steps), id)
  {
    EmptyHolds();
    RunKeeps(EMPTY, steps);
    InvMeansTurns(Run(EMPTY, steps), id);
  }

  /** The summons one completion caused for one member. */
  ghost function Caused(s: Sys, roomId: string, cause: nat, member: string): set<nat> {
    set k | 0 <= k < |s.log| && s.log[k].Summon? && s.log[k].roomId == roomId && s.log[k].cause == cause
        && s.log[k].member == member
  }

  /** However many orders race one completion for one member, there is one summon at most, so one count at most,
   *  and it is the count of the order whose summon it is. */
  lemma {:induction false} OneCompletionOneSummon(steps: seq<Step>, roomId: string, cause: nat, member: string,
      a: string, b: string)
    ensures var s := Run(EMPTY, steps);
      && |Caused(s, roomId, cause, member)| <= 1
      && |Caused(s, roomId, cause, member) * s.counted| <= 1
      && (a != b ==> CountedOf(s, a) * Caused(s, roomId, cause, member) == {}
                     || CountedOf(s, b) * Caused(s, roomId, cause, member) == {})
  {
    EmptyHolds();
    RunKeeps(EMPTY, steps);
    var s := Run(EMPTY, steps);
    var caused := Caused(s, roomId, cause, member);
    if k :| k in caused {
      forall j | j in caused ensures j == k { SameSummon(s, j, k); }
      SubsetSize(caused, {k});
      SubsetSize(caused * s.counted, {k});
    }
  }

  lemma SameSummon(s: Sys, j: nat, k: nat)
    requires LogHolds(s) && j < |s.log| && k < |s.log| && s.log[j].Summon? && s.log[k].Summon?
    requires s.log[j].roomId == s.log[k].roomId && s.log[j].cause == s.log[k].cause
            && s.log[j].member == s.log[k].member
    ensures j == k
  {
  }

  // ---------------------------------------------------------------- is a terminal status final?

  /** A command has read the row and not yet written a status an order may leave. */
  predicate PendingRevival(s: Sys, id: string) {
    (id, Active) in s.toWrite || (id, Paused) in s.toWrite
  }

  ghost predicate StaysTerminal(s: Sys, id: string, steps: seq<Step>) {
    id in Run(s, steps).orders && Terminal(Run(s, steps).orders[id].status)
  }

  /** Steps that write no order row. */
  predicate Rowless(step: Step) {
    !(step.Create? || step.Claim? || step.CountCycle? || step.WriteStatus? || step.HumanMessage? || step.UpdateConfig?)
  }

  lemma OrdersStay(s: Sys, step: Step)
    requires Rowless(step)
    ensures Apply(s, step).orders == s.orders
  {
  }

  lemma StatusStays(s: Sys, id: string, step: Step)
    requires id in s.orders && !step.WriteStatus?
    ensures id in Apply(s, step).orders && Apply(s, step).orders[id].status == s.orders[id].status
  {
    if Rowless(step) { OrdersStay(s, step); } else if step.HumanMessage? { WatchedStays(s, step.roomId, id); }
  }

  lemma StatusStep(s: Sys, id: string, step: Step)
    requires id in s.orders && Terminal(s.orders[id].status) && !PendingRevival(s, id)
    ensures id in Apply(s, step).orders && Terminal(Apply(s, step).orders[id].status)
  {
    if !step.WriteStatus? { StatusStays(s, id, step); }
  }

  /** Nobody decides to resume or pause a terminal order. */
  lemma PendingStep(s: Sys, id: string, step: Step)
    requires id in s.orders && Terminal(s.orders[id].status) && !PendingRevival(s, id)
    ensures !PendingRevival(Apply(s, step), id)
  {
    if !step.DecideStatus? && !step.ReadStop? && !step.WriteStatus? && !step.Drop? { WritesStay(s, step); }
  }

  lemma WritesStay(s: Sys, step: Step)
    requires !step.DecideStatus? && !step.ReadStop? && !step.WriteStatus? && !step.Drop?
    ensures Apply(s, step).toWrite == s.toWrite
  {
  }

  lemma TerminalStep(s: Sys, id: string, step: Step)
    requires id in s.orders && Terminal(s.orders[id].status) && !PendingRevival(s, id)
    ensures id in Apply(s, step).orders && Terminal(Apply(s, step).orders[id].status)
            && !PendingRevival(Apply(s, step), id)
  {
    StatusStep(s, id, step);
    PendingStep(s, id, step);
  }

  lemma {:induction false} TerminalRun(s: Sys, id: string, steps: seq<Step>)
    requires id in s.orders && Terminal(s.orders[id].status) && !PendingRevival(s, id)
    ensures StaysTerminal(s, id, steps)
    decreases |steps|
  {
    if steps != [] {
      TerminalStep(s, id, steps[0]);
      TerminalRun(Apply(s, steps[0]), id, steps[1..]);
    }
  }

  lemma RunOne(s: Sys, step: Step)
    ensures Run(s, [step]) == Apply(s, step)
  {
    assert [step][1..] == [];
    assert Run(Apply(s, step), []) == Apply(s, step);
  }

  /** orders.ts promises a terminal state is never left. That is so exactly when no command is between its read
   *  of the row and its write of ACTIVE or PAUSED: `setOrderStatus` does not re-check. */
  lemma TerminalIsFinalIffNothingPends(s: Sys, id: string)
    requires id in s.orders && Terminal(s.orders[id].status)
    ensures (forall steps :: StaysTerminal(s, id, steps)) <==> !PendingRevival(s, id)
  {
    if PendingRevival(s, id) {
      var next := if (id, Active) in s.toWrite then Active else Paused;
      RunOne(s, WriteStatus(id, next, None));
      assert !StaysTerminal(s, id, [WriteStatus(id, next, None)]);
    } else {
      forall steps ensures StaysTerminal(s, id, steps) { TerminalRun(s, id, steps); }
    }
  }

  lemma DecidePends(s: Sys, id: string, next: Status)
    requires id in s.orders && MayDecide(s.orders[id].status, next)
    ensures var read := Apply(s, DecideStatus(id, next));
      && (id, next) in read.toWrite && s.toWrite <= read.toWrite && read.orders == s.orders
  {
  }

  lemma WriteLands(s: Sys, id: string, next: Status)
    requires id in s.orders && (id, next) in s.toWrite
    ensures var written := Apply(s, WriteStatus(id, next, None));
      && id in written.orders && written.orders[id].status == next
      && written.toWrite == s.toWrite - multiset{(id, next)}
  {
  }

  /** A pause and a revoke both read the row ACTIVE, and the revoke lands first. */
  function Raced(s: Sys, id: string): Sys {
    Apply(Apply(Apply(s, DecideStatus(id, Paused)), DecideStatus(id, Revoked)), WriteStatus(id, Revoked, None))
  }

  lemma RacedIsRevoked(s: Sys, id: string)
    requires id in s.orders && s.orders[id].status == Active
    ensures id in Raced(s, id).orders && Raced(s, id).orders[id].status == Revoked
            && (id, Paused) in Raced(s, id).toWrite
  {
    DecidePends(s, id, Paused);
    var read := Apply(s, DecideStatus(id, Paused));
    DecidePends(read, id, Revoked);
    WriteLands(Apply(read, DecideStatus(id, Revoked)), id, Revoked);
  }

  /** The pause lands over whatever is there, and a resume follows. */
  function PausedAndResumed(s: Sys, id: string): Sys {
    Apply(Apply(Apply(s, WriteStatus(id, Paused, None)), DecideStatus(id, Active)), WriteStatus(id, Active, None))
  }

  lemma StalePauseThenResume(s: Sys, id: string)
    requires id in s.orders && (id, Paused) in s.toWrite
    ensures id in PausedAndResumed(s, id).orders && PausedAndResumed(s, id).orders[id].status == Active
  {
    WriteLands(s, id, Paused);
    var paused := Apply(s, WriteStatus(id, Paused, None));
    DecidePends(paused, id, Active);
    WriteLands(Apply(paused, DecideStatus(id, Active)), id, Active);
  }

  /** So a revoked order runs again: from any active order, the stale pause lands over the revoke, and a resume
   *  follows. */
  lemma {:induction false} RevokedOrderRunsAgain(s: Sys, id: string)
    requires id in s.orders && s.orders[id].status == Active
    ensures id in Raced(s, id).orders && Raced(s, id).orders[id].status == Revoked
    ensures id in PausedAndResumed(Raced(s, id), id).orders
            && PausedAndResumed(Raced(s, id), id).orders[id].status == Active
  {
    RacedIsRevoked(s, id);
    StalePauseThenResume(Raced(s, id), id);
  }

  // ---------------------------------------------------------------- how far the cap is passed

  /** A cap below one, which the HTTP route lets through, is read only after a first count. */
  function Cap(o: Order): nat
    requires o.terms.maxCycles.Some?
  {
    Max(1, o.terms.maxCycles.value)
  }

  /** How many cycles an order has counted past its cap. */
  function Overshoot(s: Sys, id: string): nat {
    if id in s.orders && s.orders[id].terms.maxCycles.Some? then Max(0, s.orders[id].cycleCount - Cap(s.orders[id]))
    else 0
  }

  /** Stops of the order for its cap, owed and not yet written. */
  function Owed(s: Sys, id: string): nat {
    s.toStop[(id, LimitReached)] + s.toWrite[(id, LimitReached)]
  }

  function Lost(s: Sys, id: string): nat {
    s.lost[(id, LimitReached)]
  }

  /** An order still active past its cap has counted no further than stops are owed for it or died; and none is owed
   *  before the cap is reached. */
  ghost predicate CapHolds(s: Sys, id: string) {
    if id !in s.orders || s.orders[id].terms.maxCycles.None? then Owed(s, id) + Lost(s, id) == 0
    else
      var o := s.orders[id];
      && (o.status == Active && o.cycleCount >= Cap(o) ==> o.cycleCount - Cap(o) + 1 <= Owed(s, id) + Lost(s, id))
      && (Owed(s, id) + Lost(s, id) > 0 ==> o.cycleCount >= Cap(o))
  }

  /** The step counts a cycle of the order. */
  predicate Counts(s: Sys, step: Step, id: string) {
    && step.CountCycle? && MayCount(s, step.summon) && s.log[step.summon].orderId == Some(id)
    && s.orders[id].status == Active
  }

  predicate Edits(step: Step, id: string) {
    step.UpdateConfig? && step.id == id
  }

  /** A resume lands on an order that has run its cycles. */
  predicate Revives(s: Sys, step: Step, id: string) {
    && step.WriteStatus? && step.id == id && step.next == Active && (id, Active) in s.toWrite
    && id in s.orders && s.orders[id].terms.maxCycles.Some? && s.orders[id].cycleCount >= Cap(s.orders[id])
  }

  /** Nobody edits the order's terms or revives it. */
  ghost predicate Undisturbed(s: Sys, steps: seq<Step>, id: string)
    decreases |steps|
  {
    steps == [] ||
    (!Edits(steps[0], id) && !Revives(s, steps[0], id) && Undisturbed(Apply(s, steps[0]), steps[1..], id))
  }

  lemma OtherOwes(s: Sys, step: Step, id: string)
    requires !step.CountCycle? && !step.WriteStatus? && !step.ReadStop? && !step.LoseStop? && !step.Drop?
    ensures Owed(Apply(s, step), id) == Owed(s, id) && Lost(Apply(s, step), id) == Lost(s, id)
  {
    if step.DecideStatus? && step.id in s.orders {
      assert MayDecide(s.orders[step.id].status, step.next) ==> step.next != LimitReached;
    }
  }

  /** A stop whose process dies is owed no more, and lost. */
  lemma DeathLoses(s: Sys, step: Step, id: string)
    requires step.LoseStop? || step.Drop?
    ensures Owed(Apply(s, step), id) + Lost(Apply(s, step), id) == Owed(s, id) + Lost(s, id)
  {
  }

  lemma ReadStopCap(s: Sys, x: string, next: Status, id: string)
    requires CapHolds(s, id)
    ensures CapHolds(DoReadStop(s, x, next), id)
  {
  }

  lemma WriteCap(s: Sys, x: string, next: Status, reason: Option<string>, id: string)
    requires CapHolds(s, id) && !Revives(s, WriteStatus(x, next, reason), id)
    ensures CapHolds(DoWrite(s, x, next, reason), id)
  {
  }

  lemma CountCap(s: Sys, k: nat, id: string)
    requires CapHolds(s, id)
    ensures CapHolds(DoCount(s, k), id)
  {
    if MayCount(s, k) {
      var x := s.log[k].orderId.value;
      assert Owing(x, CountedRow(s.orders[x]))[(id, LimitReached)]
          == if x == id && AtCap(CountedRow(s.orders[x])) then 1 else 0;
    }
  }

  /** A step that neither counts, stops nor writes a status. */
  lemma QuietCap(s: Sys, step: Step, id: string)
    requires CapHolds(s, id) && !Edits(step, id)
    requires !step.CountCycle? && !step.WriteStatus? && !step.ReadStop?
    ensures CapHolds(Apply(s, step), id)
  {
    if step.LoseStop? || step.Drop? { DeathLoses(s, step, id); } else { OtherOwes(s, step, id); }
    if id in s.orders {
      CountStays(s, step, id);
      StatusStays(s, id, step);
    }
  }

  lemma CapStep(s: Sys, step: Step, id: string)
    requires CapHolds(s, id) && !Edits(step, id) && !Revives(s, step, id)
    ensures CapHolds(Apply(s, step), id)
  {
    match step
    case CountCycle(k) => CountCap(s, k, id);
    case WriteStatus(x, next, reason) => WriteCap(s, x, next, reason, id);
    case ReadStop(x, next) => ReadStopCap(s, x, next, id);
    case _ => QuietCap(s, step, id);
  }

  /** Overshoot grows exactly with a count made while a stop is owed, or was lost. */
  lemma OvershootStep(s: Sys, step: Step, id: string)
    requires CapHolds(s, id) && !Edits(step, id)
    ensures Overshoot(Apply(s, step), id)
         == Overshoot(s, id) + (if Counts(s, step, id) && Owed(s, id) + Lost(s, id) > 0 then 1 else 0)
  {
    if step.CountCycle? { CountOvershoots(s, step.summon, id); } else if id in s.orders { CountStays(s, step, id); }
  }

  lemma CountOvershoots(s: Sys, k: nat, id: string)
    requires CapHolds(s, id)
    ensures Overshoot(DoCount(s, k), id)
         == Overshoot(s, id) + (if Counts(s, CountCycle(k), id) && Owed(s, id) + Lost(s, id) > 0 then 1 else 0)
  {
  }

  lemma CountStays(s: Sys, step: Step, id: string)
    requires id in s.orders && !step.CountCycle? && !Edits(step, id)
    ensures id in Apply(s, step).orders
    ensures Apply(s, step).orders[id].cycleCount == s.orders[id].cycleCount
    ensures Apply(s, step).orders[id].terms == s.orders[id].terms
  {
    if Rowless(step) { OrdersStay(s, step); } else if step.HumanMessage? { WatchedStays(s, step.roomId, id); }
  }

  lemma WatchedStays(s: Sys, room: string, id: string)
    requires id in s.orders
    ensures var o := WatchedRows(s.orders, room)[id];
      o.cycleCount == s.orders[id].cycleCount && o.terms == s.orders[id].terms && o.status == s.orders[id].status
  {
  }

  /** Some cycle is counted while a stop of the order is owed, or was lost. */
  ghost predicate CountsUnstopped(s: Sys, steps: seq<Step>, id: string)
    decreases |steps|
  {
    steps != [] && ((Counts(s, steps[0], id) && Owed(s, id) + Lost(s, id) > 0)
                    || CountsUnstopped(Apply(s, steps[0]), steps[1..], id))
  }

  lemma {:induction false} PassedIffUnstopped(s: Sys, steps: seq<Step>, id: string)
    requires CapHolds(s, id) && Undisturbed(s, steps, id)
    ensures Overshoot(Run(s, steps), id) > 0 <==> Overshoot(s, id) > 0 || CountsUnstopped(s, steps, id)
    decreases |steps|
  {
    if steps != [] {
      CapStep(s, steps[0], id);
      OvershootStep(s, steps[0], id);
      PassedIffUnstopped(Apply(s, steps[0]), steps[1..], id);
    }
  }

  /** Over every interleaving from an empty store in which nobody edits or revives it, an order passes its cap if and
   *  only if one of its cycles is counted while the stop an earlier count left is not yet written, or died. */
  lemma CapIsPassedIffCountedUnstopped(steps: seq<Step>, id: string)
    requires Undisturbed(EMPTY, steps, id)
    ensures Overshoot(Run(EMPTY, steps), id) > 0 <==> CountsUnstopped(EMPTY, steps, id)
  {
    PassedIffUnstopped(EMPTY, steps, id);
  }

  /** Cycles of the order whose turn has started and whose count, or the stop it left, is still to come. */
  ghost function Uncounted(s: Sys, id: string): set<nat> {
    set k | k in s.toCount && k < |s.log| && s.log[k].Summon? && s.log[k].orderId == Some(id)
  }

  ghost function Open(s: Sys, id: string): nat {
    |Uncounted(s, id)| + Owed(s, id)
  }

  ghost predicate AtMostOpen(s: Sys, steps: seq<Step>, id: string, n: nat)
    decreases |steps|
  {
    Open(s, id) <= n && (steps == [] || AtMostOpen(Apply(s, steps[0]), steps[1..], id, n))
  }

  lemma LostGrows(s: Sys, step: Step, id: string)
    ensures Lost(Apply(s, step), id) >= Lost(s, id)
  {
    if !step.LoseStop? && !step.Drop? { assert Apply(s, step).lost == s.lost; }
  }

  /** A count past the cap has its own cycle open beside every stop owed. */
  lemma OvershootStepBound(s: Sys, step: Step, id: string, n: nat)
    requires CapHolds(s, id) && !Edits(step, id) && 1 <= n && Open(s, id) <= n
    requires Overshoot(s, id) <= n - 1 + Lost(s, id)
    ensures Overshoot(Apply(s, step), id) <= n - 1 + Lost(Apply(s, step), id)
  {
    OvershootStep(s, step, id);
    LostGrows(s, step, id);
    if Counts(s, step, id) {
      assert step.summon in Uncounted(s, id);
    }
  }

  lemma {:induction false} OvershootRun(s: Sys, steps: seq<Step>, id: string, n: nat)
    requires CapHolds(s, id) && Undisturbed(s, steps, id) && 1 <= n && AtMostOpen(s, steps, id, n)
    requires Overshoot(s, id) <= n - 1 + Lost(s, id)
    ensures Overshoot(Run(s, steps), id) <= n - 1 + Lost(Run(s, steps), id)
    decreases |steps|
  {
    if steps != [] {
      CapStep(s, steps[0], id);
      OvershootStepBound(s, steps[0], id, n);
      OvershootRun(Apply(s, steps[0]), steps[1..], id, n);
    }
  }

  /** Over every interleaving from an empty store in which nobody edits or revives the order: with at most `n` of its
   *  cycles between their start and their stop at any moment, it passes its cap by at most `n - 1`, and one more for
   *  each stop whose process died. One cycle at a time and no death: the cap holds. */
  lemma OvershootIsBounded(steps: seq<Step>, id: string, n: nat)
    requires Undisturbed(EMPTY, steps, id) && 1 <= n && AtMostOpen(EMPTY, steps, id, n)
    ensures Overshoot(Run(EMPTY, steps), id) <= n - 1 + Lost(Run(EMPTY, steps), id)
  {
    OvershootRun(EMPTY, steps, id, n);
  }

  lemma {:induction false} RunConcat(s: Sys, a: seq<Step>, b: seq<Step>)
    ensures Run(s, a + b) == Run(Run(s, a), b)
    decreases |a|
  {
    if a == [] {
      assert a + b == b;
    } else {
      assert (a + b)[1..] == a[1..] + b;
      RunConcat(Apply(s, a[0]), a[1..], b);
    }
  }

  // ---------------------------------------------------------------- what each statement takes

  /** A claim is taken if and only if the completion is one of the order's trigger member in its room, the order is
   *  active, and it has claimed none as new; it leaves a summon to fire and touches nothing else of the order. */
  lemma ClaimTakesNewCompletions(s: Sys, id: string, t: nat)
    requires id in s.orders && id in s.claims && t < |s.log|
    ensures var o, after := s.orders[id], Apply(s, Claim(id, t));
      if && s.log[t] == Completed(o.roomId, o.triggerMember) && o.status == Active
         && (o.openCycleSeq == None || o.openCycleSeq.value < t)
      then
        && after.orders == s.orders[id := o.(openCycleSeq := Some(t))] && after.toSummon == s.toSummon + {(id, t)}
        && after.log == s.log
      else after == s
  {
  }

  /** A command or gate decides on a status if and only if the row it reads allows it: ACTIVE from PAUSED, REVOKED from
   *  what is not over, PAUSED and EXPIRED from ACTIVE. */
  lemma DecisionsNeedTheRow(s: Sys, id: string, next: Status)
    requires id in s.orders
    ensures var status, after := s.orders[id].status, Apply(s, DecideStatus(id, next));
      if || (next == Active && status == Paused)
         || (next == Revoked && (status == Active || status == Paused))
         || ((next == Paused || next == Expired) && status == Active)
      then after == s.(toWrite := s.toWrite + multiset{(id, next)})
      else after == s
  {
  }

  /** A summon row is written if and only if the log holds none of its room, cause and member. */
  lemma SummonRowIsWrittenOnce(s: Sys, room: string, member: string, cause: nat, orderId: Option<string>, depth: nat)
    requires orderId.None? || depth > 0
    ensures var e := Summon(room, member, cause, orderId, depth);
      Apply(s, OtherSummon(room, member, cause, orderId, depth)).log
      == if exists i :: 0 <= i < |s.log| && s.log[i].Summon? && s.log[i].roomId == room && s.log[i].cause == cause
                        && s.log[i].member == member
         then s.log else s.log + [e]
  {
  }

  // ---------------------------------------------------------------- what the counters count

  /** A person is there: a message in the order's room while it is active, or the order set active. */
  predicate Watches(s: Sys, step: Step, id: string) {
    id in s.orders
    && ((step.HumanMessage? && step.roomId == s.orders[id].roomId && s.orders[id].status == Active)
        || (step.WriteStatus? && step.id == id && step.next == Active && (id, Active) in s.toWrite))
  }

  /** The order's cycles counted in a run from an empty store. */
  ghost function CyclesCounted(steps: seq<Step>, id: string): nat {
    if steps == [] then 0
    else
      var init, step := steps[..|steps| - 1], steps[|steps| - 1];
      CyclesCounted(init, id) + (if Counts(Run(EMPTY, init), step, id) then 1 else 0)
  }

  /** And those counted since a person was last there. */
  ghost function Unwatched(steps: seq<Step>, id: string): nat {
    if steps == [] then 0
    else
      var init, step := steps[..|steps| - 1], steps[|steps| - 1];
      if Counts(Run(EMPTY, init), step, id) then Unwatched(init, id) + 1
      else if Watches(Run(EMPTY, init), step, id) then 0
      else Unwatched(init, id)
  }

  lemma RunLast(s: Sys, steps: seq<Step>)
    requires steps != []
    ensures Run(s, steps) == Apply(Run(s, steps[..|steps| - 1]), steps[|steps| - 1])
  {
    var init, last := steps[..|steps| - 1], steps[|steps| - 1];
    assert init + [last] == steps;
    RunConcat(s, init, [last]);
    RunOne(Run(s, init), last);
  }

  /** What a step makes of an order's counters. */
  ghost predicate Told(s: Sys, t: Sys, step: Step, id: string)
    requires id in s.orders
  {
    id in t.orders
    && t.orders[id].cycleCount == s.orders[id].cycleCount + (if Counts(s, step, id) then 1 else 0)
    && t.orders[id].unattendedCount == if Counts(s, step, id) then s.orders[id].unattendedCount + 1
                                       else if Watches(s, step, id) then 0 else s.orders[id].unattendedCount
  }

  lemma CountTold(s: Sys, k: nat, id: string)
    requires id in s.orders
    ensures Told(s, DoCount(s, k), CountCycle(k), id)
  {
  }

  lemma WatchTold(s: Sys, room: string, id: string)
    requires id in s.orders
    ensures Told(s, Apply(s, HumanMessage(room)), HumanMessage(room), id)
  {
  }

  lemma WriteTold(s: Sys, x: string, next: Status, reason: Option<string>, id: string)
    requires id in s.orders
    ensures Told(s, DoWrite(s, x, next, reason), WriteStatus(x, next, reason), id)
  {
  }

  lemma CountersStep(s: Sys, step: Step, id: string)
    requires id in s.orders
    ensures Told(s, Apply(s, step), step, id)
  {
    match step
    case CountCycle(k) => CountTold(s, k, id);
    case HumanMessage(room) => WatchTold(s, room, id);
    case WriteStatus(x, next, reason) => WriteTold(s, x, next, reason, id);
    case _ => if Rowless(step) { RowlessTold(s, step, id); } else { RowTold(s, step, id); }
  }

  lemma RowlessTold(s: Sys, step: Step, id: string)
    requires id in s.orders && Rowless(step)
    ensures Told(s, Apply(s, step), step, id)
  {
    OrdersStay(s, step);
  }

  lemma RowTold(s: Sys, step: Step, id: string)
    requires id in s.orders && (step.Create? || step.Claim? || step.UpdateConfig?)
    ensures Told(s, Apply(s, step), step, id)
  {
  }

  lemma CreatedAtZero(s: Sys, step: Step, id: string)
    requires id !in s.orders
    ensures !Counts(s, step, id)
    ensures id in Apply(s, step).orders ==>
              Apply(s, step).orders[id].cycleCount == Apply(s, step).orders[id].unattendedCount == 0
  {
    if Rowless(step) { OrdersStay(s, step); }
  }

  /** Over every run from an empty store: the count is the number of cycles counted, and the streak the number counted
   *  since the order was created, set active, or written beside in its room while active. */
  lemma {:induction false} CountersCountCycles(steps: seq<Step>, id: string)
    ensures var s := Run(EMPTY, steps);
      if id in s.orders
      then s.orders[id].cycleCount == CyclesCounted(steps, id) && s.orders[id].unattendedCount == Unwatched(steps, id)
      else CyclesCounted(steps, id) == Unwatched(steps, id) == 0
  {
    if steps != [] {
      var init, step := steps[..|steps| - 1], steps[|steps| - 1];
      CountersCountCycles(init, id);
      RunLast(EMPTY, steps);
      if id in Run(EMPTY, init).orders { CountersStep(Run(EMPTY, init), step, id); }
          else { CreatedAtZero(Run(EMPTY, init), step, id); }
    }
  }

  /** Over every run from an empty store, the next cycle counted leaves the stop for the cap if it makes the count reach
   *  it, else the pause if it makes as many cycles as the dial allows with nobody there, else none. */
  lemma LimitsOweStops(steps: seq<Step>, k: nat, id: string)
    requires Counts(Run(EMPTY, steps), CountCycle(k), id)
    ensures var s := Run(EMPTY, steps); var terms := s.orders[id].terms;
      Apply(s, CountCycle(k)).toStop == s.toStop +
        if terms.maxCycles.Some? && CyclesCounted(steps, id) + 1 >= terms.maxCycles.value
          then multiset{(id, LimitReached)}
        else if Unwatched(steps, id) + 1 >= terms.maxUnattended then multiset{(id, Paused)}
        else multiset{}
  {
    CountersCountCycles(steps, id);
  }

  /** A completion at place `t` of the log, claimed, its summon fired and its turn started. */
  function CycleFrom(o: Order, id: string, t: nat): seq<Step> {
    [Complete(o.roomId, o.triggerMember)] + [Claim(id, t)] + [FireSummon(id, t)] + [StartTurn(t + 1)]
  }

  /** No summon yet for the next place of the log, and no start for the one after. */
  ghost predicate NextIsNew(log: seq<Event>) {
    && (forall i :: 0 <= i < |log| && log[i].Summon? ==> log[i].cause < |log|)
    && (forall i :: 0 <= i < |log| && log[i].Started? ==> log[i].summon < |log|)
  }

  lemma ClaimsNext(s: Sys, id: string, t: nat)
    requires id in s.orders && id in s.claims && t == |s.log| && s.orders[id].status == Active
    requires s.orders[id].openCycleSeq.Some? ==> s.orders[id].openCycleSeq.value < t
    ensures var o := s.orders[id];
      Apply(Apply(s, Complete(o.roomId, o.triggerMember)), Claim(id, t))
      == s.(log := s.log + [Completed(o.roomId, o.triggerMember)], orders := s.orders[id := ClaimedRow(o, t)],
            claims := s.claims[id := s.claims[id] + [t]], toSummon := s.toSummon + {(id, t)})
  {
  }

  lemma FiresNext(s: Sys, id: string, t: nat)
    requires id in s.orders && (id, t) in s.toSummon && |s.log| == t + 1
    requires forall i :: 0 <= i < |s.log| && s.log[i].Summon? ==> s.log[i].cause < t
    requires forall i :: 0 <= i < |s.log| && s.log[i].Started? ==> s.log[i].summon < t
    ensures var fired := Summon(s.orders[id].roomId, s.orders[id].actionMember, t, Some(id), 0);
      Apply(Apply(s, FireSummon(id, t)), StartTurn(t + 1))
      == s.(log := s.log + [fired] + [Started(t + 1)], toSummon := s.toSummon - {(id, t)}, toCount := s.toCount
          + {t + 1})
  {
    var fired := Summon(s.orders[id].roomId, s.orders[id].actionMember, t, Some(id), 0);
    assert (s.log + [fired])[t + 1] == fired;
  }

  lemma CycleRuns(s: Sys, id: string, t: nat)
    requires id in s.orders && id in s.claims && t == |s.log| && s.orders[id].status == Active && NextIsNew(s.log)
    requires s.orders[id].openCycleSeq.Some? ==> s.orders[id].openCycleSeq.value < t
    ensures var o := s.orders[id]; var end := Run(s, CycleFrom(o, id, t));
      && end.orders == s.orders[id := ClaimedRow(o, t)] && id in end.claims
      && end.log == s.log + [Completed(o.roomId, o.triggerMember)] + [Summon(o.roomId, o.actionMember, t, Some(id), 0)]
                    + [Started(t + 1)]
      && end.toCount == s.toCount + {t + 1} && NextIsNew(end.log)
      && end.toStop == s.toStop && end.toWrite == s.toWrite && end.lost == s.lost
  {
    var o := s.orders[id];
    RunConcat(s, [Complete(o.roomId, o.triggerMember)] + [Claim(id, t)] + [FireSummon(id, t)], [StartTurn(t + 1)]);
    RunConcat(s, [Complete(o.roomId, o.triggerMember)] + [Claim(id, t)], [FireSummon(id, t)]);
    RunConcat(s, [Complete(o.roomId, o.triggerMember)], [Claim(id, t)]);
    var completed := Apply(s, Complete(o.roomId, o.triggerMember));
    var claimed := Apply(completed, Claim(id, t));
    RunOne(s, Complete(o.roomId, o.triggerMember));
    RunOne(completed, Claim(id, t));
    RunOne(claimed, FireSummon(id, t));
    RunOne(Apply(claimed, FireSummon(id, t)), StartTurn(t + 1));
    ClaimsNext(s, id, t);
    FiresNext(claimed, id, t);
  }

  lemma CountsNext(s: Sys, k: nat, id: string)
    requires MayCount(s, k) && s.log[k].orderId == Some(id) && s.orders[id].status == Active
    ensures var t := Apply(s, CountCycle(k));
      && t.orders == s.orders[id := CountedRow(s.orders[id])] && t.log == s.log && t.claims == s.claims
      && t.toCount == s.toCount - {k} && t.toStop == s.toStop + Owing(id, CountedRow(s.orders[id]))
      && t.toWrite == s.toWrite && t.lost == s.lost
  {
  }

  /** A run that passes a cap of one: two cycles are under way before either is counted. */
  function TwoUnderWay(id: string, o: Order): seq<Step> {
    [Create(id, o.roomId, o.triggerMember, o.actionMember, o.terms)] + CycleFrom(o, id, 0) + CycleFrom(o, id, 3)
  }

  function Fresh(o: Order): Order {
    Order(o.roomId, o.triggerMember, o.actionMember, o.terms, Active, None, None, 0, 0)
  }

  lemma FirstUnderWay(id: string, o: Order)
    ensures var a := Run(EMPTY, [Create(id, o.roomId, o.triggerMember, o.actionMember, o.terms)] + CycleFrom(o, id, 0));
      && a.orders == map[id := ClaimedRow(Fresh(o), 0)] && id in a.claims && NextIsNew(a.log) && a.toCount == {1}
      && a.toStop == a.toWrite == a.lost == multiset{} && |a.log| == 3
      && a.log[1] == Summon(o.roomId, o.actionMember, 0, Some(id), 0)
  {
    var create := Create(id, o.roomId, o.triggerMember, o.actionMember, o.terms);
    RunConcat(EMPTY, [create], CycleFrom(o, id, 0));
    RunOne(EMPTY, create);
    CycleRuns(Apply(EMPTY, create), id, 0);
  }

  lemma BothUnderWay(id: string, o: Order)
    ensures var b := Run(EMPTY, TwoUnderWay(id, o));
      && b.orders == map[id := ClaimedRow(ClaimedRow(Fresh(o), 0), 3)] && b.toCount == {1, 4} && |b.log| == 6
      && b.lost == multiset{}
      && b.log[1] == Summon(o.roomId, o.actionMember, 0, Some(id), 0)
      && b.log[4] == Summon(o.roomId, o.actionMember, 3, Some(id), 0)
  {
    var create := [Create(id, o.roomId, o.triggerMember, o.actionMember, o.terms)];
    FirstUnderWay(id, o);
    RunConcat(EMPTY, create + CycleFrom(o, id, 0), CycleFrom(o, id, 3));
    var a := Run(EMPTY, create + CycleFrom(o, id, 0));
    assert CycleFrom(a.orders[id], id, 3) == CycleFrom(o, id, 3);
    CycleRuns(a, id, 3);
  }

  lemma BothCount(id: string, s: Sys, o: Order)
    requires s.orders == map[id := o] && o.status == Active && s.toCount == {1, 4} && |s.log| == 6
    requires s.log[1].Summon? && s.log[1].orderId == Some(id) && s.log[4].Summon? && s.log[4].orderId == Some(id)
    ensures var t := Apply(Apply(s, CountCycle(1)), CountCycle(4));
      t.orders == map[id := CountedRow(CountedRow(o))] && t.lost == s.lost
  {
    CountsNext(s, 1, id);
    CountsNext(Apply(s, CountCycle(1)), 4, id);
  }

  /** It takes two processes, or a slot freed under the first turn: one process refuses a member's second start. */
  lemma CapOfOneCountsTwo(id: string, o: Order)
    requires o.terms.maxCycles == Some(1)
    ensures var end := Run(EMPTY, TwoUnderWay(id, o) + [CountCycle(1)] + [CountCycle(4)]);
      && id in end.orders && end.orders[id].status == Active
      && end.orders[id].cycleCount == 2 && Overshoot(end, id) == 1 && Lost(end, id) == 0
  {
    BothUnderWay(id, o);
    var b := Run(EMPTY, TwoUnderWay(id, o));
    RunConcat(EMPTY, TwoUnderWay(id, o) + [CountCycle(1)], [CountCycle(4)]);
    RunConcat(EMPTY, TwoUnderWay(id, o), [CountCycle(1)]);
    RunOne(b, CountCycle(1));
    RunOne(Apply(b, CountCycle(1)), CountCycle(4));
    BothCount(id, b, b.orders[id]);
  }

  /** The first cycle is counted and its process dies before the stop. */
  function Unstopped(id: string, o: Order): seq<Step> {
    [Create(id, o.roomId, o.triggerMember, o.actionMember, o.terms)] + CycleFrom(o, id, 0) + [CountCycle(1)]
    + [LoseStop(id, LimitReached)]
  }

  lemma FirstIsUnstopped(id: string, o: Order)
    requires o.terms.maxCycles == Some(1)
    ensures var a := Run(EMPTY, Unstopped(id, o));
      && a.orders == map[id := CountedRow(ClaimedRow(Fresh(o), 0))] && id in a.claims && NextIsNew(a.log)
      && |a.log| == 3 && a.toCount == {} && Owed(a, id) == 0 && Lost(a, id) == 1
  {
    var create := [Create(id, o.roomId, o.triggerMember, o.actionMember, o.terms)];
    FirstUnderWay(id, o);
    var a := Run(EMPTY, create + CycleFrom(o, id, 0));
    RunConcat(EMPTY, create + CycleFrom(o, id, 0) + [CountCycle(1)], [LoseStop(id, LimitReached)]);
    RunConcat(EMPTY, create + CycleFrom(o, id, 0), [CountCycle(1)]);
    RunOne(a, CountCycle(1));
    CountsNext(a, 1, id);
    RunOne(Apply(a, CountCycle(1)), LoseStop(id, LimitReached));
  }

  /** So one death is enough: with one cycle at a time a cap of one counts two. */
  lemma LostStopCountsTwo(id: string, o: Order)
    requires o.terms.maxCycles == Some(1)
    ensures Open(Run(EMPTY, Unstopped(id, o)), id) == 0
    ensures var end := Run(EMPTY, Unstopped(id, o) + CycleFrom(o, id, 3) + [CountCycle(4)]);
      id in end.orders && end.orders[id].cycleCount == 2 && Overshoot(end, id) == 1 && Lost(end, id) == 1
  {
    FirstIsUnstopped(id, o);
    var a := Run(EMPTY, Unstopped(id, o));
    assert Uncounted(a, id) == {};
    RunConcat(EMPTY, Unstopped(id, o) + CycleFrom(o, id, 3), [CountCycle(4)]);
    RunConcat(EMPTY, Unstopped(id, o), CycleFrom(o, id, 3));
    assert CycleFrom(a.orders[id], id, 3) == CycleFrom(o, id, 3);
    CycleRuns(a, id, 3);
    var b := Run(a, CycleFrom(o, id, 3));
    RunOne(b, CountCycle(4));
    CountsNext(b, 4, id);
  }

  // ---------------------------------------------------------------- the counting seam, uninterrupted

  /** The seam's statements on a started cycle: count, cycled row, and the stop if the count reached a limit. */
  function SeamSteps(k: nat, id: string, cycle: nat, trigger: nat, stop: Option<Status>, reason: string): seq<Step> {
    [CountCycle(k), RecordCycle(id, cycle, trigger)]
    + (match stop
       case None => []
       case Some(next) => [ReadStop(id, next), WriteStatus(id, next, Some(reason))])
  }

  /** With nothing between them they leave what `OrderCycleStarted` says: both counters one up, the cycle's row, and
   *  the order ended at its cap, else paused at its dial, with the reason. */
  lemma SeamRuns(s: Sys, k: nat, id: string, reason: string)
    requires Counts(s, CountCycle(k), id)
    ensures var o := s.orders[id];
      var capped := o.terms.maxCycles.Some? && o.cycleCount + 1 >= o.terms.maxCycles.value;
      var dialled := o.unattendedCount + 1 >= o.terms.maxUnattended;
      var stop := if capped then Some(LimitReached) else if dialled then Some(Paused) else None;
      var end := Run(s, SeamSteps(k, id, o.cycleCount + 1, s.log[k].cause, stop, reason));
      && end.orders == s.orders[id := o.(cycleCount := o.cycleCount + 1, unattendedCount := o.unattendedCount + 1,
                                         status := if stop.Some? then stop.value else Active,
                                         pauseReason := if stop.Some? then Some(reason) else o.pauseReason)]
      && HasCycled(end.log, o.roomId, id, s.log[k].cause)
      && (!HasCycled(s.log, o.roomId, id, s.log[k].cause) ==>
            end.log == s.log + [Cycled(o.roomId, id, o.cycleCount + 1, s.log[k].cause)])
  {
    var o := s.orders[id];
    var stop := StopOwed(CountedRow(o));
    var seam := [CountCycle(k), RecordCycle(id, o.cycleCount + 1, s.log[k].cause)];
    CountsThenRecords(s, k, id);
    if stop.None? {
      assert seam + [] == seam;
    } else {
      RunConcat(s, seam, [ReadStop(id, stop.value), WriteStatus(id, stop.value, Some(reason))]);
      StopLands(Run(s, seam), id, stop.value, reason);
      Overwrites(s.orders, id, CountedRow(o), CountedRow(o).(status := stop.value, pauseReason := Some(reason)));
    }
  }

  lemma Overwrites(orders: map<string, Order>, id: string, a: Order, b: Order)
    ensures orders[id := a][id := b] == orders[id := b]
  {
  }

  lemma CountsThenRecords(s: Sys, k: nat, id: string)
    requires Counts(s, CountCycle(k), id)
    ensures var o, cause := s.orders[id], s.log[k].cause;
      var recorded := Run(s, [CountCycle(k), RecordCycle(id, o.cycleCount + 1, cause)]);
      && recorded.orders == s.orders[id := CountedRow(o)]
      && recorded.log == AppendCycled(s.log, Cycled(o.roomId, id, o.cycleCount + 1, cause))
      && recorded.toStop == s.toStop + Owing(id, CountedRow(o))
      && HasCycled(recorded.log, o.roomId, id, cause)
      && (!HasCycled(s.log, o.roomId, id, cause) ==>
            recorded.log == s.log + [Cycled(o.roomId, id, o.cycleCount + 1, cause)])
  {
    var o, cause := s.orders[id], s.log[k].cause;
    CountsNext(s, k, id);
    RunTwo(s, CountCycle(k), RecordCycle(id, o.cycleCount + 1, cause));
    RecordsOnce(s.log, Cycled(o.roomId, id, o.cycleCount + 1, cause));
  }

  lemma RunTwo(s: Sys, a: Step, b: Step)
    ensures Run(s, [a, b]) == Apply(Apply(s, a), b)
  {
    assert [a, b][1..] == [b];
    RunOne(Apply(s, a), b);
  }

  lemma RecordsOnce(log: seq<Event>, e: Event)
    requires e.Cycled?
    ensures HasCycled(AppendCycled(log, e), e.roomId, e.ofOrder, e.trigger)
    ensures !HasCycled(log, e.roomId, e.ofOrder, e.trigger) ==> AppendCycled(log, e) == log + [e]
  {
    assert (log + [e])[|log|] == e;
  }

  /** A stop owed to an order still active is written. */
  lemma StopLands(s: Sys, id: string, next: Status, reason: string)
    requires id in s.orders && (id, next) in s.toStop && s.orders[id].status == Active && next != Active
    ensures var end := Run(s, [ReadStop(id, next), WriteStatus(id, next, Some(reason))]);
      && end.orders == s.orders[id := s.orders[id].(status := next, pauseReason := Some(reason))] && end.log == s.log
  {
    RunTwo(s, ReadStop(id, next), WriteStatus(id, next, Some(reason)));
    StopReads(s, id, next);
    StopWrites(DoReadStop(s, id, next), id, next, reason);
  }

  lemma StopReads(s: Sys, id: string, next: Status)
    requires id in s.orders && (id, next) in s.toStop && s.orders[id].status == Active
    ensures var read := DoReadStop(s, id, next);
      read.orders == s.orders && read.log == s.log && (id, next) in read.toWrite
  {
  }

  lemma StopWrites(s: Sys, id: string, next: Status, reason: string)
    requires id in s.orders && (id, next) in s.toWrite && next != Active
    ensures var written := DoWrite(s, id, next, Some(reason));
      && written.log == s.log
      && written.orders == s.orders[id := s.orders[id].(status := next, pauseReason := Some(reason))]
  {
  }

  // ---------------------------------------------------------------- the statements on the stored rows

  lemma StillCycled(log: seq<Event>, e: Event, roomId: string, id: string, trigger: nat)
    requires HasCycled(log, roomId, id, trigger)
    ensures HasCycled(log + [e], roomId, id, trigger)
  {
    var i :| 0 <= i < |log| && log[i].Cycled? && log[i].roomId == roomId && log[i].ofOrder == id
        && log[i].trigger == trigger;
    assert (log + [e])[i] == log[i];
  }

  /** The `standing_orders` rows and the log, one method per exported statement, and the command at the counting
   *  seam run with nothing between its statements. */
  class OrderStore {
    var log: seq<Event>
    var orders: map<string, Order>

    constructor ()
      ensures log == [] && orders == map[]
    {
      log, orders := [], map[];
    }

    method ClaimTrigger(id: string, trigger: nat) returns (claimed: bool)
      modifies this`orders
      ensures claimed <==> id in old(orders) && old(orders)[id].status == Active
                           && (old(orders)[id].openCycleSeq.None? || old(orders)[id].openCycleSeq.value < trigger)
      ensures orders == if claimed then old(orders)[id := old(orders)[id].(openCycleSeq := Some(trigger))]
              else old(orders)
      ensures id in orders ==> !Claimable(orders[id], trigger)
    {
      claimed := id in orders && Claimable(orders[id], trigger);
      if claimed { orders := orders[id := orders[id].(openCycleSeq := Some(trigger))]; }
    }

    /** The numbers returned are the ones written. */
    method CountCycleStarted(id: string) returns (numbers: Option<(nat, nat)>)
      modifies this`orders
      ensures numbers.Some? <==> id in old(orders) && old(orders)[id].status == Active
      ensures numbers.None? ==> orders == old(orders)
      ensures numbers.Some? ==>
                var o := old(orders)[id];
                && numbers.value == (o.cycleCount + 1, o.unattendedCount + 1)
                && orders == old(orders)[id := o.(cycleCount := o.cycleCount + 1,
                                                  unattendedCount := o.unattendedCount + 1)]
    {
      if id !in orders || orders[id].status != Active { return None; }
      var o := orders[id];
      orders := orders[id := o.(cycleCount := o.cycleCount + 1, unattendedCount := o.unattendedCount + 1)];
      return Some((orders[id].cycleCount, orders[id].unattendedCount));
    }

    method SetOrderStatus(id: string, status: Status, reason: Option<string>)
      modifies this`orders
      ensures orders.Keys == old(orders).Keys && forall x :: x in orders && x != id ==> orders[x] == old(orders)[x]
      ensures id in orders ==>
                var o := old(orders)[id];
                orders[id] == o.(status := status, pauseReason := reason,
                                 unattendedCount := if status == Active then 0 else o.unattendedCount)
    {
      if id in orders {
        var o := orders[id];
        orders := orders[id := o.(status := status, pauseReason := reason,
                                  unattendedCount := if status == Active then 0 else o.unattendedCount)];
      }
    }

    method ResetUnattended(roomId: string)
      modifies this`orders
      ensures orders.Keys == old(orders).Keys
      ensures forall id :: id in orders ==>
                var o := old(orders)[id];
                orders[id] == if o.roomId == roomId && o.status == Active then o.(unattendedCount := 0) else o
    {
      orders := map id | id in orders :: WatchedRow(orders[id], roomId);
    }

    /** Terms only: neither counter, nor the status, nor the wiring moves. */
    method UpdateOrderConfig(id: string, terms: Terms)
      modifies this`orders
      ensures orders.Keys == old(orders).Keys
      ensures forall x :: x in orders && x != id ==> orders[x] == old(orders)[x]
      ensures id in orders ==> orders[id] == old(orders)[id].(terms := terms)
    {
      if id in orders { orders := orders[id := orders[id].(terms := terms)]; }
    }

    /** At most one summon per room, cause and member, however often it is asked for. */
    method AppendSummonRow(e: Event) returns (written: bool)
      requires e.Summon?
      modifies this`log
      ensures written <==> forall i :: 0 <= i < |old(log)| && old(log)[i].Summon? ==>
                old(log)[i].roomId != e.roomId || old(log)[i].cause != e.cause || old(log)[i].member != e.member
      ensures log == if written then old(log) + [e] else old(log)
      ensures HasSummon(log, e.roomId, e.cause, e.member)
    {
      written := !HasSummon(log, e.roomId, e.cause, e.member);
      if written {
        log := log + [e];
        assert log[|log| - 1] == e;
      }
    }

    method AppendOrderCycled(e: Event) returns (written: bool)
      requires e.Cycled?
      modifies this`log
      ensures written <==> forall i :: 0 <= i < |old(log)| && old(log)[i].Cycled? ==>
                old(log)[i].roomId != e.roomId || old(log)[i].ofOrder != e.ofOrder || old(log)[i].trigger != e.trigger
      ensures log == if written then old(log) + [e] else old(log)
      ensures HasCycled(log, e.roomId, e.ofOrder, e.trigger)
    {
      written := !HasCycled(log, e.roomId, e.ofOrder, e.trigger);
      if written {
        log := log + [e];
        assert log[|log| - 1] == e;
      }
    }

    /** The limits read the number the count wrote: with nothing between its statements, the cycle that reaches one is
     *  the last to run, and an order still active afterwards is inside both. */
    method OrderCycleStarted(roomId: string, id: string, trigger: nat, finished: string, unattended: string)
      returns (counted: bool)
      modifies this
      ensures counted <==> id in old(orders) && old(orders)[id].roomId == roomId && old(orders)[id].status == Active
      ensures !counted ==> log == old(log) && orders == old(orders)
      ensures counted ==>
                && orders.Keys == old(orders).Keys
                && (forall x :: x in orders && x != id ==> orders[x] == old(orders)[x])
                && orders[id] == old(orders)[id].(status := orders[id].status, pauseReason := orders[id].pauseReason,
                    cycleCount := old(orders)[id].cycleCount + 1,
                    unattendedCount := old(orders)[id].unattendedCount + 1)
                && HasCycled(log, roomId, id, trigger)
      ensures counted ==>
                var o := orders[id];
                && (o.status == LimitReached <==> o.terms.maxCycles.Some? && o.cycleCount >= o.terms.maxCycles.value)
                && (o.status == Active ==> o.unattendedCount < o.terms.maxUnattended)
                && (o.status == Paused <==> o.status != LimitReached && o.unattendedCount >= o.terms.maxUnattended)
                && (o.status == LimitReached ==> o.pauseReason == Some(finished))
                && (o.status == Paused ==> o.pauseReason == Some(unattended))
                && log == AppendCycled(old(log), Cycled(roomId, id, o.cycleCount, trigger))
                          + (if o.status == Active then [] else [Other])
    {
      if id !in orders || orders[id].roomId != roomId { return false; }
      var order := orders[id];
      var numbers := CountCycleStarted(id);
      if numbers.None? { return false; }
      var (cycle, streak) := numbers.value;
      var _ := AppendOrderCycled(Cycled(roomId, id, cycle, trigger));
      StillCycled(log, Other, roomId, id, trigger);
      if order.terms.maxCycles.Some? && cycle >= order.terms.maxCycles.value {
        var _ := StopOrder(id, LimitReached, finished);
      } else if streak >= order.terms.maxUnattended {
        var _ := StopOrder(id, Paused, unattended);
      }
      return true;
    }

    /** Only an order still active is stopped, once, with its reason. */
    method StopOrder(id: string, status: Status, reason: string) returns (stopped: bool)
      requires status != Active
      modifies this
      ensures stopped <==> id in old(orders) && old(orders)[id].status == Active
      ensures if stopped
              then log == old(log) + [Other]
                  && orders == old(orders)[id := old(orders)[id].(status := status, pauseReason := Some(reason))]
              else log == old(log) && orders == old(orders)
    {
      if id !in orders || orders[id].status != Active { return false; }
      log := log + [Other];
      SetOrderStatus(id, status, Some(reason));
      return true;
    }
  }
}

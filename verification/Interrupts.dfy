/**
 * Interrupts and their daily budget: apps/api/src/interrupts.ts. A call runs alone; the day is the UTC day of the
 * database clock; `limits` is what the mandates grant, a member without one being unlimited.
 */
module Interrupts {
  import opened Prelude

  datatype Urgency = Blocker | Decision | Fyi

  datatype Row = Row(roomId: string, urgency: Urgency, raisedBy: string, addressedTo: string, aboutKind: string,
      aboutId: string, taskId: Option<string>)

  datatype Event =
    | Raised(id: nat, urgency: Urgency, raisedBy: string, addressedTo: string, remaining: Option<int>)
    | Downgraded(id: nat, urgency: Urgency, from: Urgency, raisedBy: string, addressedTo: string, actor: string,
        remaining: Option<int>)

  datatype Entry = Entry(day: nat, event: Event)

  datatype TaskState = Working | InputRequired | OtherState(name: string)

  datatype Sys = Sys(
    log: seq<Entry>, rows: map<nat, Row>, tasks: map<string, TaskState>,
    day: nat, next: nat, limits: map<string, nat>)

  datatype Step =
    | Raise(row: Row)
    | Downgrade(id: nat, member: string)
    | NextDay
    | SetTask(task: string, state: TaskState)

  // ---------------------------------------------------------------- the budget, counted from the log

  function CostOf(u: Urgency): nat {
    if u == Fyi then 0 else 1
  }

  /** What one event costs `member`. */
  function ChargeOf(e: Event, member: string): nat {
    if e.raisedBy != member then 0 else if e.Raised? then CostOf(e.urgency) else 1
  }

  function Spent(log: seq<Entry>, member: string, today: nat): nat {
    if log == [] then 0
    else
      var last := log[|log| - 1];
      Spent(log[..|log| - 1], member, today) + (if last.day >= today then ChargeOf(last.event, member) else 0)
  }

  /** `member`'s chargeable raises on one day. */
  function RaisesOn(log: seq<Entry>, member: string, day: nat): nat {
    if log == [] then 0
    else
      var last := log[|log| - 1];
      RaisesOn(log[..|log| - 1], member, day)
          + (if last.day == day && last.event.Raised? then ChargeOf(last.event, member) else 0)
  }

  /** `member`'s events of a day and after that cost a unit: BLOCKERs and DECISIONs raised, and downgrades. */
  ghost function ChargedSince(log: seq<Entry>, member: string, today: nat): set<nat> {
    set i | 0 <= i < |log| && log[i].day >= today && log[i].event.raisedBy == member
            && (log[i].event.Downgraded? || log[i].event.urgency == Blocker || log[i].event.urgency == Decision)
  }

  /** Its BLOCKERs and DECISIONs raised on one day. */
  ghost function RaisedOn(log: seq<Entry>, member: string, day: nat): set<nat> {
    set i | 0 <= i < |log| && log[i].day == day && log[i].event.raisedBy == member && log[i].event.Raised?
            && (log[i].event.urgency == Blocker || log[i].event.urgency == Decision)
  }

  lemma ChargedStep(log: seq<Entry>, member: string, day: nat)
    requires log != []
    ensures var n := |log| - 1;
      |ChargedSince(log, member, day)| == |ChargedSince(log[..n], member, day)|
                                          + (if log[n].day >= day then ChargeOf(log[n].event, member) else 0)
  {
    var n := |log| - 1;
    var before, now := ChargedSince(log[..n], member, day), ChargedSince(log, member, day);
    forall i: nat | i < n ensures i in now <==> i in before { assert log[..n][i] == log[i]; }
    if log[n].day >= day && ChargeOf(log[n].event, member) == 1 {
      assert now == before + {n};
    } else {
      assert now == before;
    }
  }

  lemma RaisedStep(log: seq<Entry>, member: string, day: nat)
    requires log != []
    ensures var n := |log| - 1;
      |RaisedOn(log, member, day)| == |RaisedOn(log[..n], member, day)|
        + (if log[n].day == day && log[n].event.Raised? then ChargeOf(log[n].event, member) else 0)
  {
    var n := |log| - 1;
    var before, now := RaisedOn(log[..n], member, day), RaisedOn(log, member, day);
    forall i: nat | i < n ensures i in now <==> i in before { assert log[..n][i] == log[i]; }
    if log[n].day == day && log[n].event.Raised? && ChargeOf(log[n].event, member) == 1 {
      assert now == before + {n};
    } else {
      assert now == before;
    }
  }

  /** The spend is the number of charged events, whatever they were. */
  lemma {:induction false} SpendCountsEvents(log: seq<Entry>, member: string, day: nat)
    ensures Spent(log, member, day) == |ChargedSince(log, member, day)|
    ensures RaisesOn(log, member, day) == |RaisedOn(log, member, day)|
  {
    if log != [] {
      ChargedStep(log, member, day);
      RaisedStep(log, member, day);
      SpendCountsEvents(log[..|log| - 1], member, day);
    }
  }

  datatype Budget = Budget(limit: Option<nat>, spent: nat, remaining: Option<nat>)

  function BudgetFor(s: Sys, member: string): Budget {
    var limit := if member in s.limits then Some(s.limits[member]) else None;
    var spent := Spent(s.log, member, s.day);
    Budget(limit, spent, if limit.None? then None else Some(Max(0, limit.value - spent)))
  }

  // ---------------------------------------------------------------- raise and downgrade

  function LowerThan(u: Urgency): Option<Urgency> {
    match u
    case Blocker => Some(Decision)
    case Decision => Some(Fyi)
    case Fyi => None
  }

  predicate SameClaim(a: Row, b: Row) {
    a.roomId == b.roomId && a.aboutKind == b.aboutKind && a.aboutId == b.aboutId && a.addressedTo == b.addressedTo
  }

  /** The unique index: this thing has already interrupted this member. */
  predicate Claimed(s: Sys, row: Row) {
    exists id :: id in s.rows && SameClaim(s.rows[id], row)
  }

  predicate Affordable(s: Sys, row: Row) {
    var left := BudgetFor(s, row.raisedBy).remaining;
    left.None? || CostOf(row.urgency) <= left.value
  }

  function RaisedEntry(s: Sys, row: Row): Entry {
    var left := BudgetFor(s, row.raisedBy).remaining;
    Entry(s.day, Raised(s.next, row.urgency, row.raisedBy, row.addressedTo,
                        if left.None? then None else Some(left.value - CostOf(row.urgency))))
  }

  predicate Halts(s: Sys, row: Row) {
    row.urgency == Blocker && row.taskId.Some? && row.taskId.value in s.tasks && s.tasks[row.taskId.value] == Working
  }

  /** The budget is checked before the index: an exhausted raiser is refused even for a claim already made. */
  function DoRaise(s: Sys, row: Row): Sys {
    if !Affordable(s, row) || Claimed(s, row) then s
    else s.(rows := s.rows[s.next := row], next := s.next + 1, log := s.log + [RaisedEntry(s, row)],
            tasks := if Halts(s, row) then s.tasks[row.taskId.value := InputRequired] else s.tasks)
  }

  function DowngradedEntry(s: Sys, id: nat, to: Urgency): Entry
    requires id in s.rows
  {
    var row := s.rows[id];
    var left := BudgetFor(s, row.raisedBy).remaining;
    Entry(s.day, Downgraded(id, to, row.urgency, row.raisedBy, row.addressedTo, row.addressedTo,
                            if left.None? then None else Some(Max(0, left.value - 1))))
  }

  predicate MayDowngrade(s: Sys, id: nat, member: string) {
    id in s.rows && s.rows[id].addressedTo == member && LowerThan(s.rows[id].urgency).Some?
  }

  function DoDowngrade(s: Sys, id: nat, member: string): Sys {
    if !MayDowngrade(s, id, member) then s
    else
      var to := LowerThan(s.rows[id].urgency).value;
      s.(log := s.log + [DowngradedEntry(s, id, to)], rows := s.rows[id := s.rows[id].(urgency := to)])
  }

  function Apply(s: Sys, step: Step): Sys {
    match step
    case Raise(row) => DoRaise(s, row)
    case Downgrade(id, member) => DoDowngrade(s, id, member)
    case NextDay => s.(day := s.day + 1)
    case SetTask(task, state) => s.(tasks := s.tasks[task := state])
  }

  function Run(s: Sys, steps: seq<Step>): Sys
    decreases |steps|
  {
    if steps == [] then s else Run(Apply(s, steps[0]), steps[1..])
  }

  function Empty(limits: map<string, nat>): Sys {
    Sys([], map[], map[], 0, 0, limits)
  }

  // ---------------------------------------------------------------- what every run keeps

  /** `rebuildUrgency` over the events of one interrupt. */
  function Rebuilt(log: seq<Entry>, id: nat): Option<Urgency> {
    if log == [] then None
    else if log[|log| - 1].event.id == id then Some(log[|log| - 1].event.urgency)
    else Rebuilt(log[..|log| - 1], id)
  }

  function Downgrades(log: seq<Entry>, id: nat): nat {
    if log == [] then 0
    else
      var last := log[|log| - 1].event;
      Downgrades(log[..|log| - 1], id) + (if last.id == id && last.Downgraded? then 1 else 0)
  }

  function Rank(u: Urgency): nat {
    match u
    case Blocker => 2
    case Decision => 1
    case Fyi => 0
  }

  /** What an event says it left its raiser is the limit less everything spent that day, itself included, and never
   *  less than nothing. */
  ghost predicate PricedRight(log: seq<Entry>, i: nat, limits: map<string, nat>)
    requires i < |log|
  {
    var e := log[i].event;
    e.remaining == if e.raisedBy in limits
        then Some(Max(0, limits[e.raisedBy] - Spent(log[..i + 1], e.raisedBy, log[i].day))) else None
  }

  /** A downgrade is one step down from what the events before it say, and made by the person claimed on. */
  ghost predicate FellOneStep(log: seq<Entry>, i: nat)
    requires i < |log|
  {
    var e := log[i].event;
    e.Downgraded? ==>
      && Rebuilt(log[..i], e.id) == Some(e.from) && e.actor == e.addressedTo
      && (if e.from == Blocker then e.urgency == Decision else e.from == Decision && e.urgency == Fyi)
  }

  ghost predicate EventsHold(s: Sys) {
    forall i :: 0 <= i < |s.log| ==> PricedRight(s.log, i, s.limits) && FellOneStep(s.log, i)
  }

  ghost predicate WithinLimits(s: Sys) {
    forall m, d :: m in s.limits ==> RaisesOn(s.log, m, d) <= s.limits[m]
  }

  /** Each row is what its events rebuild to, one row per claim, and no interrupt falls below the bottom. */
  ghost predicate RowsHold(s: Sys) {
    && (forall id :: id in s.rows ==> id < s.next && Rebuilt(s.log, id) == Some(s.rows[id].urgency))
    && (forall id :: id !in s.rows ==> Rebuilt(s.log, id) == None && Downgrades(s.log, id) == 0)
    && (forall id :: id in s.rows ==> Downgrades(s.log, id) + Rank(s.rows[id].urgency) <= 2)
    && (forall a, b :: a in s.rows && b in s.rows && SameClaim(s.rows[a], s.rows[b]) ==> a == b)
  }

  ghost predicate Inv(s: Sys) {
    EventsHold(s) && WithinLimits(s) && RowsHold(s)
  }

  lemma EventsAppend(s: Sys, e: Entry)
    requires EventsHold(s)
    requires PricedRight(s.log + [e], |s.log|, s.limits) && FellOneStep(s.log + [e], |s.log|)
    ensures EventsHold(s.(log := s.log + [e]))
  {
    var log := s.log + [e];
    forall i | 0 <= i < |s.log| ensures PricedRight(log, i, s.limits) && FellOneStep(log, i) {
      assert PricedRight(s.log, i, s.limits) && FellOneStep(s.log, i);
      assert log[..i + 1] == s.log[..i + 1] && log[..i] == s.log[..i] && log[i] == s.log[i];
    }
  }

  lemma SpentAppend(log: seq<Entry>, e: Entry, member: string, today: nat)
    ensures Spent(log + [e], member, today) == Spent(log, member, today)
            + (if e.day >= today then ChargeOf(e.event, member) else 0)
    ensures RaisesOn(log + [e], member, today)
         == RaisesOn(log, member, today) + (if e.day == today && e.event.Raised? then ChargeOf(e.event, member) else 0)
    ensures (log + [e])[..|log| + 1] == log + [e] && (log + [e])[..|log|] == log
  {
    assert (log + [e])[..|log|] == log;
  }

  lemma RebuiltAppend(log: seq<Entry>, e: Entry, id: nat)
    ensures Rebuilt(log + [e], id) == if e.event.id == id then Some(e.event.urgency) else Rebuilt(log, id)
    ensures Downgrades(log + [e], id) == Downgrades(log, id)
            + (if e.event.id == id && e.event.Downgraded? then 1 else 0)
  {
    assert (log + [e])[..|log|] == log;
  }

  lemma {:induction false} RaisesAreSpent(log: seq<Entry>, member: string, day: nat)
    ensures RaisesOn(log, member, day) <= Spent(log, member, day)
  {
    if log != [] { RaisesAreSpent(log[..|log| - 1], member, day); }
  }

  lemma RaiseEvents(s: Sys, row: Row)
    requires EventsHold(s) && Affordable(s, row)
    ensures EventsHold(s.(log := s.log + [RaisedEntry(s, row)]))
  {
    SpentAppend(s.log, RaisedEntry(s, row), row.raisedBy, s.day);
    EventsAppend(s, RaisedEntry(s, row));
  }

  lemma RaiseWithinLimits(s: Sys, row: Row)
    requires WithinLimits(s) && Affordable(s, row)
    ensures WithinLimits(s.(log := s.log + [RaisedEntry(s, row)]))
  {
    var e := RaisedEntry(s, row);
    forall m, d | m in s.limits ensures RaisesOn(s.log + [e], m, d) <= s.limits[m] {
      SpentAppend(s.log, e, m, d);
      RaisesAreSpent(s.log, m, d);
    }
  }

  lemma RaiseRows(s: Sys, row: Row)
    requires RowsHold(s) && !Claimed(s, row)
    ensures RowsHold(s.(rows := s.rows[s.next := row], next := s.next + 1, log := s.log + [RaisedEntry(s, row)]))
  {
    forall id: nat
      ensures Rebuilt(s.log + [RaisedEntry(s, row)], id) == if id == s.next then Some(row.urgency)
              else Rebuilt(s.log, id)
      ensures Downgrades(s.log + [RaisedEntry(s, row)], id) == Downgrades(s.log, id)
    {
      RebuiltAppend(s.log, RaisedEntry(s, row), id);
    }
  }

  lemma DowngradeEvents(s: Sys, id: nat, to: Urgency)
    requires EventsHold(s) && RowsHold(s) && id in s.rows && LowerThan(s.rows[id].urgency) == Some(to)
    ensures EventsHold(s.(log := s.log + [DowngradedEntry(s, id, to)]))
  {
    SpentAppend(s.log, DowngradedEntry(s, id, to), s.rows[id].raisedBy, s.day);
    EventsAppend(s, DowngradedEntry(s, id, to));
  }

  lemma DowngradeWithinLimits(s: Sys, e: Entry)
    requires WithinLimits(s) && e.event.Downgraded?
    ensures WithinLimits(s.(log := s.log + [e]))
  {
    forall m, d | m in s.limits ensures RaisesOn(s.log + [e], m, d) <= s.limits[m] { SpentAppend(s.log, e, m, d); }
  }

  lemma DowngradeRows(s: Sys, id: nat, to: Urgency)
    requires RowsHold(s) && id in s.rows && LowerThan(s.rows[id].urgency) == Some(to)
    ensures RowsHold(s.(log := s.log + [DowngradedEntry(s, id, to)], rows := s.rows[id := s.rows[id].(urgency := to)]))
  {
    forall x: nat
      ensures Rebuilt(s.log + [DowngradedEntry(s, id, to)], x) == if x == id then Some(to) else Rebuilt(s.log, x)
      ensures Downgrades(s.log + [DowngradedEntry(s, id, to)], x) == Downgrades(s.log, x) + (if x == id then 1 else 0)
    {
      RebuiltAppend(s.log, DowngradedEntry(s, id, to), x);
    }
  }

  lemma StepKeeps(s: Sys, step: Step)
    requires Inv(s)
    ensures Inv(Apply(s, step)) && Apply(s, step).limits == s.limits
  {
    match step
    case Raise(row) =>
      if Affordable(s, row) && !Claimed(s, row) {
        RaiseEvents(s, row);
        RaiseWithinLimits(s, row);
        RaiseRows(s, row);
      }
    case Downgrade(id, member) =>
      if MayDowngrade(s, id, member) {
        var to := LowerThan(s.rows[id].urgency).value;
        DowngradeEvents(s, id, to);
        DowngradeWithinLimits(s, DowngradedEntry(s, id, to));
        DowngradeRows(s, id, to);
      }
    case _ =>
  }

  lemma {:induction false} RunKeeps(s: Sys, steps: seq<Step>)
    requires Inv(s)
    ensures Inv(Run(s, steps)) && Run(s, steps).limits == s.limits
    decreases |steps|
  {
    if steps != [] {
      StepKeeps(s, steps[0]);
      RunKeeps(Apply(s, steps[0]), steps[1..]);
    }
  }

  /** Over every run: no member raises more BLOCKERs and DECISIONs in a day than its limit; every row is what its log
   *  rebuilds to; urgency only falls, one step at a time, at the hand of the person claimed on, and at most twice; one
   *  thing of a room interrupts a member once. */
  lemma InterruptsArePriced(limits: map<string, nat>, steps: seq<Step>)
    ensures var s := Run(Empty(limits), steps);
      && (forall m, d :: m in limits ==> |RaisedOn(s.log, m, d)| <= limits[m])
      && (forall id :: Rebuilt(s.log, id) == if id in s.rows then Some(s.rows[id].urgency) else None)
      && (forall id :: id in s.rows ==> Downgrades(s.log, id) <= 2)
      && (forall i :: 0 <= i < |s.log| ==> FellOneStep(s.log, i) && PricedRight(s.log, i, limits))
      && (forall a, b :: a in s.rows && b in s.rows && a != b ==>
            || s.rows[a].roomId != s.rows[b].roomId || s.rows[a].aboutKind != s.rows[b].aboutKind
            || s.rows[a].aboutId != s.rows[b].aboutId || s.rows[a].addressedTo != s.rows[b].addressedTo)
  {
    RunKeeps(Empty(limits), steps);
    var s := Run(Empty(limits), steps);
    forall m, d | m in limits ensures |RaisedOn(s.log, m, d)| <= limits[m] { SpendCountsEvents(s.log, m, d); }
    forall a, b | a in s.rows && b in s.rows && a != b ensures !SameClaim(s.rows[a], s.rows[b]) {}
  }

  ghost predicate NoneTomorrow(s: Sys) {
    forall i :: 0 <= i < |s.log| ==> s.log[i].day <= s.day
  }

  lemma {:induction false} RunKeepsDays(s: Sys, steps: seq<Step>)
    requires NoneTomorrow(s)
    ensures NoneTomorrow(Run(s, steps))
    decreases |steps|
  {
    if steps != [] { RunKeepsDays(Apply(s, steps[0]), steps[1..]); }
  }

  /** Midnight gives everybody the whole limit again. */
  lemma MidnightRestoresTheBudget(limits: map<string, nat>, steps: seq<Step>, member: string)
    requires member in limits
    ensures BudgetFor(Apply(Run(Empty(limits), steps), NextDay), member)
         == Budget(Some(limits[member]), 0, Some(limits[member]))
  {
    var s := Run(Empty(limits), steps);
    RunKeepsDays(Empty(limits), steps);
    RunKeeps(Empty(limits), steps);
    SpendCountsEvents(s.log, member, s.day + 1);
    assert ChargedSince(s.log, member, s.day + 1) == {};
  }

  /** The `budget_remaining` of an event is the limit less the day's spend exactly as long as the spend is within the
   *  limit; a downgrade can take it past, and then the event says 0. */
  lemma RemainingIsLimitLessSpend(limits: map<string, nat>, steps: seq<Step>, i: nat)
    requires i < |Run(Empty(limits), steps).log|
    ensures var log := Run(Empty(limits), steps).log;
      var e := log[i].event;
      var spent := |ChargedSince(log[..i + 1], e.raisedBy, log[i].day)|;
      e.raisedBy in limits ==> (e.remaining == Some(limits[e.raisedBy] - spent) <==> spent <= limits[e.raisedBy])
  {
    RunKeeps(Empty(limits), steps);
    var log := Run(Empty(limits), steps).log;
    assert PricedRight(log, i, limits);
    SpendCountsEvents(log[..i + 1], log[i].event.raisedBy, log[i].day);
  }

  /** So it is not so always: on a limit of one, a DECISION raised and downgraded costs two, and an FYI raised after
   *  it carries 0 where limit less spend is -1. */
  lemma DowngradedPastTheLimit(claim: Row, note: Row)
    requires claim.urgency == Decision && note.urgency == Fyi && claim.raisedBy == note.raisedBy
            && !SameClaim(claim, note)
    ensures var s := Run(Empty(map[claim.raisedBy := 1]), [Raise(claim), Downgrade(0, claim.addressedTo), Raise(note)]);
      && |s.log| == 3 && s.log[2].event.remaining == Some(0)
      && Spent(s.log, claim.raisedBy, s.log[2].day) == 2
  {
    var empty := Empty(map[claim.raisedBy := 1]);
    var raised := Apply(empty, Raise(claim));
    var lowered := Apply(raised, Downgrade(0, claim.addressedTo));
    var steps := [Raise(claim), Downgrade(0, claim.addressedTo), Raise(note)];
    assert steps[1..][1..] == [Raise(note)] && steps[1..][0] == Downgrade(0, claim.addressedTo);
    AfterRaise(empty, claim);
    AfterDowngrade(raised, claim);
    AfterNote(lowered, note);
    assert Run(lowered, [Raise(note)]) == Apply(lowered, Raise(note)) by { assert [Raise(note)][1..] == []; }
  }

  lemma AfterRaise(empty: Sys, claim: Row)
    requires claim.urgency == Decision && empty == Empty(map[claim.raisedBy := 1])
    ensures var raised := Apply(empty, Raise(claim));
      && raised.rows == map[0 := claim] && raised.day == 0 && raised.next == 1 && raised.limits == empty.limits
      && |raised.log| == 1 && Spent(raised.log, claim.raisedBy, 0) == 1
  {
    SpentAppend([], RaisedEntry(empty, claim), claim.raisedBy, 0);
  }

  lemma AfterDowngrade(raised: Sys, claim: Row)
    requires claim.urgency == Decision && raised.rows == map[0 := claim] && raised.day == 0
    ensures var lowered := Apply(raised, Downgrade(0, claim.addressedTo));
      && lowered.rows == map[0 := claim.(urgency := Fyi)] && lowered.day == 0 && lowered.limits == raised.limits
      && |lowered.log| == |raised.log| + 1
      && Spent(lowered.log, claim.raisedBy, 0) == Spent(raised.log, claim.raisedBy, 0) + 1
  {
    SpentAppend(raised.log, DowngradedEntry(raised, 0, Fyi), claim.raisedBy, 0);
  }

  lemma AfterNote(s: Sys, note: Row)
    requires note.urgency == Fyi && s.day == 0 && note.raisedBy in s.limits
            && s.limits[note.raisedBy] <= Spent(s.log, note.raisedBy, 0)
    requires forall id :: id in s.rows ==> !SameClaim(s.rows[id], note)
    ensures var noted := Apply(s, Raise(note));
      && |noted.log| == |s.log| + 1 && noted.log[|s.log|].event.remaining == Some(0) && noted.log[|s.log|].day == 0
      && Spent(noted.log, note.raisedBy, 0) == Spent(s.log, note.raisedBy, 0)
  {
    SpentAppend(s.log, RaisedEntry(s, note), note.raisedBy, 0);
  }

  // ---------------------------------------------------------------- the calls on the stored rows

  datatype RaiseResult = BudgetExhausted(budget: Budget) | New(id: nat, halted: bool) | Existing(id: nat)

  datatype DowngradeResult = Unknown | NotAddressedToYou | AlreadyLowest | Lowered(urgency: Urgency)

  class InterruptDesk {
    var log: seq<Entry>
    var rows: map<nat, Row>
    var tasks: map<string, TaskState>
    var day: nat
    var next: nat
    const limits: map<string, nat>

    constructor (limits: map<string, nat>)
      ensures State() == Empty(limits)
    {
      log, rows, tasks, day, next := [], map[], map[], 0, 0;
      this.limits := limits;
    }

    function State(): Sys
      reads this
    {
      Sys(log, rows, tasks, day, next, limits)
    }

    method RaiseInterrupt(row: Row) returns (r: RaiseResult)
      modifies this
      ensures State() == Apply(old(State()), Raise(row))
      ensures r.BudgetExhausted? <==>
                && row.urgency != Fyi && row.raisedBy in limits
                && |ChargedSince(old(log), row.raisedBy, day)| >= limits[row.raisedBy]
      ensures r.BudgetExhausted? ==> r.budget == BudgetFor(old(State()), row.raisedBy)
      ensures r.BudgetExhausted? || r.Existing? ==> State() == old(State())
      ensures r.Existing? ==>
                && r.id in rows && rows[r.id].roomId == row.roomId && rows[r.id].aboutKind == row.aboutKind
                && rows[r.id].aboutId == row.aboutId && rows[r.id].addressedTo == row.addressedTo
      ensures r.New? ==>
                && (forall id :: id in old(rows) ==>
                      || old(rows)[id].roomId != row.roomId || old(rows)[id].aboutKind != row.aboutKind
                      || old(rows)[id].aboutId != row.aboutId || old(rows)[id].addressedTo != row.addressedTo)
                && r.id == old(next) && rows == old(rows)[r.id := row]
                && |log| == |old(log)| + 1 && log[|old(log)|].day == day
                && var e := log[|old(log)|].event;
                   && e.Raised? && e.id == r.id && e.urgency == row.urgency && e.raisedBy == row.raisedBy
                   && e.addressedTo == row.addressedTo
      ensures r.New? ==>
                && (r.halted <==> row.urgency == Blocker && row.taskId.Some? && row.taskId.value in old(tasks)
                                  && old(tasks)[row.taskId.value] == Working)
                && tasks == if r.halted then old(tasks)[row.taskId.value := InputRequired] else old(tasks)
    {
      SpendCountsEvents(log, row.raisedBy, day);
      var budget := BudgetFor(State(), row.raisedBy);
      var cost := CostOf(row.urgency);
      if budget.remaining.Some? && cost > budget.remaining.value { return BudgetExhausted(budget); }
      if id :| id in rows && SameClaim(rows[id], row) { return Existing(id); }
      var id := next;
      rows, next := rows[id := row], next + 1;
      var left := if budget.remaining.None? then None else Some(budget.remaining.value - cost);
      log := log + [Entry(day, Raised(id, row.urgency, row.raisedBy, row.addressedTo, left))];
      var halted := false;
      if row.urgency == Blocker && row.taskId.Some? && row.taskId.value in tasks && tasks[row.taskId.value] == Working {
        tasks := tasks[row.taskId.value := InputRequired];
        halted := true;
      }
      return New(id, halted);
    }

    method DowngradeInterrupt(id: nat, member: string) returns (r: DowngradeResult)
      modifies this
      ensures State() == Apply(old(State()), Downgrade(id, member))
      ensures r.Lowered? <==>
                id in old(rows) && old(rows)[id].addressedTo == member && old(rows)[id].urgency != Fyi
      ensures r.Lowered? ==>
                && r.urgency == (if old(rows)[id].urgency == Blocker then Decision else Fyi)
                && rows == old(rows)[id := old(rows)[id].(urgency := r.urgency)] && tasks == old(tasks)
                && |log| == |old(log)| + 1 && log[|old(log)|].day == day
                && var e := log[|old(log)|].event;
                   && e.Downgraded? && e.id == id && e.urgency == r.urgency && e.from == old(rows)[id].urgency
                   && e.raisedBy == old(rows)[id].raisedBy && e.addressedTo == e.actor == member
      ensures !r.Lowered? ==> State() == old(State())
      ensures r.Unknown? <==> id !in old(rows)
      ensures r.NotAddressedToYou? <==> id in old(rows) && old(rows)[id].addressedTo != member
    {
      if id !in rows { return Unknown; }
      var row := rows[id];
      if row.addressedTo != member { return NotAddressedToYou; }
      var to := LowerThan(row.urgency);
      if to.None? { return AlreadyLowest; }
      var before := BudgetFor(State(), row.raisedBy);
      var left := if before.remaining.None? then None else Some(Max(0, before.remaining.value - 1));
      log := log + [Entry(day, Downgraded(id, to.value, row.urgency, row.raisedBy, row.addressedTo, member, left))];
      rows := rows[id := row.(urgency := to.value)];
      return Lowered(to.value);
    }

    /** The fold over one interrupt's events ends at the newest; a room's other events are passed over. */
    static method RebuildUrgency(log: seq<Entry>, id: nat) returns (urgency: Option<Urgency>)
      ensures urgency == Rebuilt(log, id)
    {
      urgency := None;
      for i := 0 to |log|
        invariant urgency == Rebuilt(log[..i], id)
      {
        assert log[..i + 1][..i] == log[..i];
        if log[i].event.id == id { urgency := Some(log[i].event.urgency); }
      }
      assert log[..|log|] == log;
    }
  }
}

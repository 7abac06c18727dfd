/**
 * Agent turns and the daily ceiling: `runAgentTurn` of apps/api/src/agent.ts as a step machine, with the admission
 * check of apps/api/src/spend.ts and the summariser's use of it in apps/api/src/summary.ts. Costs are reals.
 */
module Turns {
  import opened Prelude
  import Summaries

  datatype Event =
    | Started(turn: nat, summon: nat)
    | Completed(turn: nat, summon: nat, success: bool, cost: Option<real>)
    | RoomSummary(cost: Option<real>)
    | Other

  datatype Entry = Entry(day: nat, event: Event)

  // ---------------------------------------------------------------- the ceiling

  datatype Ceiling = NoCeiling | Malformed | Limit(usd: real)

  /** `raw` is the setting; `number` what it reads as, when it reads as a finite number at all. */
  function CeilingUsd(raw: Option<string>, number: Option<real>): Ceiling {
    if raw.None? || Blank(raw.value) then NoCeiling
    else if number.None? || number.value < 0.0 then Malformed
    else Limit(number.value)
  }

  function CostOf(e: Event): real {
    match e
    case Completed(_, _, _, Some(cost)) => cost
    case RoomSummary(Some(cost)) => cost
    case _ => 0.0
  }

  /** Summed from the log, both kinds of model call. */
  function SpentSince(log: seq<Entry>, today: nat): real {
    if log == [] then 0.0
    else
      var last := log[|log| - 1];
      SpentSince(log[..|log| - 1], today) + (if last.day >= today then CostOf(last.event) else 0.0)
  }

  /** The check lets a call through only under a readable ceiling not yet reached, or under none. */
  predicate Admits(ceiling: Ceiling, log: seq<Entry>, today: nat) {
    match ceiling
    case NoCeiling => true
    case Malformed => false
    case Limit(usd) => SpentSince(log, today) < usd
  }

  // ---------------------------------------------------------------- turns and folds

  datatype Phase = Checked | Slotted | Running | Answered

  datatype Turn = Turn(summon: nat, slot: string, phase: Phase)

  /** `folds` are summariser calls past their check; `inFlight` the slots of one process. */
  datatype Sys = Sys(log: seq<Entry>, day: nat, next: nat, turns: map<nat, Turn>, folds: set<nat>,
      inFlight: set<string>)

  const EMPTY := Sys([], 0, 0, map[], {}, {})

  datatype Step =
    | Check(summon: nat, slot: string)
    | TakeSlot(turn: nat)
    | Start(turn: nat)
    | Answer(turn: nat, cost: Option<real>)
    | Fail(turn: nat)
    | Leave(turn: nat)
    | CheckFold
    | EndFold(fold: nat, cost: Option<real>)
    | Unrelated
    | NextDay

  /** Migration 006's unique index. */
  predicate HasStarted(log: seq<Entry>, summon: nat) {
    exists i :: 0 <= i < |log| && log[i].event.Started? && log[i].event.summon == summon
  }

  function Logged(s: Sys, e: Event): Sys {
    s.(log := s.log + [Entry(s.day, e)])
  }

  function Moved(s: Sys, t: nat, phase: Phase): Sys
    requires t in s.turns
  {
    s.(turns := s.turns[t := s.turns[t].(phase := phase)])
  }

  /** Out of the function, whichever way: `finally` frees the slot without asking whose it is now. */
  function Left(s: Sys, t: nat): Sys
    requires t in s.turns
  {
    s.(turns := s.turns - {t}, inFlight := s.inFlight - {s.turns[t].slot})
  }

  function Apply(ceiling: Ceiling, s: Sys, step: Step): Sys {
    match step
    case Check(summon, slot) =>
      if !Admits(ceiling, s.log, s.day) then s
      else s.(turns := s.turns[s.next := Turn(summon, slot, Checked)], next := s.next + 1)
    case TakeSlot(t) =>
      if t !in s.turns || s.turns[t].phase != Checked then s
      else if s.turns[t].slot in s.inFlight then s.(turns := s.turns - {t})
      else Moved(s, t, Slotted).(inFlight := s.inFlight + {s.turns[t].slot})
    case Start(t) =>
      if t !in s.turns || s.turns[t].phase != Slotted then s
      // The loser of the race writes no completed row: that row would be a second turn for one summon.
      else if HasStarted(s.log, s.turns[t].summon) then Left(s, t)
      else Logged(Moved(s, t, Running), Started(t, s.turns[t].summon))
    case Answer(t, cost) =>
      if t !in s.turns || s.turns[t].phase != Running then s
      else Logged(Moved(s, t, Answered).(inFlight := s.inFlight - {s.turns[t].slot}),
          Completed(t, s.turns[t].summon, true, cost))
    case Fail(t) =>
      // Any throw past the slot, before the started row or after the answer, ends in a failed row without a cost.
      if t !in s.turns || s.turns[t].phase == Checked then s
      else Left(Logged(s, Completed(t, s.turns[t].summon, false, None)), t)
    // The end of the turn's tail, or a throw nobody logs; a turn that has no slot yet returns ahead of `finally`.
    case Leave(t) =>
      if t !in s.turns then s
      else if s.turns[t].phase == Checked then s.(turns := s.turns - {t})
      else Left(s, t)
    case CheckFold => if !Admits(ceiling, s.log, s.day) then s else s.(folds := s.folds + {s.next}, next := s.next + 1)
    case EndFold(f, cost) => if f !in s.folds then s else Logged(s.(folds := s.folds - {f}), RoomSummary(cost))
    case Unrelated => Logged(s, Other)
    case NextDay => s.(day := s.day + 1)
  }

  function Run(ceiling: Ceiling, s: Sys, steps: seq<Step>): Sys
    decreases |steps|
  {
    if steps == [] then s else Run(ceiling, Apply(ceiling, s, steps[0]), steps[1..])
  }

  // ---------------------------------------------------------------- one summon, one answer

  ghost predicate StartedIn(log: seq<Entry>, turn: nat, summon: nat) {
    exists i :: 0 <= i < |log| && log[i].event == Started(turn, summon)
  }

  predicate Succeeded(e: Event) {
    e.Completed? && e.success
  }

  /** At most one started row a summon, one successful row a turn, and none without its started row. */
  ghost predicate RowsHold(log: seq<Entry>, next: nat) {
    && (forall i, j :: 0 <= i < j < |log| && log[i].event.Started? && log[j].event.Started? ==>
        log[i].event.summon != log[j].event.summon)
    && (forall i, j :: 0 <= i < j < |log| && Succeeded(log[i].event) && Succeeded(log[j].event) ==>
        log[i].event.turn != log[j].event.turn)
    && (forall i :: 0 <= i < |log| && Succeeded(log[i].event) ==>
          log[i].event.turn < next && StartedIn(log, log[i].event.turn, log[i].event.summon))
  }

  ghost predicate Unanswered(log: seq<Entry>, turn: nat) {
    forall i :: 0 <= i < |log| && Succeeded(log[i].event) ==> log[i].event.turn != turn
  }

  ghost predicate TurnHolds(log: seq<Entry>, next: nat, t: nat, turn: Turn) {
    && t < next
    && (turn.phase != Answered ==> Unanswered(log, t))
    && (turn.phase == Running ==> StartedIn(log, t, turn.summon))
  }

  ghost predicate RowInv(s: Sys) {
    RowsHold(s.log, s.next) && forall t :: t in s.turns ==> TurnHolds(s.log, s.next, t, s.turns[t])
  }

  lemma StartedAppend(log: seq<Entry>, e: Entry, turn: nat, summon: nat)
    requires StartedIn(log, turn, summon)
    ensures StartedIn(log + [e], turn, summon)
  {
    var i :| 0 <= i < |log| && log[i].event == Started(turn, summon);
    assert (log + [e])[i] == log[i];
  }

  lemma RowsAppend(log: seq<Entry>, next: nat, e: Entry)
    requires RowsHold(log, next)
    requires e.event.Started? ==> !HasStarted(log, e.event.summon)
    requires Succeeded(e.event) ==>
            e.event.turn < next && Unanswered(log, e.event.turn) && StartedIn(log, e.event.turn, e.event.summon)
    ensures RowsHold(log + [e], next)
  {
    forall t, s | StartedIn(log, t, s) ensures StartedIn(log + [e], t, s) { StartedAppend(log, e, t, s); }
  }

  lemma TurnAppend(log: seq<Entry>, next: nat, e: Entry, t: nat, turn: Turn)
    requires TurnHolds(log, next, t, turn) && (Succeeded(e.event) ==> e.event.turn != t)
    ensures TurnHolds(log + [e], next, t, turn)
  {
    if turn.phase == Running { StartedAppend(log, e, t, turn.summon); }
  }

  /** Appending `e`, the turns left being old ones it does not answer, or ones that hold afterwards. */
  lemma AppendKeeps(s: Sys, after: Sys, e: Event)
    requires RowInv(s) && after.log == s.log + [Entry(s.day, e)] && after.next == s.next
    requires e.Started? ==> !HasStarted(s.log, e.summon)
    requires Succeeded(e) ==> e.turn < s.next && Unanswered(s.log, e.turn) && StartedIn(s.log, e.turn, e.summon)
    requires forall t :: t in after.turns ==>
               || (t in s.turns && after.turns[t] == s.turns[t] && (Succeeded(e) ==> e.turn != t))
               || TurnHolds(after.log, after.next, t, after.turns[t])
    ensures RowInv(after)
  {
    RowsAppend(s.log, s.next, Entry(s.day, e));
    forall t | t in after.turns ensures TurnHolds(after.log, after.next, t, after.turns[t]) {
      if t in s.turns && after.turns[t] == s.turns[t] && (Succeeded(e) ==> e.turn != t) {
        TurnAppend(s.log, s.next, Entry(s.day, e), t, s.turns[t]);
      }
    }
  }

  lemma StartKeeps(s: Sys, t: nat)
    requires RowInv(s) && t in s.turns && s.turns[t].phase == Slotted && !HasStarted(s.log, s.turns[t].summon)
    ensures RowInv(Logged(Moved(s, t, Running), Started(t, s.turns[t].summon)))
  {
    var e := Started(t, s.turns[t].summon);
    var after := Logged(Moved(s, t, Running), e);
    assert after.log[|s.log|].event == e;
    AppendKeeps(s, after, e);
  }

  lemma AnswerKeepsRows(ceiling: Ceiling, s: Sys, t: nat, cost: Option<real>)
    requires RowInv(s)
    ensures RowInv(Apply(ceiling, s, Answer(t, cost)))
  {
    if t in s.turns && s.turns[t].phase == Running {
      AppendKeeps(s, Apply(ceiling, s, Answer(t, cost)), Completed(t, s.turns[t].summon, true, cost));
    }
  }

  lemma FailKeepsRows(ceiling: Ceiling, s: Sys, t: nat)
    requires RowInv(s)
    ensures RowInv(Apply(ceiling, s, Fail(t)))
  {
    if t in s.turns && s.turns[t].phase != Checked {
      AppendKeeps(s, Apply(ceiling, s, Fail(t)), Completed(t, s.turns[t].summon, false, None));
    }
  }

  lemma StartKeepsRows(ceiling: Ceiling, s: Sys, t: nat)
    requires RowInv(s)
    ensures RowInv(Apply(ceiling, s, Start(t)))
  {
    if t in s.turns && s.turns[t].phase == Slotted && !HasStarted(s.log, s.turns[t].summon) { StartKeeps(s, t); }
  }

  lemma StepKeepsRows(ceiling: Ceiling, s: Sys, step: Step)
    requires RowInv(s)
    ensures RowInv(Apply(ceiling, s, step))
  {
    match step
    case Start(t) => StartKeepsRows(ceiling, s, t);
    case Answer(t, cost) => AnswerKeepsRows(ceiling, s, t, cost);
    case Fail(t) => FailKeepsRows(ceiling, s, t);
    case EndFold(f, cost) => if f in s.folds { AppendKeeps(s, Apply(ceiling, s, step), RoomSummary(cost)); }
    case Unrelated => AppendKeeps(s, Apply(ceiling, s, step), Other);
    case _ =>
  }

  lemma {:induction false} RunKeepsRows(ceiling: Ceiling, s: Sys, steps: seq<Step>)
    requires RowInv(s)
    ensures RowInv(Run(ceiling, s, steps))
    decreases |steps|
  {
    if steps != [] {
      StepKeepsRows(ceiling, s, steps[0]);
      RunKeepsRows(ceiling, Apply(ceiling, s, steps[0]), steps[1..]);
    }
  }

  /** However turns race, over one process's slots or past them: a summon has at most one started row and at most one
   *  successful completed row, and that row is of the turn that started. */
  lemma OneSummonOneAnswer(ceiling: Ceiling, steps: seq<Step>, i: nat, j: nat)
    requires var log := Run(ceiling, EMPTY, steps).log;
      i < |log| && j < |log| && Succeeded(log[i].event) && Succeeded(log[j].event)
          && log[i].event.summon == log[j].event.summon
    ensures i == j
    ensures var log := Run(ceiling, EMPTY, steps).log; StartedIn(log, log[i].event.turn, log[i].event.summon)
  {
    RunKeepsRows(ceiling, EMPTY, steps);
    var log := Run(ceiling, EMPTY, steps).log;
    var a :| 0 <= a < |log| && log[a].event == Started(log[i].event.turn, log[i].event.summon);
    var b :| 0 <= b < |log| && log[b].event == Started(log[j].event.turn, log[j].event.summon);
    assert a == b;
  }

  // ---------------------------------------------------------------- the ceiling is crossed by so much and no more

  /** Turns past their check and not yet answered. */
  ghost function Open(s: Sys): set<nat> {
    set t | t in s.turns && s.turns[t].phase != Answered
  }

  ghost function Calls(s: Sys): nat {
    |Open(s)| + |s.folds|
  }

  predicate CostWithin(cost: Option<real>, c: real) {
    cost.None? || 0.0 <= cost.value <= c
  }

  predicate StepWithin(step: Step, c: real) {
    match step
    case Answer(_, cost) => CostWithin(cost, c)
    case EndFold(_, cost) => CostWithin(cost, c)
    case _ => true
  }

  /** At no moment are more than `n` calls past their check and unfinished, and none costs more than `c`. */
  ghost predicate Within(ceiling: Ceiling, s: Sys, steps: seq<Step>, n: nat, c: real)
    decreases |steps|
  {
    Calls(s) <= n && (steps == []
        || (StepWithin(steps[0], c) && Within(ceiling, Apply(ceiling, s, steps[0]), steps[1..], n, c)))
  }

  ghost predicate SpendInv(s: Sys, usd: real, n: nat, c: real) {
    && (forall i :: 0 <= i < |s.log| ==> s.log[i].day <= s.day)
    && (forall t :: t in s.turns ==> t < s.next) && (forall f :: f in s.folds ==> f < s.next)
    && SpentSince(s.log, s.day) + c * (Calls(s) as real) <= usd + c * (n as real)
  }

  lemma OneCallLess(c: real, k: nat)
    ensures c * ((k + 1) as real) == c * (k as real) + c
  {
  }

  lemma FewerCallsLess(c: real, k: nat, n: nat)
    requires c >= 0.0 && k <= n
    ensures c * (k as real) <= c * (n as real)
  {
  }

  lemma SpentAppend(log: seq<Entry>, e: Entry, today: nat)
    ensures SpentSince(log + [e], today) == SpentSince(log, today) + (if e.day >= today then CostOf(e.event) else 0.0)
  {
    assert (log + [e])[..|log|] == log;
  }

  lemma {:induction false} NothingSpentYet(log: seq<Entry>, today: nat)
    requires forall i :: 0 <= i < |log| ==> log[i].day < today
    ensures SpentSince(log, today) == 0.0
  {
    if log != [] { NothingSpentYet(log[..|log| - 1], today); }
  }

  lemma OneMore(s: Sys, after: Sys, t: nat)
    requires Open(after) == Open(s) + {t} && t !in Open(s) && after.folds == s.folds
    ensures Calls(after) == Calls(s) + 1
  {
  }

  /** An admitted call: what was spent was under the ceiling, and the calls now open are within the bound. */
  lemma AdmitKeeps(s: Sys, after: Sys, usd: real, n: nat, c: real)
    requires SpendInv(s, usd, n, c) && c >= 0.0 && SpentSince(s.log, s.day) < usd
    requires after.log == s.log && after.day == s.day && Calls(after) <= n
    requires (forall t :: t in after.turns ==> t < after.next) && (forall f :: f in after.folds ==> f < after.next)
    ensures SpendInv(after, usd, n, c)
  {
    FewerCallsLess(c, Calls(after), n);
  }

  /** Nothing charged, and no call more. */
  lemma QuietKeeps(s: Sys, after: Sys, usd: real, n: nat, c: real)
    requires SpendInv(s, usd, n, c) && c >= 0.0 && after.day == s.day && Calls(after) <= Calls(s)
            && after.next >= s.next
    requires after.log == s.log || (exists e :: CostOf(e) == 0.0 && after.log == s.log + [Entry(s.day, e)])
    requires after.turns.Keys <= s.turns.Keys && after.folds <= s.folds
    ensures SpendInv(after, usd, n, c)
  {
    if after.log != s.log {
      var e :| CostOf(e) == 0.0 && after.log == s.log + [Entry(s.day, e)];
      SpentAppend(s.log, Entry(s.day, e), s.day);
    }
    FewerCallsLess(c, Calls(after), Calls(s));
  }

  /** A call ends: its cost is at most the share held for it. */
  lemma EndKeeps(s: Sys, after: Sys, e: Event, usd: real, n: nat, c: real)
    requires SpendInv(s, usd, n, c) && c >= 0.0 && CostOf(e) <= c
    requires after.day == s.day && after.log == s.log + [Entry(s.day, e)] && Calls(after) + 1 == Calls(s)
            && after.next == s.next
    requires after.turns.Keys <= s.turns.Keys && after.folds <= s.folds
    ensures SpendInv(after, usd, n, c)
  {
    SpentAppend(s.log, Entry(s.day, e), s.day);
    OneCallLess(c, Calls(after));
  }

  lemma NextDayKeeps(s: Sys, usd: real, n: nat, c: real)
    requires SpendInv(s, usd, n, c) && c >= 0.0 && usd >= 0.0 && Calls(s) <= n
    ensures SpendInv(s.(day := s.day + 1), usd, n, c)
  {
    var after := s.(day := s.day + 1);
    assert Open(after) == Open(s);
    NothingSpentYet(s.log, s.day + 1);
    FewerCallsLess(c, Calls(after), n);
    assert SpentSince(after.log, after.day) == 0.0;
    assert 0.0 + c * (Calls(after) as real) <= usd + c * (n as real);
  }

  lemma FewerOpen(s: Sys, after: Sys)
    requires Open(after) <= Open(s) && after.folds <= s.folds
    ensures Calls(after) <= Calls(s)
  {
    SubsetSize(Open(after), Open(s));
    SubsetSize(after.folds, s.folds);
  }

  /** Slots, rows and ends of turns that cost nothing. */
  lemma TurnStepKeeps(ceiling: Ceiling, s: Sys, step: Step, usd: real, n: nat, c: real)
    requires SpendInv(s, usd, n, c) && c >= 0.0
    requires step.TakeSlot? || step.Start? || step.Fail? || step.Leave? || step.Unrelated?
    ensures SpendInv(Apply(ceiling, s, step), usd, n, c)
  {
    var after := Apply(ceiling, s, step);
    FewerOpen(s, after);
    if after.log != s.log {
      var e := after.log[|s.log|].event;
      assert after.log == s.log + [Entry(s.day, e)] && CostOf(e) == 0.0;
    }
    QuietKeeps(s, after, usd, n, c);
  }

  lemma AnswerKeeps(ceiling: Ceiling, s: Sys, t: nat, cost: Option<real>, usd: real, n: nat, c: real)
    requires SpendInv(s, usd, n, c) && c >= 0.0 && CostWithin(cost, c)
    ensures SpendInv(Apply(ceiling, s, Answer(t, cost)), usd, n, c)
  {
    if t in s.turns && s.turns[t].phase == Running {
      var after := Apply(ceiling, s, Answer(t, cost));
      OneMore(after, s, t);
      EndKeeps(s, after, Completed(t, s.turns[t].summon, true, cost), usd, n, c);
    }
  }

  lemma EndFoldKeeps(ceiling: Ceiling, s: Sys, f: nat, cost: Option<real>, usd: real, n: nat, c: real)
    requires SpendInv(s, usd, n, c) && c >= 0.0 && CostWithin(cost, c)
    ensures SpendInv(Apply(ceiling, s, EndFold(f, cost)), usd, n, c)
  {
    if f in s.folds {
      var after := Apply(ceiling, s, EndFold(f, cost));
      assert Open(after) == Open(s);
      EndKeeps(s, after, RoomSummary(cost), usd, n, c);
    }
  }

  lemma SpendStep(s: Sys, step: Step, usd: real, n: nat, c: real)
    requires SpendInv(s, usd, n, c) && c >= 0.0 && usd >= 0.0 && StepWithin(step, c)
    requires Calls(s) <= n && Calls(Apply(Limit(usd), s, step)) <= n
    ensures SpendInv(Apply(Limit(usd), s, step), usd, n, c)
  {
    match step
    case Check(_, _) => if Admits(Limit(usd), s.log, s.day) { AdmitKeeps(s, Apply(Limit(usd), s, step), usd, n, c); }
    case CheckFold => if Admits(Limit(usd), s.log, s.day) { AdmitKeeps(s, Apply(Limit(usd), s, step), usd, n, c); }
    case Answer(t, cost) => AnswerKeeps(Limit(usd), s, t, cost, usd, n, c);
    case EndFold(f, cost) => EndFoldKeeps(Limit(usd), s, f, cost, usd, n, c);
    case NextDay => NextDayKeeps(s, usd, n, c);
    case _ => TurnStepKeeps(Limit(usd), s, step, usd, n, c);
  }

  lemma {:induction false} SpendRun(s: Sys, steps: seq<Step>, usd: real, n: nat, c: real)
    requires SpendInv(s, usd, n, c) && c >= 0.0 && usd >= 0.0 && Within(Limit(usd), s, steps, n, c)
    ensures SpendInv(Run(Limit(usd), s, steps), usd, n, c)
    decreases |steps|
  {
    if steps != [] {
      SpendStep(s, steps[0], usd, n, c);
      SpendRun(Apply(Limit(usd), s, steps[0]), steps[1..], usd, n, c);
    }
  }

  lemma {:induction false} RunConcat(ceiling: Ceiling, s: Sys, a: seq<Step>, b: seq<Step>)
    ensures Run(ceiling, s, a + b) == Run(ceiling, Run(ceiling, s, a), b)
    decreases |a|
  {
    if a == [] {
      assert a + b == b;
    } else {
      assert (a + b)[1..] == a[1..] + b;
      RunConcat(ceiling, Apply(ceiling, s, a[0]), a[1..], b);
    }
  }

  lemma RunLast(ceiling: Ceiling, s: Sys, steps: seq<Step>)
    requires steps != []
    ensures Run(ceiling, s, steps) == Apply(ceiling, Run(ceiling, s, steps[..|steps| - 1]), steps[|steps| - 1])
  {
    RunConcat(ceiling, s, steps[..|steps| - 1], [steps[|steps| - 1]]);
    RunOne(ceiling, Run(ceiling, s, steps[..|steps| - 1]), steps[|steps| - 1]);
    assert steps[..|steps| - 1] + [steps[|steps| - 1]] == steps;
  }

  /** What a step is billed: an answer of a running turn, or a fold of one under way, its price if it has one. */
  function Bill(s: Sys, step: Step): real {
    match step
    case Answer(t, Some(cost)) => if t in s.turns && s.turns[t].phase == Running then cost else 0.0
    case EndFold(f, Some(cost)) => if f in s.folds then cost else 0.0
    case _ => 0.0
  }

  /** What the calls of a run from an empty log were billed since midnight, told by its steps. */
  function Billed(ceiling: Ceiling, steps: seq<Step>): real {
    if steps == [] || steps[|steps| - 1].NextDay? then 0.0
    else
      var init := steps[..|steps| - 1];
      Billed(ceiling, init) + Bill(Run(ceiling, EMPTY, init), steps[|steps| - 1])
  }

  ghost predicate NoneTomorrow(s: Sys) {
    forall i :: 0 <= i < |s.log| ==> s.log[i].day <= s.day
  }

  /** A step appends one row of the day at most, and its price is what the step is billed. */
  lemma AppendsItsBill(ceiling: Ceiling, s: Sys, step: Step) returns (e: Event)
    requires !step.NextDay?
    ensures var after := Apply(ceiling, s, step);
      && after.day == s.day
      && (after.log == s.log || after.log == s.log + [Entry(s.day, e)])
      && Bill(s, step) == if after.log == s.log then 0.0 else CostOf(e)
  {
    match step
    case Start(t) => e := if t in s.turns then Started(t, s.turns[t].summon) else Other;
    case Answer(t, cost) => e := if t in s.turns then Completed(t, s.turns[t].summon, true, cost) else Other;
    case Fail(t) => e := if t in s.turns then Completed(t, s.turns[t].summon, false, None) else Other;
    case EndFold(_, cost) => e := RoomSummary(cost);
    case _ => e := Other;
  }

  lemma BillIsLogged(ceiling: Ceiling, s: Sys, step: Step)
    requires NoneTomorrow(s)
    ensures var after := Apply(ceiling, s, step);
      && NoneTomorrow(after)
      && SpentSince(after.log, after.day) == if step.NextDay? then 0.0 else SpentSince(s.log, s.day) + Bill(s, step)
  {
    if step.NextDay? {
      NothingSpentYet(s.log, s.day + 1);
    } else {
      var e := AppendsItsBill(ceiling, s, step);
      SpentAppend(s.log, Entry(s.day, e), s.day);
    }
  }

  /** The day's spend read from the log is what its calls were billed, turns and folds alike. */
  lemma {:induction false} SpendIsBilled(ceiling: Ceiling, steps: seq<Step>)
    ensures var s := Run(ceiling, EMPTY, steps);
      NoneTomorrow(s) && SpentSince(s.log, s.day) == Billed(ceiling, steps)
  {
    if steps != [] {
      var init := steps[..|steps| - 1];
      SpendIsBilled(ceiling, init);
      RunLast(ceiling, EMPTY, steps);
      BillIsLogged(ceiling, Run(ceiling, EMPTY, init), steps[|steps| - 1]);
    }
  }

  /** A call is let in exactly when no ceiling is set, or the setting reads as one and less has been billed that day. */
  lemma AdmittedWhileUnderCeiling(raw: Option<string>, number: Option<real>, steps: seq<Step>, step: Step)
    requires step.Check? || step.CheckFold?
    ensures var ceiling := CeilingUsd(raw, number);
      var s := Run(ceiling, EMPTY, steps); var after := Apply(ceiling, s, step);
      && (after != s <==>
            || raw == None || Blank(raw.value)
            || (number.Some? && number.value >= 0.0 && Billed(ceiling, steps) < number.value))
      && (after != s && step.Check? ==> after.turns == s.turns[s.next := Turn(step.summon, step.slot, Checked)])
      && (after != s && step.CheckFold? ==> after.folds == s.folds + {s.next})
  {
    SpendIsBilled(CeilingUsd(raw, number), steps);
  }

  /** The ceiling is crossed, and then closes: on no day, however calls overlap and whichever day they began, are more
   *  billed than the ceiling plus one call's cost for each of the `n` that may be open at once. */
  lemma OvershootIsBounded(steps: seq<Step>, usd: real, n: nat, c: real)
    requires c >= 0.0 && usd >= 0.0 && Within(Limit(usd), EMPTY, steps, n, c)
    ensures Billed(Limit(usd), steps) <= usd + c * (n as real)
  {
    FewerCallsLess(c, 0, n);
    assert Open(EMPTY) == {};
    SpendRun(EMPTY, steps, usd, n, c);
    var s := Run(Limit(usd), EMPTY, steps);
    FewerCallsLess(c, 0, Calls(s));
    SpendIsBilled(Limit(usd), steps);
  }

  // ---------------------------------------------------------------- once reached

  predicate SameDay(steps: seq<Step>) {
    forall i :: 0 <= i < |steps| ==> !steps[i].NextDay?
  }

  lemma ClosedToCalls(usd: real, s: Sys, step: Step)
    requires SpentSince(s.log, s.day) >= usd && !step.NextDay?
    ensures var after := Apply(Limit(usd), s, step);
      after.turns.Keys <= s.turns.Keys && after.folds <= s.folds && after.day == s.day
  {
  }

  lemma ClosedStep(usd: real, s: Sys, step: Step, c: real)
    requires SpentSince(s.log, s.day) >= usd && !step.NextDay? && StepWithin(step, c)
    ensures var after := Apply(Limit(usd), s, step);
      SpentSince(after.log, after.day) >= usd && after.turns.Keys <= s.turns.Keys && after.folds <= s.folds
          && after.day == s.day
  {
    ClosedToCalls(usd, s, step);
    var e := AppendsItsBill(Limit(usd), s, step);
    SpentAppend(s.log, Entry(s.day, e), s.day);
  }

  lemma {:induction false} ClosedRun(usd: real, s: Sys, steps: seq<Step>, c: real)
    requires SpentSince(s.log, s.day) >= usd && SameDay(steps) && forall i :: 0 <= i < |steps| ==>
            StepWithin(steps[i], c)
    ensures var later := Run(Limit(usd), s, steps);
      later.turns.Keys <= s.turns.Keys && later.folds <= s.folds
    decreases |steps|
  {
    if steps != [] {
      ClosedStep(usd, s, steps[0], c);
      ClosedRun(usd, Apply(Limit(usd), s, steps[0]), steps[1..], c);
    }
  }

  /** Once the ceiling has been billed, no new call, turn or fold, is admitted for the rest of the day. */
  lemma ReachedMeansClosed(usd: real, steps: seq<Step>, more: seq<Step>, c: real)
    requires Billed(Limit(usd), steps) >= usd && SameDay(more)
    requires forall i :: 0 <= i < |more| ==> StepWithin(more[i], c)
    ensures var s, later := Run(Limit(usd), EMPTY, steps), Run(Limit(usd), EMPTY, steps + more);
      later.turns.Keys <= s.turns.Keys && later.folds <= s.folds
  {
    SpendIsBilled(Limit(usd), steps);
    RunConcat(Limit(usd), EMPTY, steps, more);
    ClosedRun(usd, Run(Limit(usd), EMPTY, steps), more, c);
  }

  /** No call is under way and none ever was. */
  ghost predicate Untouched(s: Sys) {
    s.turns == map[] && s.folds == {} && forall i :: 0 <= i < |s.log| ==> s.log[i].event.Other?
  }

  lemma {:induction false} MalformedRun(s: Sys, steps: seq<Step>)
    requires Untouched(s)
    ensures Untouched(Run(Malformed, s, steps))
    decreases |steps|
  {
    if steps != [] { MalformedRun(Apply(Malformed, s, steps[0]), steps[1..]); }
  }

  /** A setting that does not read as a ceiling is not the absence of one: over every run no turn and no fold begins. */
  lemma UnreadableCeilingAdmitsNothing(raw: string, number: Option<real>, steps: seq<Step>)
    requires !Blank(raw) && (number.None? || number.value < 0.0)
    ensures Untouched(Run(CeilingUsd(Some(raw), number), EMPTY, steps))
  {
    MalformedRun(EMPTY, steps);
  }

  // ---------------------------------------------------------------- the slot

  predicate Holding(turn: Turn) {
    turn.phase == Slotted || turn.phase == Running
  }

  /** What section 22b asks of the slots: a turn that holds one is in the set, and no two hold the same. */
  ghost predicate Exclusive(s: Sys) {
    && (forall t :: t in s.turns ==> t < s.next)
    && (forall t :: t in s.turns && Holding(s.turns[t]) ==> s.turns[t].slot in s.inFlight)
    && (forall t, u :: t in s.turns && u in s.turns && t != u && Holding(s.turns[t]) && Holding(s.turns[u]) ==>
          s.turns[t].slot != s.turns[u].slot)
  }

  /** A turn already answered leaves, its slot freed once before, while a later turn holds that slot. */
  ghost predicate Evicts(s: Sys, step: Step) {
    && (step.Leave? || step.Fail?)
    && step.turn in s.turns && s.turns[step.turn].phase == Answered
    && exists u :: u in s.turns && Holding(s.turns[u]) && s.turns[u].slot == s.turns[step.turn].slot
  }

  lemma KeepsSlots(s: Sys, after: Sys, t: nat)
    requires Exclusive(s) && after.next == s.next
    requires after.turns == s.turns - {t} && after.inFlight == s.inFlight
    ensures Exclusive(after)
  {
  }

  /** A turn gives its slot up: nobody else loses theirs exactly when nobody else holds that one. */
  lemma FreesSlot(s: Sys, after: Sys, t: nat)
    requires Exclusive(s) && t in s.turns && after.next == s.next && after.inFlight == s.inFlight - {s.turns[t].slot}
    requires after.turns == s.turns - {t} || (after.turns.Keys == s.turns.Keys && !Holding(after.turns[t])
                                              && forall u :: u in s.turns && u != t ==> after.turns[u] == s.turns[u])
    ensures Exclusive(after)
       <==> forall u :: u in s.turns && u != t && Holding(s.turns[u]) ==> s.turns[u].slot != s.turns[t].slot
  {
    if Exclusive(after) {
      forall u | u in s.turns && u != t && Holding(s.turns[u]) ensures s.turns[u].slot != s.turns[t].slot {
        assert u in after.turns && after.turns[u] == s.turns[u];
      }
    }
  }

  lemma TakesSlot(s: Sys, t: nat)
    requires Exclusive(s) && t in s.turns && s.turns[t].slot !in s.inFlight
    ensures Exclusive(Moved(s, t, Slotted).(inFlight := s.inFlight + {s.turns[t].slot}))
  {
  }

  lemma LeavingSlot(ceiling: Ceiling, s: Sys, step: Step)
    requires Exclusive(s) && (step.Leave? || step.Fail?)
    ensures Exclusive(Apply(ceiling, s, step)) <==> !Evicts(s, step)
  {
    var t, after := step.turn, Apply(ceiling, s, step);
    if t in s.turns && s.turns[t].phase == Checked {
      if step.Leave? { KeepsSlots(s, after, t); }
    } else if t in s.turns {
      FreesSlot(s, after, t);
    }
  }

  lemma OtherSlotStep(ceiling: Ceiling, s: Sys, step: Step)
    requires Exclusive(s) && !step.Leave? && !step.Fail?
    ensures Exclusive(Apply(ceiling, s, step))
  {
    var after := Apply(ceiling, s, step);
    match step
    case TakeSlot(t) =>
      if t in s.turns && s.turns[t].phase == Checked {
        if s.turns[t].slot in s.inFlight { KeepsSlots(s, after, t); } else { TakesSlot(s, t); }
      }
    case Start(t) => if t in s.turns && s.turns[t].phase == Slotted
        && HasStarted(s.log, s.turns[t].summon) { FreesSlot(s, after, t); }
    case Answer(t, _) => if t in s.turns && s.turns[t].phase == Running { FreesSlot(s, after, t); }
    case _ =>
  }

  /** One turn a member and room is lost in exactly one way. */
  lemma SlotIsLostOnlyByEviction(ceiling: Ceiling, s: Sys, step: Step)
    requires Exclusive(s)
    ensures Exclusive(Apply(ceiling, s, step)) <==> !Evicts(s, step)
  {
    if step.Leave? || step.Fail? { LeavingSlot(ceiling, s, step); } else { OtherSlotStep(ceiling, s, step); }
  }

  ghost predicate AlwaysExclusive(ceiling: Ceiling, s: Sys, steps: seq<Step>)
    decreases |steps|
  {
    Exclusive(s) && (steps == [] || AlwaysExclusive(ceiling, Apply(ceiling, s, steps[0]), steps[1..]))
  }

  ghost predicate NeverEvicts(ceiling: Ceiling, s: Sys, steps: seq<Step>)
    decreases |steps|
  {
    steps == [] || (!Evicts(s, steps[0]) && NeverEvicts(ceiling, Apply(ceiling, s, steps[0]), steps[1..]))
  }

  /** Over any run, however turns race: the slots exclude at every moment if and only if no turn past its answer
   *  leaves while another holds its slot. */
  lemma {:induction false} ExclusiveIffNoEviction(ceiling: Ceiling, s: Sys, steps: seq<Step>)
    requires Exclusive(s)
    ensures AlwaysExclusive(ceiling, s, steps) <==> NeverEvicts(ceiling, s, steps)
    decreases |steps|
  {
    if steps != [] {
      SlotIsLostOnlyByEviction(ceiling, s, steps[0]);
      if !Evicts(s, steps[0]) { ExclusiveIffNoEviction(ceiling, Apply(ceiling, s, steps[0]), steps[1..]); }
    }
  }

  lemma RunOne(ceiling: Ceiling, s: Sys, step: Step)
    ensures Run(ceiling, s, [step]) == Apply(ceiling, s, step)
  {
    assert [step][1..] == [];
    assert Run(ceiling, Apply(ceiling, s, step), []) == Apply(ceiling, s, step);
  }

  /** How a turn comes to run. */
  function Begun(turn: nat, summon: nat, slot: string): seq<Step> {
    [Check(summon, slot)] + [TakeSlot(turn)] + [Start(turn)]
  }

  lemma BegunRuns(ceiling: Ceiling, s: Sys, summon: nat, slot: string)
    requires Admits(ceiling, s.log, s.day) && slot !in s.inFlight && !HasStarted(s.log, summon) && s.next !in s.turns
    ensures Run(ceiling, s, Begun(s.next, summon, slot))
         == Sys(s.log + [Entry(s.day, Started(s.next, summon))], s.day, s.next + 1,
                s.turns[s.next := Turn(summon, slot, Running)], s.folds, s.inFlight + {slot})
  {
    var t := s.next;
    RunConcat(ceiling, s, [Check(summon, slot)] + [TakeSlot(t)], [Start(t)]);
    RunConcat(ceiling, s, [Check(summon, slot)], [TakeSlot(t)]);
    RunOne(ceiling, s, Check(summon, slot));
    var checked := Apply(ceiling, s, Check(summon, slot));
    RunOne(ceiling, checked, TakeSlot(t));
    var slotted := Apply(ceiling, checked, TakeSlot(t));
    RunOne(ceiling, slotted, Start(t));
    assert slotted.turns == s.turns[t := Turn(summon, slot, Slotted)];
    assert Apply(ceiling, slotted, Start(t)).turns == s.turns[t := Turn(summon, slot, Running)];
  }

  /** The first turn answers, a second takes its slot, the first leaves, a third takes the slot too. */
  function Race(slot: string): seq<Step> {
    Begun(0, 0, slot) + [Answer(0, None)] + Begun(1, 1, slot) + [Leave(0)] + Begun(2, 2, slot)
  }

  lemma RaceLog(log: seq<Entry>, summon: nat, e: Event)
    requires !HasStarted(log, summon) && (e.Started? ==> e.summon != summon)
    ensures !HasStarted(log + [Entry(0, e)], summon)
  {
  }

  /** So it is lost in a run of three turns: two of them run on one slot at once. */
  lemma TwoTurnsRunOnOneSlot(slot: string)
    ensures var s := Run(NoCeiling, EMPTY, Race(slot));
      && s.turns == map[1 := Turn(1, slot, Running), 2 := Turn(2, slot, Running)]
      && !Exclusive(s)
  {
    var one := Begun(0, 0, slot);
    var two := one + [Answer(0, None)];
    var three := two + Begun(1, 1, slot);
    var four := three + [Leave(0)];
    RunConcat(NoCeiling, EMPTY, four, Begun(2, 2, slot));
    RunConcat(NoCeiling, EMPTY, three, [Leave(0)]);
    RunConcat(NoCeiling, EMPTY, two, Begun(1, 1, slot));
    RunConcat(NoCeiling, EMPTY, one, [Answer(0, None)]);
    var a := FirstAnswers(slot);
    BegunRuns(NoCeiling, a, 1, slot);
    var b := Run(NoCeiling, a, Begun(1, 1, slot));
    RunOne(NoCeiling, b, Leave(0));
    var c := Apply(NoCeiling, b, Leave(0));
    RaceLog(a.log, 2, Started(1, 1));
    assert c.log == b.log && c.next == 2 && c.inFlight == {};
    assert c.turns == map[1 := Turn(1, slot, Running)];
    BegunRuns(NoCeiling, c, 2, slot);
    var end := Run(NoCeiling, EMPTY, Race(slot));
    assert end.turns == map[1 := Turn(1, slot, Running), 2 := Turn(2, slot, Running)];
    assert 1 in end.turns && 2 in end.turns && Holding(end.turns[1]) && Holding(end.turns[2]);
  }

  lemma FirstAnswers(slot: string) returns (a: Sys)
    ensures a == Run(NoCeiling, Run(NoCeiling, EMPTY, Begun(0, 0, slot)), [Answer(0, None)])
    ensures a.day == 0 && a.next == 1 && a.turns == map[0 := Turn(0, slot, Answered)] && a.folds == {}
            && a.inFlight == {}
    ensures !HasStarted(a.log, 1) && !HasStarted(a.log, 2)
  {
    BegunRuns(NoCeiling, EMPTY, 0, slot);
    var begun := Run(NoCeiling, EMPTY, Begun(0, 0, slot));
    RunOne(NoCeiling, begun, Answer(0, None));
    a := Apply(NoCeiling, begun, Answer(0, None));
    var started := [Entry(0, Started(0, 0))];
    assert begun.log == started;
    RaceLog(started, 1, Completed(0, 0, true, None));
    RaceLog(started, 2, Completed(0, 0, true, None));
    assert a.turns == map[0 := Turn(0, slot, Answered)];
  }

  // ---------------------------------------------------------------- one turn, alone

  type Chunk = Summaries.Chunk

  /** What a stream says before it breaks off, if it does. */
  function Heard(reply: seq<Chunk>): (heard: seq<Chunk>)
    ensures |heard| <= |reply| && heard == reply[..|heard|] && !Summaries.Broke(heard)
    ensures |heard| < |reply| <==> Summaries.Broke(reply)
    ensures |heard| < |reply| ==> reply[|heard|].Failed?
  {
    if reply == [] || reply[0].Failed? then [] else [reply[0]] + Heard(reply[1..])
  }

  /** One delta row a piece of text. */
  function DeltaRows(day: nat, heard: seq<Chunk>): seq<Entry> {
    if heard == [] then []
    else DeltaRows(day, heard[..|heard| - 1]) + (if heard[|heard| - 1].TextDelta? then [Entry(day, Other)] else [])
  }

  lemma {:induction false} DeltasKeep(log: seq<Entry>, next: nat, day: nat, heard: seq<Chunk>, turn: nat, summon: nat)
    requires RowsHold(log, next) && Unanswered(log, turn) && StartedIn(log, turn, summon)
    ensures RowsHold(log + DeltaRows(day, heard), next)
    ensures Unanswered(log + DeltaRows(day, heard), turn) && StartedIn(log + DeltaRows(day, heard), turn, summon)
  {
    if heard == [] {
      assert log + DeltaRows(day, heard) == log;
    } else {
      var init := heard[..|heard| - 1];
      var before := log + DeltaRows(day, init);
      DeltasKeep(log, next, day, init, turn, summon);
      if heard[|heard| - 1].TextDelta? {
        RowsAppend(before, next, Entry(day, Other));
        StartedAppend(before, Entry(day, Other), turn, summon);
        assert log + DeltaRows(day, heard) == before + [Entry(day, Other)];
      } else {
        assert log + DeltaRows(day, heard) == before;
      }
    }
  }

  /** The rows one turn writes, alone, are rows every interleaving could have written. */
  lemma LoneTurnKeepsRows(log: seq<Entry>, next: nat, day: nat, summon: nat, heard: seq<Chunk>, success: bool,
      cost: Option<real>)
    requires RowsHold(log, next) && Unanswered(log, next) && !HasStarted(log, summon)
    ensures RowsHold(log + [Entry(day, Started(next, summon))] + DeltaRows(day, heard)
            + [Entry(day, Completed(next, summon, success, cost))], next + 1)
  {
    var started := log + [Entry(day, Started(next, summon))];
    assert started[|log|].event == Started(next, summon);
    RowsAppend(log, next + 1, Entry(day, Started(next, summon)));
    DeltasKeep(started, next + 1, day, heard, next, summon);
    RowsAppend(started + DeltaRows(day, heard), next + 1, Entry(day, Completed(next, summon, success, cost)));
  }

  function Deltas(heard: seq<Chunk>): seq<Step> {
    if heard == [] then []
    else Deltas(heard[..|heard| - 1]) + (if heard[|heard| - 1].TextDelta? then [Unrelated] else [])
  }

  lemma {:induction false} DeltasRun(ceiling: Ceiling, s: Sys, heard: seq<Chunk>)
    ensures Run(ceiling, s, Deltas(heard)) == s.(log := s.log + DeltaRows(s.day, heard))
  {
    if heard == [] {
      assert s.log + DeltaRows(s.day, heard) == s.log;
    } else {
      var init := heard[..|heard| - 1];
      var before := s.(log := s.log + DeltaRows(s.day, init));
      DeltasRun(ceiling, s, init);
      if heard[|heard| - 1].TextDelta? {
        RunConcat(ceiling, s, Deltas(init), [Unrelated]);
        RunOne(ceiling, before, Unrelated);
        assert s.log + DeltaRows(s.day, heard) == before.log + [Entry(s.day, Other)];
      } else {
        assert Deltas(heard) == Deltas(init) && DeltaRows(s.day, heard) == DeltaRows(s.day, init);
      }
    }
  }

  /** The steps one call of `runAgentTurn` takes when nothing comes between them. */
  function CallSteps(ceiling: Ceiling, s: Sys, summon: nat, slot: string, reply: seq<Chunk>,
      cost: Option<real>): seq<Step> {
    if !Admits(ceiling, s.log, s.day) then [Check(summon, slot)] + [Unrelated]
    else if slot in s.inFlight then [Check(summon, slot)] + [TakeSlot(s.next)] + [Unrelated]
    else if HasStarted(s.log, summon) then Begun(s.next, summon, slot)
    else
      Begun(s.next, summon, slot) + Deltas(Heard(reply))
      + (if Summaries.Broke(reply) then [Fail(s.next)] else [Answer(s.next, cost)] + [Leave(s.next)])
  }

  /** No turn in progress but other processes'. */
  ghost predicate Idle(s: Sys) {
    s.turns == map[] && s.folds == {}
  }

  lemma RefusedCallRuns(ceiling: Ceiling, s: Sys, summon: nat, slot: string, reply: seq<Chunk>, cost: Option<real>)
    requires Idle(s) && (!Admits(ceiling, s.log, s.day) || slot in s.inFlight)
    ensures Run(ceiling, s, CallSteps(ceiling, s, summon, slot, reply, cost))
         == s.(log := s.log + [Entry(s.day, Other)], next := if Admits(ceiling, s.log, s.day) then s.next + 1
             else s.next)
  {
    RunOne(ceiling, s, Check(summon, slot));
    var checked := Apply(ceiling, s, Check(summon, slot));
    if !Admits(ceiling, s.log, s.day) {
      RunConcat(ceiling, s, [Check(summon, slot)], [Unrelated]);
      RunOne(ceiling, s, Unrelated);
    } else {
      RunConcat(ceiling, s, [Check(summon, slot)] + [TakeSlot(s.next)], [Unrelated]);
      RunConcat(ceiling, s, [Check(summon, slot)], [TakeSlot(s.next)]);
      RunOne(ceiling, checked, TakeSlot(s.next));
      var refused := Apply(ceiling, checked, TakeSlot(s.next));
      assert refused.turns == map[];
      RunOne(ceiling, refused, Unrelated);
    }
  }

  lemma DuplicateCallRuns(ceiling: Ceiling, s: Sys, summon: nat, slot: string)
    requires Idle(s) && Admits(ceiling, s.log, s.day) && slot !in s.inFlight && HasStarted(s.log, summon)
    ensures Run(ceiling, s, Begun(s.next, summon, slot)) == s.(next := s.next + 1)
  {
    var t := s.next;
    RunConcat(ceiling, s, [Check(summon, slot)] + [TakeSlot(t)], [Start(t)]);
    RunConcat(ceiling, s, [Check(summon, slot)], [TakeSlot(t)]);
    RunOne(ceiling, s, Check(summon, slot));
    var checked := Apply(ceiling, s, Check(summon, slot));
    RunOne(ceiling, checked, TakeSlot(t));
    var slotted := Apply(ceiling, checked, TakeSlot(t));
    RunOne(ceiling, slotted, Start(t));
    assert slotted.turns - {t} == map[] && slotted.inFlight - {slot} == s.inFlight;
  }

  lemma EndRuns(ceiling: Ceiling, s: Sys, t: nat, summon: nat, slot: string, success: bool, cost: Option<real>)
    requires s.turns == map[t := Turn(summon, slot, Running)] && s.folds == {}
    ensures Run(ceiling, s, if success then [Answer(t, cost)] + [Leave(t)] else [Fail(t)])
         == s.(log := s.log + [Entry(s.day, Completed(t, summon, success, if success then cost else None))],
               turns := map[], inFlight := s.inFlight - {slot})
  {
    if success {
      RunConcat(ceiling, s, [Answer(t, cost)], [Leave(t)]);
      RunOne(ceiling, s, Answer(t, cost));
      var answered := Apply(ceiling, s, Answer(t, cost));
      RunOne(ceiling, answered, Leave(t));
      assert answered.turns - {t} == map[] && answered.inFlight - {slot} == answered.inFlight;
    } else {
      RunOne(ceiling, s, Fail(t));
      assert s.turns - {t} == map[];
    }
  }

  lemma AnsweredCallRuns(ceiling: Ceiling, s: Sys, summon: nat, slot: string, reply: seq<Chunk>, cost: Option<real>)
    requires Idle(s) && Admits(ceiling, s.log, s.day) && slot !in s.inFlight && !HasStarted(s.log, summon)
    ensures var success := !Summaries.Broke(reply);
      Run(ceiling, s, CallSteps(ceiling, s, summon, slot, reply, cost))
      == s.(log := s.log + [Entry(s.day, Started(s.next, summon))] + DeltaRows(s.day, Heard(reply))
                   + [Entry(s.day, Completed(s.next, summon, success, if success then cost else None))],
            next := s.next + 1)
  {
    var success := !Summaries.Broke(reply);
    var end := if success then [Answer(s.next, cost)] + [Leave(s.next)] else [Fail(s.next)];
    RunConcat(ceiling, s, Begun(s.next, summon, slot) + Deltas(Heard(reply)), end);
    RunConcat(ceiling, s, Begun(s.next, summon, slot), Deltas(Heard(reply)));
    BegunRuns(ceiling, s, summon, slot);
    var begun := Run(ceiling, s, Begun(s.next, summon, slot));
    DeltasRun(ceiling, begun, Heard(reply));
    EndRuns(ceiling, begun.(log := begun.log + DeltaRows(s.day, Heard(reply))), s.next, summon, slot, success, cost);
    assert begun.inFlight - {slot} == s.inFlight;
  }

  datatype Outcome = CeilingReached | Busy | Duplicate | Replied(text: string) | Unable(text: string)

  class AgentRunner {
    var log: seq<Entry>
    var inFlight: set<string>
    var day: nat
    var next: nat

    constructor ()
      ensures State() == EMPTY
    {
      log, inFlight, day, next := [], {}, 0, 0;
    }

    /** The machine's state between calls. */
    ghost function State(): Sys
      reads this
    {
      Sys(log, day, next, map[], {}, inFlight)
    }

    /** Refusals come in this order, each saying so in the room, except the loser of a start, who says nothing. Else
     *  the started row, a row for each delta heard, and one completed row, priced only when it succeeded; the slot is
     *  as it was. */
    method RunAgentTurn(ceiling: Ceiling, summon: nat, slot: string, reply: seq<Chunk>, cost: Option<real>
        ) returns (outcome: Outcome)
      modifies this
      ensures State() == Run(ceiling, old(State()), CallSteps(ceiling, old(State()), summon, slot, reply, cost))
      ensures inFlight == old(inFlight) && day == old(day)
      ensures outcome.CeilingReached? <==> !Admits(ceiling, old(log), day)
      ensures outcome.Busy? <==> Admits(ceiling, old(log), day) && slot in inFlight
      ensures outcome.Duplicate? <==>
              Admits(ceiling, old(log), day) && slot !in inFlight && HasStarted(old(log), summon)
      ensures outcome.CeilingReached? || outcome.Busy? ==> log == old(log) + [Entry(day, Other)]
      ensures outcome.Duplicate? ==> log == old(log)
      ensures outcome.Replied? || outcome.Unable? ==>
                && (outcome.Replied? <==> !Summaries.Broke(reply))
                && outcome.text == Summaries.Streamed(Heard(reply))
                && log == old(log) + [Entry(day, Started(old(next), summon))] + DeltaRows(day, Heard(reply))
                          + [Entry(day, Completed(old(next), summon, outcome.Replied?, if outcome.Replied? then cost
                              else None))]
    {
      ghost var before := State();
      if !Admits(ceiling, log, day) {
        RefusedCallRuns(ceiling, before, summon, slot, reply, cost);
        Append(Other);
        return CeilingReached;
      }
      var turn := next;
      next := next + 1;
      if slot in inFlight {
        RefusedCallRuns(ceiling, before, summon, slot, reply, cost);
        Append(Other);
        return Busy;
      }
      inFlight := inFlight + {slot};
      if HasStarted(log, summon) {
        DuplicateCallRuns(ceiling, before, summon, slot);
        inFlight := inFlight - {slot};
        return Duplicate;
      }
      AnsweredCallRuns(ceiling, before, summon, slot, reply, cost);
      Append(Started(turn, summon));
      var text := Listen(reply);
      if !Summaries.Broke(reply) {
        Append(Completed(turn, summon, true, cost));
        outcome := Replied(text);
      } else {
        Append(Completed(turn, summon, false, None));
        outcome := Unable(text);
      }
      inFlight := inFlight - {slot};
    }

    method Append(e: Event)
      modifies this`log
      ensures log == old(log) + [Entry(day, e)]
    {
      log := log + [Entry(day, e)];
    }

    /** The stream loop: text assembled and logged piece by piece until it ends or breaks off. */
    method Listen(reply: seq<Chunk>) returns (assembled: string)
      modifies this`log
      ensures assembled == Summaries.Streamed(Heard(reply))
      ensures log == old(log) + DeltaRows(day, Heard(reply))
    {
      assembled := "";
      ghost var heard := Heard(reply);
      var i := 0;
      while i < |reply| && !reply[i].Failed?
        invariant 0 <= i <= |heard|
        invariant assembled == Summaries.Streamed(heard[..i])
        invariant log == old(log) + DeltaRows(day, heard[..i])
      {
        assert heard[..i + 1][..i] == heard[..i];
        if reply[i].TextDelta? {
          assembled := assembled + reply[i].text;
          Append(Other);
        }
        i := i + 1;
      }
      assert heard[..i] == heard;
    }
  }
}

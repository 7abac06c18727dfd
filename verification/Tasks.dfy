/**
 * A task's row and its events: apps/api/src/tasks.ts, with the readers in apps/api/src/agent.ts and
 * apps/api/src/commands/summon.ts. One task's statements, one step each: every writer appends its event, then
 * updates the row, and may die in between; what it holds of the row is a copy.
 */
module Tasks {
  import opened Prelude

  datatype State = Submitted | Working | InputRequired | Held | Done

  /** The columns a writer changes. */
  datatype Fields = Fields(state: State, assignee: string, action: Option<string>)

  datatype Event =
    | Created(fields: Fields)
    | StateChanged(to: State, from: State)
    | HandedOff(receiver: string, work: string, sender: string)
    | Other

  function StateOf(e: Event): Option<State> {
    match e
    case Created(f) => Some(f.state)
    case StateChanged(to, _) => Some(to)
    case HandedOff(_, _, _) => Some(Submitted)
    case Other => None
  }

  /** `rebuild`: the state the log implies. */
  function Rebuilt(log: seq<Event>): Option<State> {
    if log == [] then None
    else if StateOf(log[|log| - 1]).Some? then StateOf(log[|log| - 1])
    else Rebuilt(log[..|log| - 1])
  }

  /** What an UPDATE for `e` makes of a row: a transition writes the state alone. */
  function Written(f: Fields, e: Event): Fields {
    match e
    case Created(fields) => fields
    case StateChanged(to, _) => f.(state := to)
    case HandedOff(receiver, work, _) => Fields(Submitted, receiver, Some(work))
    case Other => f
  }

  /** The whole row the log implies. */
  function RebuiltFields(log: seq<Event>): Option<Fields> {
    if log == [] then None
    else
      var earlier, e := RebuiltFields(log[..|log| - 1]), log[|log| - 1];
      if e.Created? then Some(e.fields) else if earlier.None? then None else Some(Written(earlier.value, e))
  }

  // ---------------------------------------------------------------- writers, interleaved and dying

  /** `copies` and `pending` belong to callers: what each last read, and the write each owes for its event.
   *  `announcer` still owes the created event; `initial` and `announced` are history. */
  datatype Sys = Sys(
    log: seq<Event>, row: Option<Fields>, copies: map<nat, Fields>, pending: map<nat, Event>,
    announcer: Option<nat>, initial: Option<Fields>, announced: bool)

  const EMPTY := Sys([], None, map[], map[], None, None, false)

  datatype Step =
    | Ensure(p: nat, fields: Fields)
    | Announce(p: nat)
    | ReadTask(p: nat)
    | Transition(p: nat, to: State)
    | HandOff(p: nat, receiver: string, work: string)
    | Update(p: nat)
    | Die(p: nat)
    | Unrelated

  function DoEnsure(s: Sys, p: nat, f: Fields): Sys {
    if s.row.Some? then s.(copies := s.copies[p := s.row.value])
    else s.(row := Some(f), copies := s.copies[p := f], announcer := Some(p), initial := Some(f))
  }

  /** A copy in hand, nothing owed. */
  predicate Free(s: Sys, p: nat) {
    p in s.copies && p !in s.pending && s.announcer != Some(p)
  }

  function DoAppend(s: Sys, p: nat, e: Event): Sys {
    s.(log := s.log + [e], pending := s.pending[p := e])
  }

  function DoUpdate(s: Sys, p: nat): Sys {
    if p !in s.pending || s.row.None? then s
    else s.(row := Some(Written(s.row.value, s.pending[p])), pending := s.pending - {p},
            copies := if p in s.copies then s.copies[p := Written(s.copies[p], s.pending[p])] else s.copies)
  }

  function Apply(s: Sys, step: Step): Sys {
    match step
    case Ensure(p, f) => if p in s.pending || s.announcer == Some(p) then s else DoEnsure(s, p, f)
    case Announce(p) =>
      if s.announcer == Some(p) && s.initial.Some?
          then s.(log := s.log + [Created(s.initial.value)], announcer := None, announced := true) else s
    case ReadTask(p) =>
      if p !in s.pending && s.announcer != Some(p) && s.row.Some? then s.(copies := s.copies[p := s.row.value]) else s
    case Transition(p, to) => if Free(s, p) && s.copies[p].state != to
        then DoAppend(s, p, StateChanged(to, s.copies[p].state)) else s
    case HandOff(p, receiver, work) => if Free(s, p)
        then DoAppend(s, p, HandedOff(receiver, work, s.copies[p].assignee)) else s
    case Update(p) => DoUpdate(s, p)
    case Die(p) => s.(copies := s.copies - {p}, pending := s.pending - {p}, announcer := if s.announcer == Some(p)
        then None else s.announcer)
    case Unrelated => s.(log := s.log + [Other])
  }

  function Run(s: Sys, steps: seq<Step>): Sys
    decreases |steps|
  {
    if steps == [] then s else Run(Apply(s, steps[0]), steps[1..])
  }

  // ---------------------------------------------------------------- a row is always some past of the log

  ghost predicate Logged(log: seq<Event>, state: State) {
    exists i :: 0 <= i < |log| && StateOf(log[i]) == Some(state)
  }

  /** The state of some prefix of the log. */
  ghost predicate SomePast(log: seq<Event>, state: State) {
    exists k :: 0 <= k <= |log| && Rebuilt(log[..k]) == Some(state)
  }

  /** No event of the log says anything about a state. */
  ghost predicate StateFree(log: seq<Event>) {
    forall i :: 0 <= i < |log| ==> StateOf(log[i]).None?
  }

  ghost predicate Inv(s: Sys) {
    && (s.row.None? ==>
          s.initial.None? && s.copies == map[] && s.pending == map[] && s.announcer.None? && StateFree(s.log))
    && (s.row.Some? ==> s.initial.Some?)
    && (forall p :: p in s.pending ==> s.pending[p] in s.log && StateOf(s.pending[p]).Some? && !s.pending[p].Created?)
    && (s.row.Some? ==>
          Logged(s.log, s.row.value.state) || (!s.announced && s.row.value.state == s.initial.value.state))
    && (s.announced ==> s.initial.Some? && Logged(s.log, s.initial.value.state))
    && (s.announcer.Some? ==> !s.announced)
  }

  lemma LoggedAppend(log: seq<Event>, e: Event, state: State)
    ensures Logged(log, state) ==> Logged(log + [e], state)
    ensures StateOf(e) == Some(state) ==> Logged(log + [e], state)
  {
    if Logged(log, state) {
      var i :| 0 <= i < |log| && StateOf(log[i]) == Some(state);
      assert (log + [e])[i] == log[i];
    }
    assert (log + [e])[|log|] == e;
  }

  lemma AppendKeeps(s: Sys, t: Sys, e: Event)
    requires Inv(s) && t == s.(log := s.log + [e], pending := t.pending) && s.row.Some?
    requires forall p :: p in t.pending ==>
            (p in s.pending && t.pending[p] == s.pending[p]) || (t.pending[p] == e && StateOf(e).Some? && !e.Created?)
    ensures Inv(t)
  {
    LoggedAppend(s.log, e, s.row.value.state);
    LoggedAppend(s.log, e, s.initial.value.state);
    assert (s.log + [e])[|s.log|] == e;
    forall x | x in s.log ensures x in s.log + [e] {}
  }

  lemma UpdateKeeps(s: Sys, p: nat)
    requires Inv(s)
    ensures Inv(DoUpdate(s, p))
  {
    if p in s.pending {
      var i :| 0 <= i < |s.log| && s.log[i] == s.pending[p];
      assert StateOf(s.log[i]) == Some(Written(s.row.value, s.pending[p]).state);
    }
  }

  lemma AnnounceKeeps(s: Sys, p: nat)
    requires Inv(s)
    ensures Inv(Apply(s, Announce(p)))
  {
    if s.announcer == Some(p) && s.initial.Some? {
      LoggedAppend(s.log, Created(s.initial.value), s.initial.value.state);
      LoggedAppend(s.log, Created(s.initial.value), s.row.value.state);
    }
  }

  lemma StepKeeps(s: Sys, step: Step)
    requires Inv(s)
    ensures Inv(Apply(s, step))
  {
    match step
    case Announce(p) => AnnounceKeeps(s, p);
    case Transition(p, to) =>
      if Free(s, p) && s.copies[p].state != to { AppendKeeps(s, Apply(s, step), StateChanged(to, s.copies[p].state)); }
    case HandOff(p, receiver, work) =>
      if Free(s, p) { AppendKeeps(s, Apply(s, step), HandedOff(receiver, work, s.copies[p].assignee)); }
    case Update(p) => UpdateKeeps(s, p);
    case Unrelated => if s.row.Some? { AppendKeeps(s, Apply(s, step), Other); }
    case _ =>
  }

  lemma {:induction false} RunKeeps(s: Sys, steps: seq<Step>)
    requires Inv(s)
    ensures Inv(Run(s, steps))
    decreases |steps|
  {
    if steps != [] {
      StepKeeps(s, steps[0]);
      RunKeeps(Apply(s, steps[0]), steps[1..]);
    }
  }

  lemma LoggedIsPast(log: seq<Event>, state: State)
    requires Logged(log, state)
    ensures SomePast(log, state)
  {
    var i :| 0 <= i < |log| && StateOf(log[i]) == Some(state);
    assert log[..i + 1][|log[..i + 1]| - 1] == log[i];
    assert Rebuilt(log[..i + 1]) == Some(state);
  }

  /** Whoever overlaps and whoever dies: once the created event is logged, the row's state is what some prefix of
   *  the log rebuilds to. */
  lemma RowIsSomePastOfTheLog(steps: seq<Step>)
    ensures var s := Run(EMPTY, steps);
      s.announced ==> s.row.Some? && SomePast(s.log, s.row.value.state)
  {
    RunKeeps(EMPTY, steps);
    var s := Run(EMPTY, steps);
    if s.announced { LoggedIsPast(s.log, s.row.value.state); }
  }

  /** Each change of a row has its event in the log before it, as the module promises, if and only if it is an
   *  update: `ensureTask` alone inserts the row ahead of its event. */
  lemma EventComesFirstUnlessInserting(s: Sys, step: Step)
    requires Inv(s) && Apply(s, step).row != s.row
    ensures Apply(s, step).row.Some?
    ensures Logged(s.log, Apply(s, step).row.value.state) <==> step.Update?
  {
    if step.Update? {
      var e := s.pending[step.p];
      var i :| 0 <= i < |s.log| && s.log[i] == e;
      assert StateOf(s.log[i]) == Some(Written(s.row.value, e).state);
    }
  }

  /** Over every run from an empty store. */
  lemma EveryRowChangeButTheInsertIsLogged(steps: seq<Step>, step: Step)
    ensures var s := Run(EMPTY, steps);
      Apply(s, step).row != s.row ==>
        Apply(s, step).row.Some? && (Logged(s.log, Apply(s, step).row.value.state) <==> step.Update?)
  {
    RunKeeps(EMPTY, steps);
    var s := Run(EMPTY, steps);
    if Apply(s, step).row != s.row { EventComesFirstUnlessInserting(s, step); }
  }

  /** So a writer that dies in between leaves a row no log explains. */
  lemma RowNobodyRecorded(p: nat, f: Fields)
    ensures var s := Run(EMPTY, [Ensure(p, f), Die(p)]);
      s.row == Some(f) && Rebuilt(s.log) == None && s.pending == map[] && s.announcer == None
  {
    RunPair(EMPTY, Ensure(p, f), Die(p));
  }

  lemma RunPair(s: Sys, a: Step, b: Step)
    ensures Run(s, [a, b]) == Apply(Apply(s, a), b)
  {
    assert [a, b][1..] == [b] && [b][1..] == [];
    assert Run(Apply(Apply(s, a), b), []) == Apply(Apply(s, a), b);
    assert Run(Apply(s, a), [b]) == Apply(Apply(s, a), b);
  }

  // ---------------------------------------------------------------- when the row is the log

  /** One writer at a time, none dying between its statements: appends only when nothing is owed. */
  predicate Orderly(s: Sys, step: Step) {
    match step
    case Transition(_, _) => s.pending == map[] && s.announced
    case HandOff(_, _, _) => s.pending == map[] && s.announced
    case Die(p) => p !in s.pending && s.announcer != Some(p)
    case _ => true
  }

  predicate OrderlyRun(s: Sys, steps: seq<Step>)
    decreases |steps|
  {
    steps == [] || (Orderly(s, steps[0]) && OrderlyRun(Apply(s, steps[0]), steps[1..]))
  }

  /** The log is the row, or the row with the one write still owed. */
  ghost predicate InStep(s: Sys) {
    && (s.row.None? <==> s.initial.None?)
    && (s.row.None? ==> !s.announced && s.pending == map[] && s.announcer.None?)
    && (s.row.Some? && !s.announced ==> s.pending == map[] && s.row == s.initial && RebuiltFields(s.log) == None)
    && (forall p, q :: p in s.pending && q in s.pending ==> p == q)
    && (s.announced ==> s.row.Some? && s.announcer.None?)
    && (s.announced && s.pending == map[] ==> RebuiltFields(s.log) == s.row)
    && (forall p :: p in s.pending ==> s.announced && RebuiltFields(s.log) == Some(Written(s.row.value, s.pending[p])))
    && (s.row.None? ==> RebuiltFields(s.log) == None && s.copies == map[])
  }

  lemma FieldsAppend(log: seq<Event>, e: Event)
    ensures RebuiltFields(log + [e])
         == if e.Created? then Some(e.fields) else if RebuiltFields(log).None? then None
             else Some(Written(RebuiltFields(log).value, e))
  {
    assert (log + [e])[..|log|] == log;
  }

  lemma UpdateInStep(s: Sys, p: nat)
    requires InStep(s)
    ensures InStep(DoUpdate(s, p))
  {
    if p in s.pending && s.row.Some? {
      assert s.pending - {p} == map[];
    }
  }

  lemma AppendInStep(s: Sys, p: nat, e: Event)
    requires InStep(s) && s.announced && s.pending == map[] && !e.Created?
    ensures InStep(DoAppend(s, p, e))
  {
    FieldsAppend(s.log, e);
    assert p in DoAppend(s, p, e).pending;
  }

  lemma OrderlyStep(s: Sys, step: Step)
    requires InStep(s) && Orderly(s, step)
    ensures InStep(Apply(s, step))
  {
    match step
    case Announce(p) => if s.initial.Some? { FieldsAppend(s.log, Created(s.initial.value)); }
    case Transition(p, to) =>
      if Free(s, p) && s.copies[p].state != to { AppendInStep(s, p, StateChanged(to, s.copies[p].state)); }
    case HandOff(p, receiver, work) => if Free(s,
        p) { AppendInStep(s, p, HandedOff(receiver, work, s.copies[p].assignee)); }
    case Update(p) => UpdateInStep(s, p);
    case Unrelated => FieldsAppend(s.log, Other);
    case _ =>
  }

  lemma {:induction false} OrderlyKeeps(s: Sys, steps: seq<Step>)
    requires InStep(s) && OrderlyRun(s, steps)
    ensures InStep(Run(s, steps))
    decreases |steps|
  {
    if steps != [] {
      OrderlyStep(s, steps[0]);
      OrderlyKeeps(Apply(s, steps[0]), steps[1..]);
    }
  }

  lemma {:induction false} StateOfFields(log: seq<Event>)
    requires RebuiltFields(log).Some?
    ensures Rebuilt(log) == Some(RebuiltFields(log).value.state)
  {
    if log != [] && !log[|log| - 1].Created? { StateOfFields(log[..|log| - 1]); }
  }

  /** When writers do not overlap and none dies, then whenever nothing is owed the row is, in every column, what the
   *  whole log rebuilds to. */
  lemma OrderlyRowIsTheLog(steps: seq<Step>)
    requires OrderlyRun(EMPTY, steps)
    ensures var s := Run(EMPTY, steps);
      s.announced && s.pending == map[] ==>
          s.row == RebuiltFields(s.log) && s.row.Some? && Rebuilt(s.log) == Some(s.row.value.state)
  {
    OrderlyKeeps(EMPTY, steps);
    var s := Run(EMPTY, steps);
    if RebuiltFields(s.log).Some? { StateOfFields(s.log); }
  }

  /** A run in which it does: two writers hold the row as created, both log a move, and the later one writes first. */
  function Crossed(f: Fields, a: State, b: State): seq<Step> {
    [Ensure(0, f), Announce(0)] + [ReadTask(1), Transition(0, a)] + [Transition(1, b), Update(1)]
        + [Update(0), Unrelated]
  }

  /** So with nobody dying a run ends with nothing owed, the row at one state and the log at another. */
  lemma OverlapContradictsTheLog(f: Fields, a: State, b: State)
    requires a != b && a != f.state && b != f.state
    ensures var s := Run(EMPTY, Crossed(f, a, b));
      && s.pending == map[] && s.announcer.None? && s.announced
      && s.row.Some? && s.row.value.state == a && Rebuilt(s.log) == Some(b)
  {
    RunInFour(EMPTY, [Ensure(0, f), Announce(0)], [ReadTask(1), Transition(0, a)], [Transition(1, b), Update(1)],
        [Update(0), Unrelated]);
    CreatedRuns(f);
    BothMove(f, a, b);
    LastWrite(f, a, b);
  }

  lemma CreatedRuns(f: Fields)
    ensures Run(EMPTY, [Ensure(0, f), Announce(0)])
         == Sys([Created(f)], Some(f), map[0 := f], map[], None, Some(f), true)
  {
    RunPair(EMPTY, Ensure(0, f), Announce(0));
  }

  lemma LastWrite(f: Fields, a: State, b: State)
    ensures var s := Run(BothMoved(f, a, b), [Update(0), Unrelated]);
      && s.pending == map[] && s.announcer.None? && s.announced
      && s.row.Some? && s.row.value.state == a && Rebuilt(s.log) == Some(b)
  {
    var crossed := BothMoved(f, a, b);
    RunPair(crossed, Update(0), Unrelated);
    var written := Apply(crossed, Update(0));
    assert written.pending == map[] && written.log == crossed.log && written.row == Some(f.(state := a));
    assert (crossed.log + [Other])[..|crossed.log|] == crossed.log;
    assert crossed.log[|crossed.log| - 1] == StateChanged(b, f.state);
  }

  function BothMoved(f: Fields, a: State, b: State): Sys {
    Sys([Created(f), StateChanged(a, f.state), StateChanged(b, f.state)], Some(f.(state := b)),
        map[0 := f, 1 := f.(state := b)], map[0 := StateChanged(a, f.state)], None, Some(f), true)
  }

  lemma BothMove(f: Fields, a: State, b: State)
    requires a != b && a != f.state && b != f.state
    ensures var created := Sys([Created(f)], Some(f), map[0 := f], map[], None, Some(f), true);
      Run(Run(created, [ReadTask(1), Transition(0, a)]), [Transition(1, b), Update(1)]) == BothMoved(f, a, b)
  {
    var created := Sys([Created(f)], Some(f), map[0 := f], map[], None, Some(f), true);
    RunPair(created, ReadTask(1), Transition(0, a));
    var first := Apply(Apply(created, ReadTask(1)), Transition(0, a));
    assert first == Sys([Created(f), StateChanged(a, f.state)], Some(f), map[0 := f, 1 := f],
                        map[0 := StateChanged(a, f.state)], None, Some(f), true);
    RunPair(first, Transition(1, b), Update(1));
    var appended := Apply(first, Transition(1, b));
    assert appended.pending - {1} == map[0 := StateChanged(a, f.state)];
  }

  lemma {:induction false} RunConcat(s: Sys, a: seq<Step>, b: seq<Step>)
    ensures Run(s, a + b) == Run(Run(s, a), b)
    decreases |a|
  {
    if a == [] {
      assert a + b == b;
    } else {
      assert (a + b)[1..] == a[1..] + b;
      RunConcat(Apply(s, a[0]), a[1..], b);
    }
  }

  lemma RunInFour(s: Sys, a: seq<Step>, b: seq<Step>, c: seq<Step>, d: seq<Step>)
    ensures Run(s, a + b + c + d) == Run(Run(Run(Run(s, a), b), c), d)
  {
    RunConcat(s, a + b + c, d);
    RunConcat(s, a + b, c);
    RunConcat(s, a, b);
  }

  // ---------------------------------------------------------------- exactly when what is owed does no harm

  /** Everything owed is paid: each writer's row and, if still owed, the created event. */
  predicate Paying(steps: seq<Step>) {
    forall i :: 0 <= i < |steps| ==> steps[i].Update? || steps[i].Announce?
  }

  predicate NothingOwed(s: Sys) {
    s.pending == map[] && s.announcer.None?
  }

  predicate AgreesWithLog(s: Sys) {
    s.row.Some? && Rebuilt(s.log) == Some(s.row.value.state)
  }

  /** What is owed, paid in any order at all, leaves a row the log agrees with. */
  ghost predicate PaysOut(s: Sys) {
    forall steps :: Paying(steps) && NothingOwed(Run(s, steps)) ==> AgreesWithLog(Run(s, steps))
  }

  /** What the log will imply once paid up: the created event, if owed, comes last. */
  function Implied(s: Sys): Option<State> {
    if s.announcer.Some? && s.initial.Some? then Some(s.initial.value.state) else Rebuilt(s.log)
  }

  /** Every write owed is for the state the log will imply, and with none owed the row is at it. */
  ghost predicate OwesOnlyTheLog(s: Sys) {
    if s.pending == map[] then s.row.Some? && Implied(s) == Some(s.row.value.state)
    else forall p :: p in s.pending ==> StateOf(s.pending[p]) == Implied(s)
  }

  lemma PaymentImplies(s: Sys, step: Step)
    requires Inv(s) && s.row.Some? && (step.Update? || step.Announce?)
    ensures Apply(s, step).row.Some? && Implied(Apply(s, step)) == Implied(s)
  {
  }

  lemma PaymentOwes(s: Sys, step: Step)
    requires Inv(s) && s.row.Some? && OwesOnlyTheLog(s) && (step.Update? || step.Announce?)
    ensures OwesOnlyTheLog(Apply(s, step))
  {
    PaymentImplies(s, step);
  }

  lemma {:induction false} OwingOnlyTheLogPaysOut(s: Sys, steps: seq<Step>)
    requires Inv(s) && s.row.Some? && OwesOnlyTheLog(s) && Paying(steps)
    ensures NothingOwed(Run(s, steps)) ==> AgreesWithLog(Run(s, steps))
    decreases |steps|
  {
    if steps != [] {
      PaymentOwes(s, steps[0]);
      PaymentImplies(s, steps[0]);
      StepKeeps(s, steps[0]);
      OwingOnlyTheLogPaysOut(Apply(s, steps[0]), steps[1..]);
    }
  }

  /** Any one writer may be the last to write. */
  lemma {:induction false} LastToWrite(s: Sys, p: nat) returns (steps: seq<Step>)
    requires Inv(s) && s.row.Some? && p in s.pending
    ensures Paying(steps) && Run(s, steps).pending == map[]
    ensures Run(s, steps).announcer == s.announcer && Run(s, steps).initial == s.initial && Run(s, steps).log == s.log
    ensures Run(s, steps).row.Some? && StateOf(s.pending[p]) == Some(Run(s, steps).row.value.state)
    decreases |s.pending|
  {
    if q :| q in s.pending && q != p {
      var after := DoUpdate(s, q);
      UpdateKeeps(s, q);
      assert after.pending.Keys == s.pending.Keys - {q} && |after.pending| == |after.pending.Keys|;
      var rest := LastToWrite(after, p);
      steps := [Update(q)] + rest;
      assert steps[1..] == rest;
    } else {
      steps := [Update(p)];
      assert s.pending - {p} == map[];
      assert Run(DoUpdate(s, p), steps[1..]) == DoUpdate(s, p);
    }
  }

  /** The created event may be the last thing logged. */
  lemma ThenAnnounced(s: Sys, steps: seq<Step>) returns (all: seq<Step>)
    requires Inv(s) && s.row.Some? && Paying(steps)
    requires var paid := Run(s, steps);
      paid.pending == map[] && paid.announcer == s.announcer && paid.initial == s.initial && paid.log == s.log
    ensures Paying(all) && NothingOwed(Run(s, all)) && Run(s, all).row == Run(s, steps).row
    ensures Rebuilt(Run(s, all).log) == Implied(s)
  {
    all := steps;
    if s.announcer.Some? {
      all := steps + [Announce(s.announcer.value)];
      RunConcat(s, steps, [Announce(s.announcer.value)]);
      var paid := Run(s, steps);
      assert [Announce(s.announcer.value)][1..] == [];
      assert Run(paid, [Announce(s.announcer.value)]) == Apply(paid, Announce(s.announcer.value));
    }
  }

  /** What is owed cannot leave the row contradicting the log if and only if each write owed, counting the created
   *  event as still to come, is for the state the log will imply. */
  lemma PaysOutIffOwingOnlyTheLog(s: Sys)
    requires Inv(s) && s.row.Some?
    ensures PaysOut(s) <==> OwesOnlyTheLog(s)
  {
    if OwesOnlyTheLog(s) {
      forall steps | Paying(steps) && NothingOwed(Run(s, steps)) ensures AgreesWithLog(Run(s, steps)) {
        OwingOnlyTheLogPaysOut(s, steps);
      }
    } else {
      var steps: seq<Step> := [];
      if s.pending != map[] {
        var p :| p in s.pending && StateOf(s.pending[p]) != Implied(s);
        steps := LastToWrite(s, p);
      }
      var all := ThenAnnounced(s, steps);
      assert !AgreesWithLog(Run(s, all));
    }
  }

  /** The second frame of one summon finds the row and moves it before the first logs its creation. */
  function Overtaken(f: Fields, to: State): Sys {
    Sys([StateChanged(to, f.state)], Some(f.(state := to)), map[0 := f, 1 := f.(state := to)], map[], Some(0), Some(f),
        false)
  }

  lemma Overtakes(f: Fields, to: State)
    requires to != f.state
    ensures Run(EMPTY, [Ensure(0, f), Ensure(1, f)] + [Transition(1, to), Update(1)]) == Overtaken(f, to)
  {
    RunConcat(EMPTY, [Ensure(0, f), Ensure(1, f)], [Transition(1, to), Update(1)]);
    RunPair(EMPTY, Ensure(0, f), Ensure(1, f));
    var found := Run(EMPTY, [Ensure(0, f), Ensure(1, f)]);
    assert found == Sys([], Some(f), map[0 := f, 1 := f], map[], Some(0), Some(f), false);
    RunPair(found, Transition(1, to), Update(1));
    var appended := Apply(found, Transition(1, to));
    assert appended.pending - {1} == map[];
  }

  /** And the log ends at the state the row has left. */
  lemma MovedBeforeItsCreation(f: Fields, to: State)
    requires to != f.state
    ensures var s := Run(EMPTY, [Ensure(0, f), Ensure(1, f)] + [Transition(1, to), Update(1)]);
      && Inv(s) && s.row.Some? && s.row.value.state == to && !OwesOnlyTheLog(s)
      && Rebuilt(Apply(s, Announce(0)).log) == Some(f.state) && NothingOwed(Apply(s, Announce(0)))
      && Apply(s, Announce(0)).row == s.row
  {
    RunKeeps(EMPTY, [Ensure(0, f), Ensure(1, f)] + [Transition(1, to), Update(1)]);
    Overtakes(f, to);
  }

  // ---------------------------------------------------------------- a history that can be read

  /** A transition names the state the log says the task was in, and another one. */
  ghost predicate ReadsTrue(log: seq<Event>, i: nat)
    requires i < |log|
  {
    log[i].StateChanged? ==> Rebuilt(log[..i]) == Some(log[i].from) && log[i].from != log[i].to
  }

  /** The transition's caller had re-read the row, as `moveTask` does. */
  predicate Current(s: Sys, step: Step) {
    step.Transition? && step.p in s.copies && s.row.Some? ==> s.copies[step.p].state == s.row.value.state
  }

  predicate CurrentRun(s: Sys, steps: seq<Step>)
    decreases |steps|
  {
    steps == [] || (Current(s, steps[0]) && CurrentRun(Apply(s, steps[0]), steps[1..]))
  }

  lemma ReadsTrueAppend(log: seq<Event>, e: Event)
    requires forall i :: 0 <= i < |log| ==> ReadsTrue(log, i)
    requires e.StateChanged? ==> Rebuilt(log) == Some(e.from) && e.from != e.to
    ensures forall i :: 0 <= i < |log + [e]| ==> ReadsTrue(log + [e], i)
  {
    forall i | 0 <= i < |log + [e]| ensures ReadsTrue(log + [e], i) {
      assert (log + [e])[..i] == log[..i];
      assert log[..|log|] == log;
      if i < |log| { assert ReadsTrue(log, i); }
    }
  }

  /** An appended transition tells the truth exactly when the caller's copy is current. */
  lemma TransitionReadsTrue(s: Sys, p: nat, to: State)
    requires InStep(s) && s.announced && s.pending == map[] && Free(s, p) && s.copies[p].state != to
    ensures ReadsTrue(DoAppend(s, p, StateChanged(to, s.copies[p].state)).log, |s.log|) <==>
            s.copies[p].state == s.row.value.state
  {
    StateOfFields(s.log);
    assert (s.log + [StateChanged(to, s.copies[p].state)])[..|s.log|] == s.log;
  }

  lemma {:induction false} HistoryKeeps(s: Sys, steps: seq<Step>)
    requires InStep(s) && OrderlyRun(s, steps) && CurrentRun(s, steps)
    requires forall i :: 0 <= i < |s.log| ==> ReadsTrue(s.log, i)
    ensures forall i :: 0 <= i < |Run(s, steps).log| ==> ReadsTrue(Run(s, steps).log, i)
    decreases |steps|
  {
    if steps != [] {
      HistoryStep(s, steps[0]);
      OrderlyStep(s, steps[0]);
      HistoryKeeps(Apply(s, steps[0]), steps[1..]);
    }
  }

  lemma HistoryStep(s: Sys, step: Step)
    requires InStep(s) && Orderly(s, step) && Current(s, step)
    requires forall i :: 0 <= i < |s.log| ==> ReadsTrue(s.log, i)
    ensures forall i :: 0 <= i < |Apply(s, step).log| ==> ReadsTrue(Apply(s, step).log, i)
  {
    var after := Apply(s, step);
    if after.log != s.log {
      if step.Transition? { StateOfFields(s.log); }
      ReadsTrueAppend(s.log, after.log[|s.log|]);
      assert after.log == s.log + [after.log[|s.log|]];
    }
  }

  /** In a run without overlap or death whose callers re-read before they write, every transition in the log names
   *  the state that precedes it, and never one to itself. */
  lemma HistoryReadsTrue(steps: seq<Step>)
    requires OrderlyRun(EMPTY, steps) && CurrentRun(EMPTY, steps)
    ensures forall i :: 0 <= i < |Run(EMPTY, steps).log| ==> ReadsTrue(Run(EMPTY, steps).log, i)
  {
    HistoryKeeps(EMPTY, steps);
  }

  // ---------------------------------------------------------------- the calls are the steps, uninterrupted

  lemma TransitionIsTwoSteps(s: Sys, p: nat, to: State)
    requires Free(s, p) && s.row.Some? && s.copies[p].state != to
    ensures Apply(Apply(s, Transition(p, to)), Update(p))
         == s.(log := s.log + [StateChanged(to, s.copies[p].state)], row := Some(s.row.value.(state := to)),
               copies := s.copies[p := s.copies[p].(state := to)])
  {
    var appended := Apply(s, Transition(p, to));
    assert appended.pending - {p} == s.pending;
  }

  lemma HandoffIsTwoSteps(s: Sys, p: nat, receiver: string, work: string)
    requires Free(s, p) && s.row.Some?
    ensures Apply(Apply(s, HandOff(p, receiver, work)), Update(p))
         == s.(log := s.log + [HandedOff(receiver, work, s.copies[p].assignee)],
             row := Some(Fields(Submitted, receiver, Some(work))),
               copies := s.copies[p := Fields(Submitted, receiver, Some(work))])
  {
    var appended := Apply(s, HandOff(p, receiver, work));
    assert appended.pending - {p} == s.pending;
  }

  // ---------------------------------------------------------------- the calls, on the stored row and the caller's copy

  /** The object a caller holds of the row, which the calls keep honest. */
  class TaskRow {
    var fields: Fields

    constructor (fields: Fields)
      ensures this.fields == fields
    {
      this.fields := fields;
    }
  }

  class TaskStore {
    var log: seq<Event>
    var row: Option<Fields>

    constructor ()
      ensures log == [] && row == None
    {
      log, row := [], None;
    }

    ghost predicate Settled()
      reads this
    {
      row.Some? && RebuiltFields(log) == row
    }

    /** What a machine state has stored. */
    ghost predicate Shows(s: Sys)
      reads this
    {
      s.log == log && s.row == row
    }

    /** And what its writer `p` holds, owing nothing. */
    ghost predicate ShowsTo(s: Sys, p: nat, task: TaskRow)
      reads this, task
    {
      Shows(s) && Free(s, p) && s.copies[p] == task.fields
    }

    /** Insert, or find what the same cause already inserted. */
    method EnsureTask(fields: Fields) returns (task: TaskRow, created: bool)
      modifies this`row
      ensures fresh(task) && row == Some(task.fields)
      ensures created <==> old(row).None?
      ensures row == if created then Some(fields) else old(row)
      ensures forall s: Sys, p: nat :: old(Shows(s)) && p !in s.pending && s.announcer != Some(p) ==>
                var after := Apply(s, Ensure(p, fields));
                Shows(after) && p in after.copies && after.copies[p] == task.fields
                && (created <==> after.announcer == Some(p))
    {
      created := row.None?;
      if created { row := Some(fields); }
      task := new TaskRow(row.value);
    }

    method TaskCreatedEvent(task: TaskRow) returns (event: Event)
      modifies this`log
      ensures log == old(log) + [event] && event == Created(task.fields)
      ensures row == Some(task.fields) ==> Settled()
      ensures forall s: Sys, p: nat :: old(Shows(s)) && s.announcer == Some(p) && s.initial == Some(task.fields) ==>
                Shows(Apply(s, Announce(p)))
    {
      FieldsAppend(log, Created(task.fields));
      event := Created(task.fields);
      log := log + [event];
    }

    /** No event and no write when the copy is already there; else the event, then the state column alone, then the
     *  copy. A settled row stays settled whatever the copy says. */
    method TransitionTask(task: TaskRow, to: State) returns (event: Option<Event>)
      modifies this, task
      ensures event.None? <==> old(task.fields.state) == to
      ensures event.None? ==> log == old(log) && row == old(row) && task.fields == old(task.fields)
      ensures event.Some? ==>
                && event.value == StateChanged(to, old(task.fields.state)) && log == old(log) + [event.value]
                && row == (if old(row).Some? then Some(old(row).value.(state := to)) else None)
                && task.fields == old(task.fields).(state := to)
      ensures old(Settled()) ==> Settled()
      ensures old(Settled()) && event.Some? && old(task.fields.state) == old(row).value.state ==>
              ReadsTrue(log, |old(log)|)
      ensures event.Some? ==> forall s: Sys, p: nat :: old(ShowsTo(s, p, task)) && s.row.Some? ==>
                ShowsTo(Apply(Apply(s, Transition(p, to)), Update(p)), p, task)
    {
      if task.fields.state == to { return None; }
      FieldsAppend(log, StateChanged(to, task.fields.state));
      ghost var before := log;
      if RebuiltFields(log).Some? { StateOfFields(log); }
      var e := StateChanged(to, task.fields.state);
      log := log + [e];
      assert log[..|before|] == before;
      if row.Some? { row := Some(row.value.(state := to)); }
      task.fields := task.fields.(state := to);
      forall s: Sys, p: nat | old(ShowsTo(s, p, task)) && s.row.Some?
        ensures ShowsTo(Apply(Apply(s, Transition(p, to)), Update(p)), p, task)
      {
        TransitionIsTwoSteps(s, p, to);
      }
      return Some(e);
    }

    method HandoffTask(task: TaskRow, receiver: string, work: string) returns (event: Event)
      modifies this, task
      ensures event == HandedOff(receiver, work, old(task.fields.assignee)) && log == old(log) + [event]
      ensures row == if old(row).Some? then Some(Fields(Submitted, receiver, Some(work))) else None
      ensures task.fields == Fields(Submitted, receiver, Some(work))
      ensures old(Settled()) ==> Settled()
      ensures forall s: Sys, p: nat :: old(ShowsTo(s, p, task)) && s.row.Some? ==>
                ShowsTo(Apply(Apply(s, HandOff(p, receiver, work)), Update(p)), p, task)
    {
      FieldsAppend(log, HandedOff(receiver, work, task.fields.assignee));
      event := HandedOff(receiver, work, task.fields.assignee);
      log := log + [event];
      if row.Some? { row := Some(Fields(Submitted, receiver, Some(work))); }
      task.fields := Fields(Submitted, receiver, Some(work));
      forall s: Sys, p: nat | old(ShowsTo(s, p, task)) && s.row.Some?
        ensures ShowsTo(Apply(Apply(s, HandOff(p, receiver, work)), Update(p)), p, task)
      {
        HandoffIsTwoSteps(s, p, receiver, work);
      }
    }

    /** Events that change no state are passed over. */
    static method Rebuild(log: seq<Event>) returns (state: Option<State>)
      ensures state == Rebuilt(log)
    {
      state := None;
      for i := 0 to |log|
        invariant state == Rebuilt(log[..i])
      {
        assert log[..i + 1][..i] == log[..i];
        if StateOf(log[i]).Some? { state := StateOf(log[i]); }
      }
      assert log[..|log|] == log;
    }
  }
}

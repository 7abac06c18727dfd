/**
 * Where the floor of the rolling summary goes when several processes fold: apps/api/src/summary.ts. The newest row
 * is what turns read, so a summary that lands late can lower it, and can leave a room that no later fold helps.
 */
module Floors {
  import opened Prelude
  import opened RoomLog
  import opened Summaries
  import opened Convergence

  /** The newest summary covers most. */
  ghost predicate Leading(log: seq<Entry>) {
    forall i :: 0 <= i < |log| && log[i].event.RoomSummary? ==> log[i].event.through <= RoomWindowFloor(log)
  }

  // ---------------------------------------------------------------- what one write does to the floor

  function EndOfBatch(s: Sys, p: nat): nat
    requires p in s.runs && s.runs[p].Fetched? && s.runs[p].batch != []
  {
    s.runs[p].batch[|s.runs[p].batch| - 1].seqNo
  }

  lemma FloorIsTaken(log: seq<Entry>)
    requires RoomWindowFloor(log) > 0
    ensures HasSummaryAt(log, RoomWindowFloor(log))
  {
    var latest := LatestRoomSummary(log).value;
    var i :| 0 <= i < |log| && log[i] == latest;
  }

  lemma LeadingAfter(log: seq<Entry>, e: Entry)
    requires Leading(log) && e.event.RoomSummary? && e.event.through > 0 && !HasSummaryAt(log, e.event.through)
    ensures RoomWindowFloor(log + [e]) == e.event.through
    ensures Leading(log + [e]) <==> e.event.through > RoomWindowFloor(log)
  {
    LatestAfterAppend(log, e);
    var after := log + [e];
    assert after[|log|] == e;
    if e.event.through > RoomWindowFloor(log) {
      forall i | 0 <= i < |after| && after[i].event.RoomSummary? ensures after[i].event.through <= e.event.through {
        if i < |log| { assert after[i] == log[i]; }
      }
    } else {
      FloorIsTaken(log);
      var i :| 0 <= i < |log| && log[i].event.RoomSummary? && log[i].event.through == RoomWindowFloor(log);
      assert after[i] == log[i];
    }
  }

  lemma AppendMovesFloor(log: seq<Entry>, e: Entry)
    requires Leading(log) && e.event.RoomSummary? && e.event.through > 0
    ensures var after := AppendRoomSummary(log, e); var end := e.event.through;
      && (RoomWindowFloor(after) < RoomWindowFloor(log) <==> !HasSummaryAt(log, end) && end < RoomWindowFloor(log))
      && (Leading(after) <==> HasSummaryAt(log, end) || end > RoomWindowFloor(log))
  {
    if !HasSummaryAt(log, e.event.through) { LeadingAfter(log, e); }
  }

  lemma FoldedMovesFloor(log: seq<Entry>, prev: Option<Entry>, batch: seq<Entry>, seqNo: nat, text: string)
    requires Leading(log) && batch != [] && (prev.Some? ==> prev.value.event.RoomSummary?)
            && batch[|batch| - 1].seqNo > 0
    ensures var after := AppendRoomSummary(log, Folded(prev, batch, seqNo, text)); var end := batch[|batch| - 1].seqNo;
      && (RoomWindowFloor(after) < RoomWindowFloor(log) <==> !HasSummaryAt(log, end) && end < RoomWindowFloor(log))
      && (Leading(after) <==> HasSummaryAt(log, end) || end > RoomWindowFloor(log))
  {
    AppendMovesFloor(log, Folded(prev, batch, seqNo, text));
  }

  lemma EndIsPastZero(s: Sys, p: nat)
    requires Inv(s) && p in s.runs && s.runs[p].Fetched?
    ensures s.runs[p].batch != [] && EndOfBatch(s, p) > 0
    ensures s.runs[p].prev.Some? ==> s.runs[p].prev.value.event.RoomSummary?
  {
    assert PhaseHolds(s.log, s.runs[p]);
  }

  /** From a state whose newest summary covers most, whoever else is in the middle of a run: a write lowers the floor
   *  if and only if its batch ends below it at a point nobody covered; it keeps the newest summary in the lead if and
   *  only if it does not. Both can be read off before the insert. */
  lemma WriteMovesFloor(s: Sys, p: nat, gap: nat, text: string)
    requires Inv(s) && Leading(s.log) && p in s.runs && s.runs[p].Fetched?
    ensures s.runs[p].batch != [] && (s.runs[p].prev.Some? ==> s.runs[p].prev.value.event.RoomSummary?)
    ensures var end := EndOfBatch(s, p);
      var after := DoWrite(s, p, s.runs[p].prev, s.runs[p].batch, gap, text).log;
      && (RoomWindowFloor(after) < RoomWindowFloor(s.log) <==>
          !HasSummaryAt(s.log, end) && end < RoomWindowFloor(s.log))
      && (Leading(after) <==> HasSummaryAt(s.log, end) || end > RoomWindowFloor(s.log))
  {
    EndIsPastZero(s, p);
    FoldedMovesFloor(s.log, s.runs[p].prev, s.runs[p].batch, LastSeq(s.log) + 1 + gap, text);
  }

  // ---------------------------------------------------------------- over runs of any number of processes

  predicate Drops(s: Sys, step: Step)
    requires WellFormed(s)
  {
    && step.Write? && step.process in s.runs && s.runs[step.process].Fetched?
    && !HasSummaryAt(s.log, EndOfBatch(s, step.process)) && EndOfBatch(s, step.process) < RoomWindowFloor(s.log)
  }

  lemma PostLeads(log: seq<Entry>, e: Entry)
    requires Leading(log) && !e.event.RoomSummary?
    ensures Leading(log + [e])
  {
    LatestAfterAppend(log, e);
  }

  lemma LeadIsLostOnlyByDropping(s: Sys, step: Step)
    requires Inv(s) && Leading(s.log)
    ensures WellFormed(s) && (Leading(Apply(s, step).log) <==> !Drops(s, step))
  {
    InvIsWellFormed(s);
    match step
    case Append(gap, event) => if !event.RoomSummary? { PostLeads(s.log, Entry(LastSeq(s.log) + 1 + gap, event)); }
    case Write(p, gap, text) =>
      if p in s.runs && s.runs[p].Fetched? {
        WriteMovesFloor(s, p, gap, text);
        EndIsPastZero(s, p);
        if EndOfBatch(s, p) == RoomWindowFloor(s.log) { FloorIsTaken(s.log); }
      }
    case _ => assert Apply(s, step).log == s.log;
  }

  ghost predicate AlwaysLeading(s: Sys, steps: seq<Step>)
    requires WellFormed(s)
    decreases |steps|
  {
    WellFormedStepOf(s, steps);
    Leading(s.log) && (steps == [] || AlwaysLeading(Apply(s, steps[0]), steps[1..]))
  }

  ghost predicate NeverDrops(s: Sys, steps: seq<Step>)
    requires WellFormed(s)
    decreases |steps|
  {
    WellFormedStepOf(s, steps);
    steps == [] || (!Drops(s, steps[0]) && NeverDrops(Apply(s, steps[0]), steps[1..]))
  }

  lemma WellFormedStepOf(s: Sys, steps: seq<Step>)
    requires WellFormed(s)
    ensures steps != [] ==> WellFormed(Apply(s, steps[0]))
  {
    if steps != [] { WellFormedStep(s, steps[0]); }
  }

  lemma {:induction false} LeadsIffNeverDrops(s: Sys, steps: seq<Step>)
    requires Inv(s) && Leading(s.log)
    ensures WellFormed(s) && (AlwaysLeading(s, steps) <==> NeverDrops(s, steps))
    decreases |steps|
  {
    InvIsWellFormed(s);
    if steps != [] {
      LeadIsLostOnlyByDropping(s, steps[0]);
      StepKeeps(s, steps[0]);
      if !Drops(s, steps[0]) { LeadsIffNeverDrops(Apply(s, steps[0]), steps[1..]); }
    }
  }

  /** From an empty room, over every run of every number of processes: the newest summary covers most at every moment
   *  if and only if no run writes a batch that ends below the floor at a point nobody covered. */
  lemma FloorRisesIffNoLateWrite(steps: seq<Step>)
    ensures AlwaysLeading(EMPTY, steps) <==> NeverDrops(EMPTY, steps)
  {
    LeadsIffNeverDrops(EMPTY, steps);
  }

  // ---------------------------------------------------------------- one process

  predicate TakenBy(step: Step, p: nat) {
    match step
    case Append(_, _) => true
    case _ => step.process == p
  }

  /** The newest summary leads, and the one process's run, if any, has read it. */
  ghost predicate Led(s: Sys, p: nat) {
    && Leading(s.log) && s.runs.Keys <= {p}
    && (p in s.runs ==> s.runs[p].prev == LatestRoomSummary(s.log))
  }

  ghost predicate LeadInv(s: Sys, p: nat) {
    Inv(s) && Led(s, p)
  }

  lemma WriteLeads(s: Sys, p: nat, gap: nat, text: string)
    requires LeadInv(s, p) && p in s.runs && s.runs[p].Fetched?
    ensures Led(DoWrite(s, p, s.runs[p].prev, s.runs[p].batch, gap, text), p)
  {
    assert PhaseHolds(s.log, s.runs[p]);
    WriteMovesFloor(s, p, gap, text);
  }

  /** Between its statements a run only advances with the summary it read, or ends. */
  lemma RunsLead(s: Sys, p: nat, step: Step)
    requires WellFormed(s) && Led(s, p) && TakenBy(step, p) && !step.Append? && !step.Write?
    ensures Led(Apply(s, step), p)
  {
    assert Apply(s, step).log == s.log;
  }

  lemma LedStep(s: Sys, p: nat, step: Step)
    requires WellFormed(s) && LeadInv(s, p) && TakenBy(step, p)
    ensures Led(Apply(s, step), p)
  {
    match step
    case Append(gap, event) =>
      if !event.RoomSummary? {
        PostLeads(s.log, Entry(LastSeq(s.log) + 1 + gap, event));
        LatestAfterAppend(s.log, Entry(LastSeq(s.log) + 1 + gap, event));
      }
    case Write(_, gap, text) => if p in s.runs && s.runs[p].Fetched? { WriteLeads(s, p, gap, text); }
    case _ => RunsLead(s, p, step);
  }

  lemma {:induction false} LeadRun(s: Sys, p: nat, steps: seq<Step>)
    requires LeadInv(s, p) && forall i :: 0 <= i < |steps| ==> TakenBy(steps[i], p)
    ensures WellFormed(s) && LeadInv(Run(s, steps), p)
    decreases |steps|
  {
    if steps != [] {
      StepKeeps(s, steps[0]);
      LedStep(s, p, steps[0]);
      LeadRun(Apply(s, steps[0]), p, steps[1..]);
    }
  }

  /** While one process folds a room, whatever else is appended between its statements, the newest summary covers
   *  most. */
  lemma {:induction false} OneProcessLeads(steps: seq<Step>, p: nat)
    requires forall i :: 0 <= i < |steps| ==> TakenBy(steps[i], p)
    ensures LogHolds(Run(EMPTY, steps).log) && Leading(Run(EMPTY, steps).log)
  {
    LeadRun(EMPTY, p, steps);
  }

  lemma {:induction false} AboveIsFree(log: seq<Entry>, rest: seq<Entry>)
    requires Leading(log) && forall i :: 0 <= i < |rest| ==> rest[i].seqNo > RoomWindowFloor(log)
    ensures PointsFree(log, rest)
    decreases |rest|
  {
    if |rest| > LIMIT { AboveIsFree(log, rest[FoldCount(|rest|)..]); }
  }

  /** When the newest summary covers most, and so in every room one process folds, no fold is ever refused. */
  lemma LeadingConverges(log: seq<Entry>, runs: seq<(nat, string)>)
    requires LogHolds(log) && Leading(log) && |runs| >= FoldsNeeded(Tail(log))
    ensures Tail(MaintainedOver(log, runs)) <= LIMIT && |MaintainedOver(log, runs)| - |log| == FoldsNeeded(Tail(log))
  {
    MessagesCut(log, RoomWindowFloor(log));
    UpToBounds(Messages(log), RoomWindowFloor(log));
    AboveIsFree(log, Rest(log));
    MaintenanceConverges(log, runs);
  }

  // ---------------------------------------------------------------- one process, message after message

  /** A maintenance that folds leaves a leading log leading. */
  lemma FoldLeads(log: seq<Entry>, gap: nat, text: string)
    requires LogHolds(log) && Leading(log)
    ensures Leading(Maintained(log, gap, text))
    ensures Tail(Maintained(log, gap, text))
         == if Tail(log) > LIMIT then Tail(log) - FoldCount(Tail(log)) else Tail(log)
  {
    if Tail(log) > LIMIT {
      NextIs(log, gap, text);
      NextRestIs(log);
      EndIsFree(log, EndOf(Rest(log)));
      FoldProgress(log, gap, text);
      LeadingAfter(log, NextRow(log, gap, text));
    }
  }

  lemma EndIsFree(log: seq<Entry>, end: nat)
    requires Leading(log) && end > RoomWindowFloor(log)
    ensures !HasSummaryAt(log, end)
  {
  }

  /** In a leading room each message of which is followed by its maintenance, the tail a turn reads is at most 36 after
   *  every maintenance, and once at 24 never below. */
  lemma {:induction false} TailStaysInBand(log: seq<Entry>, rs: seq<Round>, gap: nat, text: string)
    requires LogHolds(log) && Leading(log) && Tail(log) <= LIMIT + 1
    ensures var after := Rounds(log, rs);
      && LogHolds(after) && Leading(after) && Tail(Maintained(after, gap, text)) <= LIMIT
      && (Tail(log) >= WINDOW ==> Tail(Maintained(after, gap, text)) >= WINDOW)
    decreases |rs|
  {
    if rs == [] {
      FoldLeads(log, gap, text);
    } else {
      var m := Maintained(log, rs[0].gap, rs[0].text);
      FoldLeads(log, rs[0].gap, rs[0].text);
      MaintainedHolds(log, rs[0].gap, rs[0].text);
      PostHolds(m, Posted(m, rs[0]));
      PostLeads(m, Posted(m, rs[0]));
      TailStaysInBand(PlayRound(log, rs[0]), rs[1..], gap, text);
    }
  }

  // ---------------------------------------------------------------- runs of messages

  const SAID := Message("", "")

  /** `n` messages numbered from `from` on. */
  function Said(from: nat, n: nat): (said: seq<Entry>)
    ensures |said| == n && forall i :: 0 <= i < n ==> said[i] == Entry(from + 1 + i, SAID)
  {
    seq(n, i requires 0 <= i < n => Entry(from + 1 + i, SAID))
  }

  /** A room of `n` messages and nothing else. */
  function Chat(n: nat): seq<Entry> {
    Said(0, n)
  }

  lemma SaidGrows(from: nat, n: nat)
    ensures Said(from, n + 1) == Said(from, n) + [Entry(from + n + 1, SAID)]
  {
  }

  lemma ChatGrows(n: nat)
    ensures Chat(n + 1) == Chat(n) + [Entry(n + 1, SAID)] && LastSeq(Chat(n)) == n
  {
  }

  lemma {:induction false} SaidAre(from: nat, n: nat)
    ensures Messages(Said(from, n)) == Said(from, n)
  {
    if n > 0 {
      SaidAre(from, n - 1);
      SaidGrows(from, n - 1);
      MessagesAppend(Said(from, n - 1), Entry(from + n, SAID));
    }
  }

  lemma NoSummaryAppend(log: seq<Entry>, e: Entry)
    requires !e.event.RoomSummary?
    ensures LatestRoomSummary(log + [e]) == LatestRoomSummary(log)
    ensures forall x :: HasSummaryAt(log + [e], x) <==> HasSummaryAt(log, x)
  {
    LatestAfterAppend(log, e);
    forall x { HasSummaryAppend(log, e, x); }
  }

  lemma SaidOneMore(log: seq<Entry>, from: nat, n: nat)
    ensures log + Said(from, n + 1) == log + Said(from, n) + [Entry(from + n + 1, SAID)]
  {
  }

  lemma {:induction false} SaidSummariseNothing(log: seq<Entry>, from: nat, n: nat)
    ensures LatestRoomSummary(log + Said(from, n)) == LatestRoomSummary(log)
    ensures forall x :: HasSummaryAt(log + Said(from, n), x) <==> HasSummaryAt(log, x)
    decreases n
  {
    if n == 0 {
      assert log + Said(from, 0) == log;
    } else {
      SaidSummariseNothing(log, from, n - 1);
      SaidOneMore(log, from, n - 1);
      NoSummaryAppend(log + Said(from, n - 1), Entry(from + n, SAID));
    }
  }

  lemma ChatIs(n: nat)
    ensures Messages(Chat(n)) == Chat(n) && LatestRoomSummary(Chat(n)) == None
  {
    SaidAre(0, n);
    SaidSummariseNothing([], 0, n);
    assert [] + Chat(n) == Chat(n);
  }

  lemma ChatPrefix(n: nat, k: nat)
    requires k <= n
    ensures Chat(n)[..k] == Chat(k)
  {
  }

  lemma ChatCut(n: nat, k: nat)
    requires k <= n
    ensures Messages(After(Chat(n), k)) == Chat(n)[k..]
  {
    ChatIs(n);
    CutAt(Chat(n), k, k);
    MessagesCut(Chat(n), k);
  }

  function Posts(n: nat): seq<Step> {
    if n == 0 then [] else Posts(n - 1) + [Append(0, SAID)]
  }

  lemma ChatThenSaid(n: nat, m: nat)
    ensures Chat(n) + Said(LastSeq(Chat(n)), m) == Chat(n + m)
  {
    ChatGrows(n);
  }

  lemma LastOfSaid(log: seq<Entry>, n: nat)
    ensures LastSeq(log + Said(LastSeq(log), n)) == LastSeq(log) + n
  {
  }

  lemma {:induction false} PostsRun(log: seq<Entry>, n: nat, runs: map<nat, Phase>)
    requires WellFormed(Sys(log, runs))
    ensures Run(Sys(log, runs), Posts(n)) == Sys(log + Said(LastSeq(log), n), runs)
  {
    if n == 0 {
      assert log + Said(LastSeq(log), 0) == log;
    } else {
      PostsRun(log, n - 1, runs);
      RunConcat(Sys(log, runs), Posts(n - 1), [Append(0, SAID)]);
      RunOne(Sys(log + Said(LastSeq(log), n - 1), runs), Append(0, SAID));
      LastOfSaid(log, n - 1);
      SaidOneMore(log, LastSeq(log), n - 1);
    }
  }

  lemma ChatTail(n: nat)
    ensures RoomWindowFloor(Chat(n)) == 0 && Rest(Chat(n)) == Chat(n) && Tail(Chat(n)) == n
  {
    ChatIs(n);
    ChatCut(n, 0);
  }

  lemma ChatBatch(n: nat)
    requires LIMIT < n <= WINDOW + MAX_FOLD
    ensures Tail(Chat(n)) == n
    ensures MessageBatchAfter(Chat(n), RoomWindowFloor(Chat(n)), FoldCount(Tail(Chat(n)))) == Chat(n - WINDOW)
  {
    ChatTail(n);
    ChatPrefix(n, n - WINDOW);
  }

  /** A process that reads a room of `n` messages, at most 64, fetches all but the newest 24. */
  lemma ReadsAllButWindow(n: nat, p: nat, runs: map<nat, Phase>)
    requires LIMIT < n <= WINDOW + MAX_FOLD && p !in runs && WellFormed(Sys(Chat(n), runs))
    ensures Run(Sys(Chat(n), runs), Reading(p)) == Sys(Chat(n), runs[p := Fetched(None, Chat(n - WINDOW))])
  {
    ChatIs(n);
    ChatTail(n);
    ChatBatch(n);
    ReadingFetches(Sys(Chat(n), runs), p);
  }

  lemma ChatGoesOn(n: nat, m: nat, runs: map<nat, Phase>)
    requires WellFormed(Sys(Chat(n), runs))
    ensures WellFormed(Sys(Chat(n + m), runs)) && Run(Sys(Chat(n), runs), Posts(m)) == Sys(Chat(n + m), runs)
  {
    PostsRun(Chat(n), m, runs);
    ChatThenSaid(n, m);
  }

  lemma PostsThenReads(n: nat, m: nat, p: nat, runs: map<nat, Phase>)
    requires LIMIT < n + m <= WINDOW + MAX_FOLD && p !in runs && WellFormed(Sys(Chat(n), runs))
    ensures Run(Sys(Chat(n), runs), Posts(m) + Reading(p))
         == Sys(Chat(n + m), runs[p := Fetched(None, Chat(n + m - WINDOW))])
  {
    RunConcat(Sys(Chat(n), runs), Posts(m), Reading(p));
    ChatGoesOn(n, m, runs);
    ReadsAllButWindow(n + m, p, runs);
  }

  // ---------------------------------------------------------------- two processes: the floor drops

  /** One process fetches at `m` messages, another at `n`. */
  function BothReading(m: nat, n: nat): seq<Step>
    requires m <= n
  {
    Posts(m) + Reading(0) + (Posts(n - m) + Reading(1))
  }

  function Summary(covered: nat, seqNo: nat, text: string): Entry {
    Entry(seqNo, RoomSummary(covered, covered, text, Chat(covered)))
  }

  /** Both within one batch of the start. */
  predicate InTurn(m: nat, n: nat) {
    LIMIT < m < n <= WINDOW + MAX_FOLD
  }

  function OneRead(m: nat): map<nat, Phase>
    requires m > WINDOW
  {
    map[0 := Fetched(None, Chat(m - WINDOW))]
  }

  function TwoRead(m: nat, n: nat): map<nat, Phase>
    requires m > WINDOW && n > WINDOW
  {
    OneRead(m)[1 := Fetched(None, Chat(n - WINDOW))]
  }

  lemma FirstReads(m: nat)
    requires LIMIT < m <= WINDOW + MAX_FOLD
    ensures Run(EMPTY, Posts(m) + Reading(0)) == Sys(Chat(m), OneRead(m))
  {
    var none: map<nat, Phase> := map[];
    assert EMPTY == Sys(Chat(0), none);
    PostsThenReads(0, m, 0, none);
    assert none[0 := Fetched(None, Chat(m - WINDOW))] == OneRead(m);
  }

  lemma SecondReads(m: nat, n: nat)
    requires InTurn(m, n)
    ensures WellFormed(Sys(Chat(m), OneRead(m)))
    ensures Run(Sys(Chat(m), OneRead(m)), Posts(n - m) + Reading(1)) == Sys(Chat(n), TwoRead(m, n))
  {
    PostsThenReads(m, n - m, 1, OneRead(m));
  }

  lemma BothRead(m: nat, n: nat)
    requires InTurn(m, n)
    ensures Run(EMPTY, BothReading(m, n)) == Sys(Chat(n), TwoRead(m, n))
  {
    RunConcat(EMPTY, Posts(m) + Reading(0), Posts(n - m) + Reading(1));
    FirstReads(m);
    SecondReads(m, n);
  }

  lemma WritesChat(s: Sys, p: nat, covered: nat, text: string)
    requires WellFormed(s) && covered > 0 && p in s.runs && s.runs[p] == Fetched(None, Chat(covered))
    requires !HasSummaryAt(s.log, covered)
    ensures Run(s, [Write(p, 0, text)]) == Sys(s.log + [Summary(covered, LastSeq(s.log) + 1, text)], s.runs - {p})
  {
    RunOne(s, Write(p, 0, text));
    assert [] + Chat(covered) == Chat(covered);
  }

  /** The second process has written. */
  function Ahead(n: nat, text: string): seq<Entry>
    requires n > WINDOW
  {
    Chat(n) + [Summary(n - WINDOW, n + 1, text)]
  }

  /** And then the first. */
  function Behind(m: nat, n: nat, text: string): seq<Entry>
    requires InTurn(m, n)
  {
    Ahead(n, text) + [Summary(m - WINDOW, n + 2, text)]
  }

  lemma FirstWrites(m: nat, n: nat, text: string)
    requires InTurn(m, n)
    ensures WellFormed(Sys(Chat(n), TwoRead(m, n)))
    ensures Run(Sys(Chat(n), TwoRead(m, n)), [Write(1, 0, text)]) == Sys(Ahead(n, text), OneRead(m))
  {
    ChatGrows(n);
    WritesChat(Sys(Chat(n), TwoRead(m, n)), 1, n - WINDOW, text);
    assert TwoRead(m, n) - {1} == OneRead(m);
  }

  lemma SecondWrites(m: nat, n: nat, text: string)
    requires InTurn(m, n)
    ensures WellFormed(Sys(Ahead(n, text), OneRead(m)))
    ensures Run(Sys(Ahead(n, text), OneRead(m)), [Write(0, 0, text)]) == Sys(Behind(m, n, text), map[])
  {
    AheadTaken(n, text);
    WritesChat(Sys(Ahead(n, text), OneRead(m)), 0, m - WINDOW, text);
    assert OneRead(m) - {0} == map[];
  }

  lemma BothWrite(m: nat, n: nat, text: string)
    requires InTurn(m, n)
    ensures var s := Sys(Chat(n), TwoRead(m, n));
      && WellFormed(s)
      && Run(s, [Write(1, 0, text)]).log == Ahead(n, text)
      && Run(s, [Write(1, 0, text)] + [Write(0, 0, text)]) == Sys(Behind(m, n, text), map[])
  {
    FirstWrites(m, n, text);
    SecondWrites(m, n, text);
    RunConcat(Sys(Chat(n), TwoRead(m, n)), [Write(1, 0, text)], [Write(0, 0, text)]);
  }

  lemma AheadTaken(n: nat, text: string)
    requires n > WINDOW
    ensures forall x :: HasSummaryAt(Ahead(n, text), x) <==> x == n - WINDOW
  {
    forall x { HasSummaryAppend(Chat(n), Summary(n - WINDOW, n + 1, text), x); }
  }

  lemma BehindTaken(m: nat, n: nat, text: string)
    requires InTurn(m, n)
    ensures forall x :: HasSummaryAt(Behind(m, n, text), x) <==> x == n - WINDOW || x == m - WINDOW
  {
    AheadTaken(n, text);
    forall x { HasSummaryAppend(Ahead(n, text), Summary(m - WINDOW, n + 2, text), x); }
  }

  lemma AheadRest(n: nat, k: nat, text: string)
    requires n > WINDOW && k <= n
    ensures Messages(After(Ahead(n, text), k)) == Chat(n)[k..]
  {
    CutAppend(Chat(n), Summary(n - WINDOW, n + 1, text), k);
    MessagesAppend(After(Chat(n), k), Summary(n - WINDOW, n + 1, text));
    ChatCut(n, k);
  }

  lemma SummaryLands(log: seq<Entry>, covered: nat, seqNo: nat, text: string, rest: seq<Entry>)
    requires covered < seqNo && Messages(After(log, covered)) == rest
    ensures RoomWindowFloor(log + [Summary(covered, seqNo, text)]) == covered
    ensures Rest(log + [Summary(covered, seqNo, text)]) == rest
  {
    RestAfterSummary(log, Summary(covered, seqNo, text));
  }

  lemma BehindIs(m: nat, n: nat, text: string)
    requires InTurn(m, n)
    ensures RoomWindowFloor(Behind(m, n, text)) == m - WINDOW && Rest(Behind(m, n, text)) == Chat(n)[m - WINDOW..]
  {
    var ahead, k := Ahead(n, text), m - WINDOW;
    AheadRest(n, k, text);
    var rest := Messages(After(ahead, k));
    SummaryLands(ahead, k, n + 2, text, rest);
  }

  lemma BehindRuns(m: nat, n: nat, text: string)
    requires InTurn(m, n)
    ensures LogHolds(Behind(m, n, text))
    ensures Run(EMPTY, BothReading(m, n) + ([Write(1, 0, text)] + [Write(0, 0, text)]))
         == Sys(Behind(m, n, text), map[])
  {
    var writes := [Write(1, 0, text)] + [Write(0, 0, text)];
    RunConcat(EMPTY, BothReading(m, n), writes);
    BothRead(m, n);
    BothWrite(m, n, text);
    EverySummaryIsFaithful(BothReading(m, n) + writes);
  }

  /** The next message moves the batch's end past the other summary, so its maintenance folds. */
  lemma NextMessageFrees(m: nat, n: nat, text: string, e: Entry, gap: nat)
    requires InTurn(m, n) && m + TRIGGER_BATCH < n && e.event.Message? && e.seqNo > n + 2
    ensures var after := Maintained(Behind(m, n, text) + [e], gap, text);
      RoomWindowFloor(after) == n - WINDOW + 1 && Tail(after) == WINDOW
  {
    var log := Behind(m, n, text);
    BehindRuns(m, n, text);
    BehindIs(m, n, text);
    BehindTaken(m, n, text);
    FreedBy(log, e, n - WINDOW + 1, n - m, gap, text);
  }

  lemma FreedBy(log: seq<Entry>, e: Entry, end: nat, at: nat, gap: nat, text: string)
    requires LogHolds(log) && e.event.Message? && e.seqNo > LastSeq(log) && TRIGGER_BATCH < at < MAX_FOLD
    requires |Rest(log)| == at + WINDOW && Rest(log)[at].seqNo == end && !HasSummaryAt(log, end)
    ensures var after := Maintained(log + [e], gap, text); RoomWindowFloor(after) == end && Tail(after) == WINDOW
  {
    PostHolds(log, e);
    HasSummaryAppend(log, e, end);
    assert Rest(log + [e])[at] == Rest(log)[at];
    FoldGrows(log + [e], gap, text);
  }

  /** In a room of up to 64 messages, from an empty one: the floor drops from `n - 24` to `m - 24`, and with the tail
   *  past 36 again every fold is refused while the room stays quiet, its batch ending where the other summary stands;
   *  the maintenance of the next message folds, and leaves a tail of 24. */
  lemma TwoProcessesDropTheFloor(m: nat, n: nat, text: string, runs: seq<(nat, string)>, e: Entry, gap: nat)
    requires InTurn(m, n) && e.event.Message? && e.seqNo > n + 2
    ensures var ahead := Run(EMPTY, BothReading(m, n) + [Write(1, 0, text)]).log;
      var behind := Run(EMPTY, BothReading(m, n) + ([Write(1, 0, text)] + [Write(0, 0, text)])).log;
      && RoomWindowFloor(ahead) == n - WINDOW && RoomWindowFloor(behind) == m - WINDOW
      && LastSeq(behind) == n + 2 && Tail(behind) == n - m + WINDOW
      && (Tail(behind) > LIMIT ==>
            && MaintainedOver(behind, runs) == behind
            && Tail(Maintained(behind + [e], gap, text)) == WINDOW)
  {
    RunConcat(EMPTY, BothReading(m, n), [Write(1, 0, text)]);
    BothRead(m, n);
    BothWrite(m, n, text);
    LatestAfterAppend(Chat(n), Summary(n - WINDOW, n + 1, text));
    BehindRuns(m, n, text);
    BehindIs(m, n, text);
    BehindTaken(m, n, text);
    if n - m > TRIGGER_BATCH {
      assert EndOf(Chat(n)[m - WINDOW..]) == n - WINDOW;
      RefusalIsForGood(Behind(m, n, text), runs);
      NextMessageFrees(m, n, text, e, gap);
    }
  }

  // ---------------------------------------------------------------- two processes: the room never folds again

  /** Process 0 fetches at 37 messages, process 1 at 38, and writes; after 39 messages more process 1 folds again; then
   *  process 0 writes what it fetched. */
  function Blocking(text: string): seq<Step> {
    BothReading(37, 38)
    + ([Write(1, 0, text)] + (Posts(39) + (Reading(1) + ([Write(1, 0, text)] + [Write(0, 0, text)]))))
  }

  /** 38 messages, the summary of 14, 39 messages. */
  function Grown(text: string): seq<Entry> {
    Ahead(38, text) + Said(39, 39)
  }

  lemma GrownRest(text: string, k: nat)
    requires k <= 38
    ensures Messages(After(Grown(text), k)) == Chat(38)[k..] + Said(39, 39)
    ensures LatestRoomSummary(Grown(text)) == Some(Summary(14, 39, text)) && LastSeq(Grown(text)) == 78
    ensures forall x :: HasSummaryAt(Grown(text), x) <==> x == 14
  {
    AfterConcat(Ahead(38, text), Said(39, 39), k);
    CutAt(Said(39, 39), k, 0);
    MessagesConcat(After(Ahead(38, text), k), Said(39, 39));
    AheadRest(38, k, text);
    SaidAre(39, 39);
    SaidSummariseNothing(Ahead(38, text), 39, 39);
    LatestAfterAppend(Chat(38), Summary(14, 39, text));
    AheadTaken(38, text);
  }

  /** The second summary of process 1, through message 54, the fortieth past the thirteenth. */
  function Second(text: string): Entry {
    Folded(Some(Summary(14, 39, text)), (Chat(38)[14..] + Said(39, 39))[..39], 79, text)
  }

  lemma SecondEnds(text: string)
    ensures Second(text).event.through == 54
  {
  }

  lemma SecondFold(text: string, runs: map<nat, Phase>)
    requires 1 !in runs && WellFormed(Sys(Grown(text), runs))
    ensures Run(Sys(Grown(text), runs), Reading(1) + [Write(1, 0, text)])
         == Sys(Grown(text) + [Second(text)], runs)
  {
    UninterruptedRunMaintains(Sys(Grown(text), runs), 1, 0, text);
    GrownRest(text, 14);
    SecondEnds(text);
    NextIs(Grown(text), 0, text);
  }

  function Lost(text: string): seq<Entry> {
    Grown(text) + [Second(text)] + [Summary(13, 80, text)]
  }

  lemma LateWrite(text: string)
    ensures WellFormed(Sys(Grown(text) + [Second(text)], OneRead(37)))
    ensures Run(Sys(Grown(text) + [Second(text)], OneRead(37)), [Write(0, 0, text)]) == Sys(Lost(text), map[])
  {
    GrownRest(text, 14);
    SecondEnds(text);
    HasSummaryAppend(Grown(text), Second(text), 13);
    WritesChat(Sys(Grown(text) + [Second(text)], OneRead(37)), 0, 13, text);
    assert OneRead(37) - {0} == map[];
  }

  lemma BlockingRuns(text: string)
    ensures Run(EMPTY, Blocking(text)) == Sys(Lost(text), map[])
  {
    var last := [Write(0, 0, text)];
    var fold := Reading(1) + ([Write(1, 0, text)] + last);
    assert fold == (Reading(1) + [Write(1, 0, text)]) + last;
    RunConcat(EMPTY, BothReading(37, 38), [Write(1, 0, text)] + (Posts(39) + fold));
    BothRead(37, 38);
    FirstWrites(37, 38, text);
    RunConcat(Sys(Chat(38), TwoRead(37, 38)), [Write(1, 0, text)], Posts(39) + fold);
    RunConcat(Sys(Ahead(38, text), OneRead(37)), Posts(39), fold);
    PostsRun(Ahead(38, text), 39, OneRead(37));
    RunConcat(Sys(Grown(text), OneRead(37)), Reading(1) + [Write(1, 0, text)], last);
    SecondFold(text, OneRead(37));
    LateWrite(text);
  }

  lemma LostRest(text: string)
    ensures RoomWindowFloor(Lost(text)) == 13 && Rest(Lost(text)) == Chat(38)[13..] + Said(39, 39)
    ensures HasSummaryAt(Lost(text), 54)
  {
    var log := Grown(text) + [Second(text)];
    GrownRest(text, 13);
    SecondEnds(text);
    CutAppend(Grown(text), Second(text), 13);
    MessagesAppend(After(Grown(text), 13), Second(text));
    SummaryLands(log, 13, 80, text, Chat(38)[13..] + Said(39, 39));
    HasSummaryAppend(Grown(text), Second(text), 54);
    HasSummaryAppend(log, Summary(13, 80, text), 54);
  }

  lemma LostIsBlocked(text: string)
    ensures Tail(Lost(text)) == WINDOW + MAX_FOLD && Blocked(Lost(text))
  {
    LostRest(text);
    var rest := Chat(38)[13..] + Said(39, 39);
    assert |rest| == WINDOW + MAX_FOLD && rest[MAX_FOLD - 1].seqNo == 54;
  }

  /** So a room can be lost: this run from an empty one leaves the floor at 13 with 64 messages past it, nobody at
   *  work, and no continuation, whatever is posted and whoever folds, ever brings another summary. */
  lemma {:induction false} TwoProcessesBlockTheRoom(text: string)
    ensures var s := Run(EMPTY, Blocking(text));
      && s.runs == map[] && RoomWindowFloor(s.log) == 13 && Tail(s.log) == WINDOW + MAX_FOLD
      && WellFormed(s) && forall steps :: LatestRoomSummary(Run(s, steps).log) == LatestRoomSummary(s.log)
  {
    EverySummaryIsFaithful(Blocking(text));
    BlockingRuns(text);
    LostRest(text);
    LostIsBlocked(text);
    NeverFoldsAgainIffBlocked(Lost(text));
  }
}

/**
 * The rolling summary: apps/api/src/summary.ts, with the common-ground read of apps/api/src/assembly.ts. Each
 * statement of a maintenance run is one step, so runs of several processes interleave; text and cost of a summary
 * are the model's.
 */
module Summaries {
  import opened Prelude
  import opened RoomLog

  const WINDOW: nat := 24
  const TRIGGER_BATCH: nat := 12
  const MAX_FOLD: nat := 40

  function Floor(prev: Option<Entry>): nat
    requires prev.Some? ==> prev.value.event.RoomSummary?
  {
    if prev.None? then 0 else prev.value.event.through
  }

  function FedBy(prev: Option<Entry>): seq<Entry>
    requires prev.Some? ==> prev.value.event.RoomSummary?
  {
    if prev.None? then [] else prev.value.event.fed
  }

  function CountOf(prev: Option<Entry>): nat
    requires prev.Some? ==> prev.value.event.RoomSummary?
  {
    if prev.None? then 0 else prev.value.event.count
  }

  function FoldCount(tail: nat): nat
    requires tail > WINDOW
  {
    Min(tail - WINDOW, MAX_FOLD)
  }

  /** The row a run appends for the batch it folded into `prev`. */
  function Folded(prev: Option<Entry>, batch: seq<Entry>, seqNo: nat, text: string): Entry
    requires batch != [] && (prev.Some? ==> prev.value.event.RoomSummary?)
  {
    Entry(seqNo, RoomSummary(batch[|batch| - 1].seqNo, CountOf(prev) + |batch|, text, FedBy(prev) + batch))
  }

  function AppendRoomSummary(log: seq<Entry>, e: Entry): seq<Entry>
    requires e.event.RoomSummary?
  {
    if HasSummaryAt(log, e.event.through) then log else log + [e]
  }

  // ---------------------------------------------------------------- runs of several processes

  /** How far a process's run has come: it holds what it read, not what is there now. */
  datatype Phase =
    | Read(prev: Option<Entry>)
    | Counted(prev: Option<Entry>, fold: nat)
    | Fetched(prev: Option<Entry>, batch: seq<Entry>)

  datatype Sys = Sys(log: seq<Entry>, runs: map<nat, Phase>)

  const EMPTY := Sys([], map[])

  datatype Step =
    | Append(gap: nat, event: Event)
    | Begin(process: nat)
    | CountTail(process: nat)
    | FetchBatch(process: nat)
    | Write(process: nat, gap: nat, text: string)
    | GiveUp(process: nat)

  function DoCount(s: Sys, p: nat, prev: Option<Entry>): Sys
    requires prev.Some? ==> prev.value.event.RoomSummary?
  {
    var tail := |Messages(After(s.log, Floor(prev)))|;
    if tail <= WINDOW + TRIGGER_BATCH then s.(runs := s.runs - {p})
    else s.(runs := s.runs[p := Counted(prev, FoldCount(tail))])
  }

  function DoFetch(s: Sys, p: nat, prev: Option<Entry>, fold: nat): Sys
    requires prev.Some? ==> prev.value.event.RoomSummary?
  {
    var batch := MessageBatchAfter(s.log, Floor(prev), fold);
    if batch == [] then s.(runs := s.runs - {p}) else s.(runs := s.runs[p := Fetched(prev, batch)])
  }

  function DoWrite(s: Sys, p: nat, prev: Option<Entry>, batch: seq<Entry>, gap: nat, text: string): Sys
    requires batch != [] && (prev.Some? ==> prev.value.event.RoomSummary?)
  {
    Sys(AppendRoomSummary(s.log, Folded(prev, batch, LastSeq(s.log) + 1 + gap, text)), s.runs - {p})
  }

  predicate WellFormed(s: Sys) {
    forall p :: p in s.runs ==> WellFormedPhase(s.runs[p])
  }

  function Apply(s: Sys, step: Step): Sys
    requires WellFormed(s)
  {
    match step
    case Append(gap, event) =>
      if event.RoomSummary? then s else s.(log := s.log + [Entry(LastSeq(s.log) + 1 + gap, event)])
    case Begin(p) =>
      // One run per room and process: the `summarising` set.
      if p in s.runs then s else s.(runs := s.runs[p := Read(LatestRoomSummary(s.log))])
    case CountTail(p) => if p in s.runs && s.runs[p].Read? then DoCount(s, p, s.runs[p].prev) else s
    case FetchBatch(p) =>
      if p in s.runs && s.runs[p].Counted? then DoFetch(s, p, s.runs[p].prev, s.runs[p].fold) else s
    case Write(p, gap, text) =>
      if p in s.runs && s.runs[p].Fetched? then DoWrite(s, p, s.runs[p].prev, s.runs[p].batch, gap, text) else s
    case GiveUp(p) => s.(runs := s.runs - {p})
  }

  // ---------------------------------------------------------------- what every interleaving keeps

  /** A summary was made from exactly the messages it says it covers, each once and in order, and counts them. */
  ghost predicate Faithful(log: seq<Entry>, e: Entry) {
    e.event.RoomSummary? ==>
      && e.event.through < e.seqNo <= LastSeq(log)
      && e.event.fed == Messages(UpTo(log, e.event.through))
      && e.event.count == |e.event.fed|
  }

  ghost predicate LogHolds(log: seq<Entry>) {
    && Sorted(log)
    && (forall i {:trigger Faithful(log, log[i])} :: 0 <= i < |log| ==> Faithful(log, log[i]))
    && (forall i, j :: 0 <= i < j < |log| && log[i].event.RoomSummary? && log[j].event.RoomSummary? ==>
          log[i].event.through != log[j].event.through)
  }

  ghost predicate Known(log: seq<Entry>, prev: Option<Entry>) {
    prev.Some? ==> prev.value in log && prev.value.event.RoomSummary?
  }

  /** The batch is what lies between the summary read and the batch's own last message. */
  ghost predicate BatchHolds(log: seq<Entry>, prev: Option<Entry>, batch: seq<Entry>)
    requires prev.Some? ==> prev.value.event.RoomSummary?
  {
    && batch != [] && Floor(prev) < batch[|batch| - 1].seqNo <= LastSeq(log)
    && Messages(UpTo(log, batch[|batch| - 1].seqNo)) == Messages(UpTo(log, Floor(prev))) + batch
  }

  ghost predicate PhaseHolds(log: seq<Entry>, phase: Phase) {
    && Known(log, phase.prev)
    && (phase.Counted? ==> phase.fold >= 1)
    && (phase.Fetched? ==> BatchHolds(log, phase.prev, phase.batch))
  }

  ghost predicate RunsHold(log: seq<Entry>, runs: map<nat, Phase>) {
    forall p :: p in runs ==> PhaseHolds(log, runs[p])
  }

  ghost predicate Inv(s: Sys) {
    LogHolds(s.log) && RunsHold(s.log, s.runs)
  }

  function Run(s: Sys, steps: seq<Step>): Sys
    requires WellFormed(s)
    decreases |steps|
  {
    if steps == [] then s
    else
      WellFormedStep(s, steps[0]);
      Run(Apply(s, steps[0]), steps[1..])
  }

  predicate WellFormedPhase(phase: Phase) {
    && (phase.prev.Some? ==> phase.prev.value.event.RoomSummary?)
    && (phase.Fetched? ==> phase.batch != [])
  }

  lemma WellFormedSet(s: Sys, p: nat, phase: Phase)
    requires WellFormed(s) && WellFormedPhase(phase)
    ensures WellFormed(s.(runs := s.runs[p := phase]))
  {
  }

  lemma WellFormedRuns(s: Sys, after: Sys)
    requires WellFormed(s) && forall p :: p in after.runs ==> p in s.runs && after.runs[p] == s.runs[p]
    ensures WellFormed(after)
  {
  }

  lemma WellFormedCount(s: Sys, p: nat)
    requires WellFormed(s) && p in s.runs
    ensures WellFormed(DoCount(s, p, s.runs[p].prev))
  {
    var prev := s.runs[p].prev;
    var tail := |Messages(After(s.log, Floor(prev)))|;
    if tail > WINDOW + TRIGGER_BATCH { WellFormedSet(s, p, Counted(prev, FoldCount(tail))); }
  }

  lemma WellFormedFetch(s: Sys, p: nat)
    requires WellFormed(s) && p in s.runs && s.runs[p].Counted?
    ensures WellFormed(DoFetch(s, p, s.runs[p].prev, s.runs[p].fold))
  {
    var batch := MessageBatchAfter(s.log, Floor(s.runs[p].prev), s.runs[p].fold);
    if batch != [] { WellFormedSet(s, p, Fetched(s.runs[p].prev, batch)); }
  }

  lemma WellFormedStep(s: Sys, step: Step)
    requires WellFormed(s)
    ensures WellFormed(Apply(s, step))
  {
    match step
    case Begin(p) => if p !in s.runs { WellFormedSet(s, p, Read(LatestRoomSummary(s.log))); }
    case CountTail(p) => if p in s.runs && s.runs[p].Read? { WellFormedCount(s, p); }
    case FetchBatch(p) => if p in s.runs && s.runs[p].Counted? { WellFormedFetch(s, p); }
    case _ => WellFormedRuns(s, Apply(s, step));
  }

  lemma SummaryInLog(log: seq<Entry>, prev: Option<Entry>)
    requires LogHolds(log) && Known(log, prev)
    ensures Floor(prev) <= LastSeq(log)
    ensures FedBy(prev) == Messages(UpTo(log, Floor(prev))) && CountOf(prev) == |FedBy(prev)|
  {
    if prev.Some? {
      var i :| 0 <= i < |log| && log[i] == prev.value;
      assert Faithful(log, log[i]);
    } else {
      NothingAtZero(log);
    }
  }

  lemma {:induction false} NothingAtZero(log: seq<Entry>)
    requires Sorted(log)
    ensures UpTo(log, 0) == []
  {
    if log != [] { NothingAtZero(log[..|log| - 1]); }
  }

  lemma AppendFaithful(log: seq<Entry>, e: Entry, x: Entry)
    requires Faithful(log, x) && e.seqNo > LastSeq(log)
    ensures Faithful(log + [e], x)
  {
    if x.event.RoomSummary? { CutAppend(log, e, x.event.through); }
  }

  lemma AppendSorted(log: seq<Entry>, e: Entry)
    requires Sorted(log) && e.seqNo > LastSeq(log)
    ensures Sorted(log + [e])
  {
    LastIsLargest(log);
  }

  lemma AppendPhase(log: seq<Entry>, e: Entry, phase: Phase)
    requires LogHolds(log) && PhaseHolds(log, phase) && e.seqNo > LastSeq(log)
    ensures PhaseHolds(log + [e], phase)
  {
    SummaryInLog(log, phase.prev);
    CutAppend(log, e, Floor(phase.prev));
    if phase.Fetched? { CutAppend(log, e, phase.batch[|phase.batch| - 1].seqNo); }
  }

  lemma AppendKeeps(log: seq<Entry>, e: Entry)
    requires LogHolds(log) && e.seqNo > LastSeq(log) && Faithful(log + [e], e)
    requires e.event.RoomSummary? ==> !HasSummaryAt(log, e.event.through)
    ensures LogHolds(log + [e])
  {
    AppendSorted(log, e);
    forall i | 0 <= i < |log| ensures Faithful(log + [e], log[i]) { AppendFaithful(log, e, log[i]); }
  }

  /** The new summary is faithful because the one it extends was and the batch is what lies between. */
  lemma FoldIsFaithful(log: seq<Entry>, prev: Option<Entry>, batch: seq<Entry>, seqNo: nat, text: string)
    requires LogHolds(log) && Known(log, prev) && BatchHolds(log, prev, batch) && seqNo > LastSeq(log)
    ensures Faithful(log + [Folded(prev, batch, seqNo, text)], Folded(prev, batch, seqNo, text))
  {
    SummaryInLog(log, prev);
    CutAppend(log, Folded(prev, batch, seqNo, text), batch[|batch| - 1].seqNo);
  }

  lemma FetchHolds(log: seq<Entry>, prev: Option<Entry>, fold: nat)
    requires LogHolds(log) && Known(log, prev) && fold >= 1 && MessageBatchAfter(log, Floor(prev), fold) != []
    ensures BatchHolds(log, prev, MessageBatchAfter(log, Floor(prev), fold))
  {
    BatchAdvances(log, Floor(prev), fold);
  }

  lemma RunsAppend(log: seq<Entry>, runs: map<nat, Phase>, e: Entry)
    requires LogHolds(log) && RunsHold(log, runs) && e.seqNo > LastSeq(log)
    ensures RunsHold(log + [e], runs)
  {
    forall q | q in runs ensures PhaseHolds(log + [e], runs[q]) { AppendPhase(log, e, runs[q]); }
  }

  lemma RunsDrop(log: seq<Entry>, runs: map<nat, Phase>, p: nat)
    requires RunsHold(log, runs)
    ensures RunsHold(log, runs - {p})
  {
  }

  lemma RunsSet(log: seq<Entry>, runs: map<nat, Phase>, p: nat, phase: Phase)
    requires RunsHold(log, runs) && PhaseHolds(log, phase)
    ensures RunsHold(log, runs[p := phase])
  {
  }

  lemma WriteRuns(log: seq<Entry>, runs: map<nat, Phase>, p: nat, e: Entry)
    requires LogHolds(log) && RunsHold(log, runs) && e.event.RoomSummary? && e.seqNo > LastSeq(log)
    ensures RunsHold(AppendRoomSummary(log, e), runs - {p})
  {
    RunsAppend(log, runs, e);
    RunsDrop(AppendRoomSummary(log, e), runs, p);
  }

  lemma WriteLog(log: seq<Entry>, prev: Option<Entry>, batch: seq<Entry>, seqNo: nat, text: string)
    requires LogHolds(log) && Known(log, prev) && BatchHolds(log, prev, batch) && seqNo > LastSeq(log)
    ensures LogHolds(AppendRoomSummary(log, Folded(prev, batch, seqNo, text)))
  {
    var e := Folded(prev, batch, seqNo, text);
    if !HasSummaryAt(log, e.event.through) {
      FoldIsFaithful(log, prev, batch, seqNo, text);
      AppendKeeps(log, e);
    }
  }

  lemma WrittenHolds(log: seq<Entry>, runs: map<nat, Phase>, p: nat, prev: Option<Entry>, batch: seq<Entry>, seqNo: nat,
      text: string)
    requires LogHolds(log) && RunsHold(log, runs) && Known(log, prev) && BatchHolds(log, prev, batch)
    requires seqNo > LastSeq(log)
    ensures Inv(Sys(AppendRoomSummary(log, Folded(prev, batch, seqNo, text)), runs - {p}))
  {
    WriteLog(log, prev, batch, seqNo, text);
    WriteRuns(log, runs, p, Folded(prev, batch, seqNo, text));
  }

  lemma WriteKeeps(s: Sys, p: nat, gap: nat, text: string)
    requires Inv(s) && p in s.runs && s.runs[p].Fetched?
    ensures Inv(DoWrite(s, p, s.runs[p].prev, s.runs[p].batch, gap, text))
  {
    assert PhaseHolds(s.log, s.runs[p]);
    WrittenHolds(s.log, s.runs, p, s.runs[p].prev, s.runs[p].batch, LastSeq(s.log) + 1 + gap, text);
  }

  lemma PostKeeps(s: Sys, e: Entry)
    requires Inv(s) && !e.event.RoomSummary? && e.seqNo > LastSeq(s.log)
    ensures Inv(s.(log := s.log + [e]))
  {
    AppendKeeps(s.log, e);
    RunsAppend(s.log, s.runs, e);
  }

  lemma CountKeeps(s: Sys, p: nat)
    requires Inv(s) && p in s.runs
    ensures Inv(DoCount(s, p, s.runs[p].prev))
  {
    var tail := |Messages(After(s.log, Floor(s.runs[p].prev)))|;
    if tail <= WINDOW + TRIGGER_BATCH { RunsDrop(s.log, s.runs, p); }
        else { RunsSet(s.log, s.runs, p, Counted(s.runs[p].prev, FoldCount(tail))); }
  }

  lemma FetchKeeps(s: Sys, p: nat)
    requires Inv(s) && p in s.runs && s.runs[p].Counted?
    ensures Inv(DoFetch(s, p, s.runs[p].prev, s.runs[p].fold))
  {
    var batch := MessageBatchAfter(s.log, Floor(s.runs[p].prev), s.runs[p].fold);
    if batch == [] {
      RunsDrop(s.log, s.runs, p);
    } else {
      FetchHolds(s.log, s.runs[p].prev, s.runs[p].fold);
      RunsSet(s.log, s.runs, p, Fetched(s.runs[p].prev, batch));
    }
  }

  lemma InvIsWellFormed(s: Sys)
    requires Inv(s)
    ensures WellFormed(s)
  {
  }

  lemma BeginKeeps(s: Sys, p: nat)
    requires Inv(s)
    ensures WellFormed(s) && Inv(Apply(s, Begin(p)))
  {
    InvIsWellFormed(s);
    if p !in s.runs { RunsSet(s.log, s.runs, p, Read(LatestRoomSummary(s.log))); }
  }

  lemma AppendStepKeeps(s: Sys, gap: nat, event: Event)
    requires Inv(s)
    ensures WellFormed(s) && Inv(Apply(s, Append(gap, event)))
  {
    InvIsWellFormed(s);
    if !event.RoomSummary? { PostKeeps(s, Entry(LastSeq(s.log) + 1 + gap, event)); }
  }

  lemma StepKeeps(s: Sys, step: Step)
    requires Inv(s)
    ensures WellFormed(s) && Inv(Apply(s, step))
  {
    InvIsWellFormed(s);
    match step
    case Append(gap, event) => AppendStepKeeps(s, gap, event);
    case Begin(p) => BeginKeeps(s, p);
    case CountTail(p) => if p in s.runs && s.runs[p].Read? { CountKeeps(s, p); }
    case FetchBatch(p) => if p in s.runs && s.runs[p].Counted? { FetchKeeps(s, p); }
    case Write(p, gap, text) => if p in s.runs && s.runs[p].Fetched? { WriteKeeps(s, p, gap, text); }
    case GiveUp(p) => RunsDrop(s.log, s.runs, p);
  }

  lemma {:induction false} RunKeeps(s: Sys, steps: seq<Step>)
    requires Inv(s)
    ensures WellFormed(s) && Inv(Run(s, steps))
    decreases |steps|
  {
    if steps != [] {
      StepKeeps(s, steps[0]);
      RunKeeps(Apply(s, steps[0]), steps[1..]);
    }
  }

  /** Whatever processes fold at the same time, every summary of the room's log was made from, and counts, exactly
   *  the messages at or below its coverage point, and no point is covered twice. */
  lemma {:induction false} EverySummaryIsFaithful(steps: seq<Step>)
    ensures LogHolds(Run(EMPTY, steps).log)
  {
    RunKeeps(EMPTY, steps);
  }

  // ---------------------------------------------------------------- coverage and window

  /** What a turn is given: the messages behind the summary it read, and the capped window after it. */
  function Window(log: seq<Entry>, summary: Option<Entry>): seq<Entry>
    requires summary.Some? ==> summary.value.event.RoomSummary?
  {
    MessagesAfterSeq(log, Floor(summary), WINDOW + TRIGGER_BATCH)
  }

  lemma CoveredThenTail(log: seq<Entry>, summary: Option<Entry>)
    requires LogHolds(log) && Known(log, summary)
    ensures FedBy(summary) + Messages(After(log, Floor(summary))) == Messages(log)
  {
    SummaryInLog(log, summary);
    MessagesSplit(log, Floor(summary));
  }

  /** With any summary the log holds (a newer one may have landed since it was read): covered messages, then the
   *  window, are all messages exactly when at most 36 follow the floor; else precisely the messages just past the
   *  floor are in neither. */
  lemma {:induction false} CoverageAndWindowPartition(log: seq<Entry>, summary: Option<Entry>)
    requires LogHolds(log) && Known(log, summary)
    ensures var tail := Messages(After(log, Floor(summary)));
      && (FedBy(summary) + Window(log, summary) == Messages(log) <==> |tail| <= WINDOW + TRIGGER_BATCH)
      && (|tail| > WINDOW + TRIGGER_BATCH ==>
            && |Window(log, summary)| == WINDOW + TRIGGER_BATCH
            && FedBy(summary) + tail[..|tail| - (WINDOW + TRIGGER_BATCH)] + Window(log, summary) == Messages(log))
  {
    CoveredThenTail(log, summary);
    Dropped(FedBy(summary), Messages(After(log, Floor(summary))), Messages(log), WINDOW + TRIGGER_BATCH);
  }

  lemma Dropped(covered: seq<Entry>, tail: seq<Entry>, all: seq<Entry>, cap: nat)
    requires covered + tail == all
    ensures covered + LastN(tail, cap) == all <==> |tail| <= cap
    ensures |tail| > cap ==> |LastN(tail, cap)| == cap && covered + tail[..|tail| - cap] + LastN(tail, cap) == all
  {
    if |tail| > cap { assert |covered + LastN(tail, cap)| < |all|; }
  }

  // ---------------------------------------------------------------- a message that becomes visible late

  /** What a query sees once a row that took its number earlier is committed. */
  function Committed(log: seq<Entry>, e: Entry): seq<Entry> {
    UpTo(log, e.seqNo) + [e] + After(log, e.seqNo)
  }

  lemma CommittedCut(log: seq<Entry>, e: Entry, s: nat)
    requires Sorted(log)
    ensures e.seqNo > s ==> UpTo(Committed(log, e), s) == UpTo(log, s)
    ensures e.seqNo <= s ==> After(Committed(log, e), s) == After(log, s)
  {
    var low, high := UpTo(log, e.seqNo), After(log, e.seqNo);
    Cut(log, e.seqNo);
    AfterConcat(low, high, s);
    UpToConcat(low, high, s);
    CutAppend(low, e, s);
    AfterConcat(low + [e], high, s);
    UpToConcat(low + [e], high, s);
    UpToBounds(log, e.seqNo);
    if e.seqNo <= s { NonePast(low, s); } else { NoneUpTo(high, s); }
  }

  lemma {:induction false} NonePast(log: seq<Entry>, s: nat)
    requires forall i :: 0 <= i < |log| ==> log[i].seqNo <= s
    ensures After(log, s) == []
  {
    if log != [] { NonePast(log[..|log| - 1], s); }
  }

  lemma {:induction false} NoneUpTo(log: seq<Entry>, s: nat)
    requires forall i :: 0 <= i < |log| ==> log[i].seqNo > s
    ensures UpTo(log, s) == []
  {
    if log != [] { NoneUpTo(log[..|log| - 1], s); }
  }

  lemma CommittedSorted(log: seq<Entry>, e: Entry)
    requires Sorted(log) && e.seqNo >= 1 && forall i :: 0 <= i < |log| ==> log[i].seqNo != e.seqNo
    ensures Sorted(Committed(log, e)) && e in Committed(log, e)
  {
    Cut(log, e.seqNo);
    UpToBounds(log, e.seqNo);
    SortedHalves(UpTo(log, e.seqNo), After(log, e.seqNo), log, e);
    JoinSorted(UpTo(log, e.seqNo), e, After(log, e.seqNo));
  }

  lemma SortedHalves(low: seq<Entry>, high: seq<Entry>, log: seq<Entry>, e: Entry)
    requires Sorted(log) && low + high == log && forall i :: 0 <= i < |log| ==> log[i].seqNo != e.seqNo
    requires forall i :: 0 <= i < |low| ==> low[i].seqNo <= e.seqNo
    ensures Sorted(low) && Sorted(high) && forall i :: 0 <= i < |low| ==> low[i].seqNo < e.seqNo
  {
    assert forall i :: 0 <= i < |low| ==> low[i] == log[i];
    assert forall i :: 0 <= i < |high| ==> high[i] == log[|low| + i];
  }

  lemma JoinSorted(low: seq<Entry>, e: Entry, high: seq<Entry>)
    requires Sorted(low) && Sorted(high) && e.seqNo >= 1
    requires forall i :: 0 <= i < |low| ==> low[i].seqNo < e.seqNo
    requires forall i :: 0 <= i < |high| ==> e.seqNo < high[i].seqNo
    ensures Sorted(low + [e] + high) && e in low + [e] + high
  {
    assert (low + [e] + high)[|low|] == e;
  }

  lemma {:induction false} MessageKept(log: seq<Entry>, e: Entry)
    requires e in log && e.event.Message?
    ensures e in Messages(log)
  {
    if log[|log| - 1] != e { MessageKept(log[..|log| - 1], e); }
  }

  /** A message that commits after a summary already covers its number is in neither the summary nor the tail behind
   *  it, whatever follows; one past the coverage point is in the tail like any other. So covered messages and tail are
   *  all messages if and only if the late number is past the point. */
  lemma LateMessageIsLostIffCovered(log: seq<Entry>, summary: Option<Entry>, e: Entry)
    requires LogHolds(log) && Known(log, summary)
    requires e.event.Message? && e.seqNo >= 1 && forall i :: 0 <= i < |log| ==> log[i].seqNo != e.seqNo
    ensures var tail := Messages(After(Committed(log, e), Floor(summary)));
      && (FedBy(summary) + tail == Messages(Committed(log, e)) <==> e.seqNo > Floor(summary))
      && (e in FedBy(summary) + tail <==> e.seqNo > Floor(summary))
    ensures e.seqNo <= Floor(summary) ==> forall later :: e !in Messages(After(later, Floor(summary)))
  {
    var s, now := Floor(summary), Committed(log, e);
    SummaryInLog(log, summary);
    CommittedCut(log, e, s);
    CommittedSorted(log, e);
    MessagesSplit(now, s);
    MessageKept(now, e);
    NotFed(log, s, e);
    if e.seqNo <= s {
      forall later ensures e !in Messages(After(later, s)) { NotPast(later, s, e); }
      assert e in Messages(now) && e !in FedBy(summary) + Messages(After(now, s));
    }
  }

  lemma NotFed(log: seq<Entry>, s: nat, e: Entry)
    requires Sorted(log) && forall i :: 0 <= i < |log| ==> log[i].seqNo != e.seqNo
    ensures e !in Messages(UpTo(log, s))
  {
    MessagesOnly(UpTo(log, s));
    Cut(log, s);
    assert forall x :: x in UpTo(log, s) ==> x in UpTo(log, s) + After(log, s);
  }

  lemma NotPast(log: seq<Entry>, s: nat, e: Entry)
    requires e.seqNo <= s
    ensures e !in Messages(After(log, s))
  {
    MessagesOnly(After(log, s));
    UpToBounds(log, s);
  }

  // ---------------------------------------------------------------- a run by itself

  function Tail(log: seq<Entry>): nat {
    |Messages(After(log, RoomWindowFloor(log)))|
  }

  /** The row a maintenance run with nothing between its statements appends, its summariser answering `text`. */
  function NextSummary(log: seq<Entry>, gap: nat, text: string): (next: Option<Entry>)
    ensures next.Some? ==> next.value.event.RoomSummary? && !HasSummaryAt(log, next.value.event.through)
  {
    if Tail(log) <= WINDOW + TRIGGER_BATCH then None
    else
      var batch := MessageBatchAfter(log, RoomWindowFloor(log), FoldCount(Tail(log)));
      assert batch != [];
      var e := Folded(LatestRoomSummary(log), batch, LastSeq(log) + 1 + gap, text);
      if HasSummaryAt(log, e.event.through) then None else Some(e)
  }

  function Maintained(log: seq<Entry>, gap: nat, text: string): seq<Entry> {
    match NextSummary(log, gap, text)
    case None => log
    case Some(e) => log + [e]
  }

  lemma NextBatch(log: seq<Entry>)
    requires LogHolds(log) && Tail(log) > WINDOW + TRIGGER_BATCH
    ensures var batch := MessageBatchAfter(log, RoomWindowFloor(log), FoldCount(Tail(log)));
      && BatchHolds(log, LatestRoomSummary(log), batch)
      && |Messages(After(log, batch[|batch| - 1].seqNo))| == Tail(log) - FoldCount(Tail(log))
  {
    var floor, n := RoomWindowFloor(log), FoldCount(Tail(log));
    var batch := MessageBatchAfter(log, floor, n);
    BatchAdvances(log, floor, n);
    assert |Messages(After(log, floor))| == |batch| + |Messages(After(log, batch[|batch| - 1].seqNo))|;
  }

  lemma {:induction false} RunConcat(s: Sys, a: seq<Step>, b: seq<Step>)
    requires WellFormed(s)
    ensures WellFormed(Run(s, a)) && Run(s, a + b) == Run(Run(s, a), b)
    decreases |a|
  {
    if a == [] {
      assert a + b == b;
    } else {
      WellFormedStep(s, a[0]);
      assert (a + b)[1..] == a[1..] + b;
      RunConcat(Apply(s, a[0]), a[1..], b);
    }
  }

  lemma RunOne(s: Sys, step: Step)
    requires WellFormed(s)
    ensures WellFormed(Apply(s, step)) && Run(s, [step]) == Apply(s, step)
  {
    WellFormedStep(s, step);
    assert [step][1..] == [];
    assert Run(Apply(s, step), []) == Apply(s, step);
  }

  lemma RunThree(s: Sys, a: Step, b: Step, c: Step)
    requires WellFormed(s)
    ensures WellFormed(Apply(s, a)) && WellFormed(Apply(Apply(s, a), b))
    ensures Run(s, [a, b, c]) == Apply(Apply(Apply(s, a), b), c)
  {
    RunOne(s, a);
    RunOne(Apply(s, a), b);
    RunOne(Apply(Apply(s, a), b), c);
    assert [a, b, c][1..] == [b, c] && [b, c][1..] == [c];
    assert Run(Apply(s, a), [b, c]) == Run(Apply(Apply(s, a), b), [c]);
  }

  /** The statements of one run. */
  function Reading(p: nat): seq<Step> {
    [Begin(p), CountTail(p), FetchBatch(p)]
  }

  lemma Overwrites(runs: map<nat, Phase>, p: nat, a: Phase, b: Phase)
    ensures runs[p := a][p := b] == runs[p := b]
  {
  }

  lemma CountsTail(s: Sys, p: nat, read: Sys)
    requires WellFormed(s) && Tail(s.log) > WINDOW + TRIGGER_BATCH
    requires read == s.(runs := s.runs[p := Read(LatestRoomSummary(s.log))])
    ensures WellFormed(read)
    ensures Apply(read, CountTail(p))
            == s.(runs := s.runs[p := Counted(LatestRoomSummary(s.log), FoldCount(Tail(s.log)))])
  {
    Overwrites(s.runs, p, Read(LatestRoomSummary(s.log)), Counted(LatestRoomSummary(s.log), FoldCount(Tail(s.log))));
  }

  lemma FetchesBatch(s: Sys, p: nat, counted: Sys)
    requires WellFormed(s) && Tail(s.log) > WINDOW + TRIGGER_BATCH
    requires counted == s.(runs := s.runs[p := Counted(LatestRoomSummary(s.log), FoldCount(Tail(s.log)))])
    ensures WellFormed(counted)
    ensures var batch := MessageBatchAfter(s.log, RoomWindowFloor(s.log), FoldCount(Tail(s.log)));
      batch != [] && Apply(counted, FetchBatch(p)) == s.(runs := s.runs[p := Fetched(LatestRoomSummary(s.log), batch)])
  {
    Overwrites(s.runs, p, Counted(LatestRoomSummary(s.log), FoldCount(Tail(s.log))),
               Fetched(LatestRoomSummary(s.log),
                   MessageBatchAfter(s.log, RoomWindowFloor(s.log), FoldCount(Tail(s.log)))));
  }

  lemma ReadingFetches(s: Sys, p: nat)
    requires WellFormed(s) && p !in s.runs && Tail(s.log) > WINDOW + TRIGGER_BATCH
    ensures var batch := MessageBatchAfter(s.log, RoomWindowFloor(s.log), FoldCount(Tail(s.log)));
      && batch != []
      && Run(s, Reading(p)) == s.(runs := s.runs[p := Fetched(LatestRoomSummary(s.log), batch)])
  {
    RunThree(s, Begin(p), CountTail(p), FetchBatch(p));
    CountsTail(s, p, Apply(s, Begin(p)));
    FetchesBatch(s, p, Apply(Apply(s, Begin(p)), CountTail(p)));
  }

  lemma CountEnds(s: Sys, p: nat, read: Sys)
    requires WellFormed(s) && p !in s.runs && Tail(s.log) <= WINDOW + TRIGGER_BATCH
    requires read == s.(runs := s.runs[p := Read(LatestRoomSummary(s.log))])
    ensures WellFormed(read) && Apply(read, CountTail(p)) == s
  {
    assert read.runs - {p} == s.runs;
  }

  lemma ReadingEnds(s: Sys, p: nat)
    requires WellFormed(s) && p !in s.runs && Tail(s.log) <= WINDOW + TRIGGER_BATCH
    ensures Run(s, Reading(p)) == s
  {
    RunThree(s, Begin(p), CountTail(p), FetchBatch(p));
    CountEnds(s, p, Apply(s, Begin(p)));
  }

  lemma WriteEnds(s: Sys, p: nat, gap: nat, text: string, fetched: Sys)
    requires WellFormed(s) && p !in s.runs && Tail(s.log) > WINDOW + TRIGGER_BATCH
    requires var batch := MessageBatchAfter(s.log, RoomWindowFloor(s.log), FoldCount(Tail(s.log)));
      batch != [] && fetched == s.(runs := s.runs[p := Fetched(LatestRoomSummary(s.log), batch)])
    ensures WellFormed(fetched)
    ensures Apply(fetched, Write(p, gap, text)) == s.(log := Maintained(s.log, gap, text))
  {
    var batch := MessageBatchAfter(s.log, RoomWindowFloor(s.log), FoldCount(Tail(s.log)));
    WellFormedSet(s, p, Fetched(LatestRoomSummary(s.log), batch));
    assert fetched.runs - {p} == s.runs;
  }

  /** A run whose statements nothing comes between is the maintenance above. */
  lemma UninterruptedRunMaintains(s: Sys, p: nat, gap: nat, text: string)
    requires WellFormed(s) && p !in s.runs
    ensures Run(s, Reading(p) + [Write(p, gap, text)]) == s.(log := Maintained(s.log, gap, text))
  {
    RunConcat(s, Reading(p), [Write(p, gap, text)]);
    RunOne(Run(s, Reading(p)), Write(p, gap, text));
    if Tail(s.log) > WINDOW + TRIGGER_BATCH {
      ReadingFetches(s, p);
      WriteEnds(s, p, gap, text, Run(s, Reading(p)));
    } else {
      ReadingEnds(s, p);
    }
  }

  // ---------------------------------------------------------------- the maintenance run itself

  datatype Chunk = TextDelta(text: string) | Action | Done | Failed
  datatype AgentMessage = AgentMessage(author: string, body: string)

  const EARLIER_SUMMARY_AUTHOR := "earlier-summary"

  function TrimStart(s: string): (r: string)
    ensures |r| <= |s| && s[|s| - |r|..] == r && Blank(s[..|s| - |r|])
    ensures r != [] ==> !IsSpace(r[0])
  {
    if s == [] || !IsSpace(s[0]) then s else TrimStart(s[1..])
  }

  function TrimEnd(s: string): (r: string)
    ensures |r| <= |s| && s[..|r|] == r && Blank(s[|r|..])
    ensures r != [] ==> !IsSpace(r[|r| - 1])
  {
    if s == [] || !IsSpace(s[|s| - 1]) then s
    else
      var r := TrimEnd(s[..|s| - 1]);
      assert s[|r|..] == s[..|s| - 1][|r|..] + [s[|s| - 1]];
      r
  }

  function Trim(s: string): string {
    TrimEnd(TrimStart(s))
  }

  /** The text of a stream that reached its end. */
  function Streamed(reply: seq<Chunk>): string {
    if reply == [] then ""
    else Streamed(reply[..|reply| - 1]) + (match reply[|reply| - 1] case TextDelta(t) => t case _ => "")
  }

  predicate Broke(reply: seq<Chunk>) {
    Failed in reply
  }

  function Rendered(messages: seq<Entry>): (r: seq<AgentMessage>)
    requires forall i :: 0 <= i < |messages| ==> messages[i].event.Message?
    ensures |r| == |messages|
    ensures forall i :: 0 <= i < |r| ==> r[i] == AgentMessage(messages[i].event.author, messages[i].event.body)
  {
    if messages == [] then []
    else
      var last := messages[|messages| - 1].event;
      Rendered(messages[..|messages| - 1]) + [AgentMessage(last.author, last.body)]
  }

  lemma BatchIsMessages(log: seq<Entry>, floor: nat, limit: nat)
    ensures forall i :: 0 <= i < |MessageBatchAfter(log, floor, limit)| ==>
            MessageBatchAfter(log, floor, limit)[i].event.Message?
  {
    MessagesOnly(After(log, floor));
  }

  /** What the summariser is given: the earlier summary, to extend, then the batch, each with its author. */
  function SummariserInput(log: seq<Entry>): seq<AgentMessage>
    requires Tail(log) > WINDOW
  {
    var prev := LatestRoomSummary(log);
    BatchIsMessages(log, RoomWindowFloor(log), FoldCount(Tail(log)));
    (if prev.Some? then [AgentMessage(EARLIER_SUMMARY_AUTHOR, prev.value.event.text)] else [])
    + Rendered(MessageBatchAfter(log, RoomWindowFloor(log), FoldCount(Tail(log))))
  }

  /** The summariser is asked: the tail is long, the money there, an adapter enabled. */
  predicate Asks(log: seq<Entry>, exceeded: bool, adapter: bool) {
    Tail(log) > WINDOW + TRIGGER_BATCH && !exceeded && adapter
  }

  function AskedWith(log: seq<Entry>, exceeded: bool, adapter: bool): seq<AgentMessage> {
    if Asks(log, exceeded, adapter) then SummariserInput(log) else []
  }

  /** The row a run appends when nobody else folds: it asked, and the stream ended with something to say. */
  function Composed(log: seq<Entry>, exceeded: bool, adapter: bool, reply: seq<Chunk>, gap: nat): Option<Entry> {
    if Asks(log, exceeded, adapter) && !Broke(reply) && Trim(Streamed(reply)) != ""
        then NextSummary(log, gap, Trim(Streamed(reply))) else None
  }

  lemma {:induction false} StreamedConcat(a: seq<Chunk>, b: seq<Chunk>)
    ensures Streamed(a + b) == Streamed(a) + Streamed(b)
  {
    if b == [] {
      assert a + b == a;
    } else {
      StreamedConcat(a, b[..|b| - 1]);
      assert (a + b)[..|a + b| - 1] == a + b[..|b| - 1];
    }
  }

  /** A stream's text is its pieces, in the order they came; other chunks say nothing. */
  lemma StreamIsRead(reply: seq<Chunk>, chunk: Chunk, more: seq<Chunk>)
    ensures Streamed(reply + [chunk] + more)
         == Streamed(reply) + (if chunk.TextDelta? then chunk.text else "") + Streamed(more)
    ensures Streamed([]) == ""
  {
    StreamedConcat(reply + [chunk], more);
    StreamedConcat(reply, [chunk]);
    assert [chunk][..0] == [];
  }

  /** Trimming takes white space off both ends, and nothing else. */
  lemma TrimTakesSpaceOff(s: string) returns (front: string, back: string)
    ensures s == front + Trim(s) + back && Blank(front) && Blank(back)
    ensures Trim(s) != "" ==> !IsSpace(Trim(s)[0]) && !IsSpace(Trim(s)[|Trim(s)| - 1])
  {
    var started := TrimStart(s);
    front := s[..|s| - |started|];
    back := EndTakesSpaceOff(started);
    Halved(s, |s| - |started|);
    Reassociate(front, Trim(s), back);
  }

  lemma EndTakesSpaceOff(s: string) returns (back: string)
    ensures s == TrimEnd(s) + back && Blank(back) && (TrimEnd(s) != "" ==> TrimEnd(s)[0] == s[0])
  {
    back := s[|TrimEnd(s)|..];
    Halved(s, |TrimEnd(s)|);
    assert TrimEnd(s) != "" ==> s[..|TrimEnd(s)|][0] == s[0];
  }

  lemma Halved(s: string, n: nat)
    requires n <= |s|
    ensures s == s[..n] + s[n..]
  {
  }

  lemma Reassociate(a: string, b: string, c: string)
    ensures a + (b + c) == a + b + c
  {
  }

  /** What the summariser reads: the newest summary's text as an earlier author's, if there is one, then the first
   *  `n` of the tail, each as its author's. */
  ghost predicate Reads(input: seq<AgentMessage>, newest: Option<Entry>, tail: seq<Entry>, n: nat)
    requires newest.Some? ==> newest.value.event.RoomSummary?
  {
    var lead := if newest.Some? then 1 else 0;
    && n <= |tail| && |input| == lead + n
    && (newest.Some? ==> input[0] == AgentMessage("earlier-summary", newest.value.event.text))
    && forall i :: 0 <= i < n ==>
         tail[i].event.Message? && input[lead + i] == AgentMessage(tail[i].event.author, tail[i].event.body)
  }

  lemma RenderedReads(newest: Option<Entry>, tail: seq<Entry>, n: nat)
    requires newest.Some? ==> newest.value.event.RoomSummary?
    requires n <= |tail| && forall i :: 0 <= i < n ==> tail[i].event.Message?
    ensures Reads((if newest.Some? then [AgentMessage("earlier-summary", newest.value.event.text)] else [])
                  + Rendered(tail[..n]), newest, tail, n)
  {
  }

  lemma InputReads(log: seq<Entry>)
    requires Tail(log) > WINDOW
    ensures var tail := Messages(After(log, RoomWindowFloor(log)));
      Reads(SummariserInput(log), LatestRoomSummary(log), tail, Min(|tail| - 24, 40))
  {
    var tail, floor := Messages(After(log, RoomWindowFloor(log))), RoomWindowFloor(log);
    MessagesOnly(After(log, floor));
    BatchIsMessages(log, floor, FoldCount(Tail(log)));
    assert MessageBatchAfter(log, floor, FoldCount(Tail(log))) == tail[..Min(|tail| - 24, 40)];
    RenderedReads(LatestRoomSummary(log), tail, Min(|tail| - 24, 40));
  }

  /** What a fold writes, over the summary it extends. */
  ghost predicate Extends(e: Entry, newest: Option<Entry>, tail: seq<Entry>, n: nat, text: string)
    requires newest.Some? ==> newest.value.event.RoomSummary?
  {
    && 0 < n <= |tail| && e.event.RoomSummary? && e.event.through == tail[n - 1].seqNo && e.event.text == text
    && e.event.count == (if newest.Some? then newest.value.event.count else 0) + n
  }

  /** What one run reads of a room and adds to it. */
  ghost predicate MaintainsRoom(log: seq<Entry>, exceeded: bool, adapter: bool, reply: seq<Chunk>,
      input: seq<AgentMessage>, written: Option<Entry>) {
    var tail, newest := Messages(After(log, RoomWindowFloor(log))), LatestRoomSummary(log);
    if |tail| <= 36 || exceeded || !adapter then input == [] && written == None
    else
      var n := Min(|tail| - 24, 40);
      && Reads(input, newest, tail, n)
      && (written.Some? <==>
            !Broke(reply) && Trim(Streamed(reply)) != "" && !HasSummaryAt(log, tail[n - 1].seqNo))
      && (written.Some? ==> Extends(written.value, newest, tail, n, Trim(Streamed(reply))))
  }

  lemma ComposedMaintains(log: seq<Entry>, exceeded: bool, adapter: bool, reply: seq<Chunk>, gap: nat)
    ensures MaintainsRoom(log, exceeded, adapter, reply, AskedWith(log, exceeded, adapter),
                          Composed(log, exceeded, adapter, reply, gap))
  {
    if Asks(log, exceeded, adapter) {
      InputReads(log);
      NextExtends(log, gap, Trim(Streamed(reply)));
    }
  }

  lemma NextExtends(log: seq<Entry>, gap: nat, text: string)
    requires Tail(log) > WINDOW + TRIGGER_BATCH
    ensures var tail, next := Messages(After(log, RoomWindowFloor(log))), NextSummary(log, gap, text);
      var n := Min(|tail| - 24, 40);
      && (next.Some? <==> !HasSummaryAt(log, tail[n - 1].seqNo))
      && (next.Some? ==> Extends(next.value, LatestRoomSummary(log), tail, n, text))
  {
    var tail := Messages(After(log, RoomWindowFloor(log)));
    assert MessageBatchAfter(log, RoomWindowFloor(log), FoldCount(Tail(log))) == tail[..Min(|tail| - 24, 40)];
  }

  class Maintainer {
    var summarising: set<string>
    var logs: map<string, seq<Entry>>

    constructor (logs: map<string, seq<Entry>>)
      ensures summarising == {} && this.logs == logs
    {
      summarising, this.logs := {}, logs;
    }

    function LogOf(roomId: string): seq<Entry>
      reads this
    {
      if roomId in logs then logs[roomId] else []
    }

    /** `exceeded`, `adapter` and `reply` are what the ceiling, the registry and the provider answer; `input` is
     *  what the summariser was asked with. The guard is released however the run ends. */
    method MaintainRoomSummary(roomId: string, exceeded: bool, adapter: bool, reply: seq<Chunk>, gap: nat)
      returns (written: Option<Entry>, input: seq<AgentMessage>)
      modifies this
      ensures summarising == old(summarising)
      ensures roomId in summarising ==> written == None && input == []
      ensures roomId !in summarising ==>
                && written == Composed(old(LogOf(roomId)), exceeded, adapter, reply, gap)
                && input == AskedWith(old(LogOf(roomId)), exceeded, adapter)
      ensures roomId !in summarising ==>
                MaintainsRoom(old(LogOf(roomId)), exceeded, adapter, reply, input, written)
      ensures logs == if written.Some? then old(logs)[roomId := old(LogOf(roomId)) + [written.value]] else old(logs)
    {
      if roomId in summarising { return None, []; }
      var log := LogOf(roomId);
      ghost var others := summarising;
      summarising := summarising + {roomId};
      written, input := Compose(log, exceeded, adapter, reply, gap);
      ComposedMaintains(log, exceeded, adapter, reply, gap);
      AppendRow(roomId, log, written);
      summarising := summarising - {roomId};
      assert summarising == others;
    }

    method AppendRow(roomId: string, log: seq<Entry>, written: Option<Entry>)
      modifies this`logs
      ensures logs == if written.Some? then old(logs)[roomId := log + [written.value]] else old(logs)
    {
      if written.Some? { logs := logs[roomId := log + [written.value]]; }
    }

    /** The guarded body of the run: the row to append, if any. */
    static method Compose(log: seq<Entry>, exceeded: bool, adapter: bool, reply: seq<Chunk>, gap: nat)
      returns (written: Option<Entry>, input: seq<AgentMessage>)
      ensures written == Composed(log, exceeded, adapter, reply, gap) && input == AskedWith(log, exceeded, adapter)
    {
      var prev := LatestRoomSummary(log);
      var tail := |Messages(After(log, Floor(prev)))|;
      if tail <= WINDOW + TRIGGER_BATCH || exceeded || !adapter { return None, []; }
      var batch := MessageBatchAfter(log, Floor(prev), FoldCount(tail));
      input := Ask(prev, batch, log);
      var text := ReadStream(reply);
      if text.None? || Trim(text.value) == "" { return None, input; }
      written := Fold(log, prev, batch, Trim(text.value), gap);
    }

    /** None when another run covered this point first. */
    static method Fold(log: seq<Entry>, prev: Option<Entry>, batch: seq<Entry>, text: string, gap: nat
        ) returns (written: Option<Entry>)
      requires prev == LatestRoomSummary(log) && Tail(log) > WINDOW + TRIGGER_BATCH
      requires batch == MessageBatchAfter(log, RoomWindowFloor(log), FoldCount(Tail(log)))
      ensures written == NextSummary(log, gap, text)
    {
      var e := Folded(prev, batch, LastSeq(log) + 1 + gap, text);
      return if HasSummaryAt(log, e.event.through) then None else Some(e);
    }

    static method Ask(prev: Option<Entry>, batch: seq<Entry>, ghost log: seq<Entry>) returns (input: seq<AgentMessage>)
      requires prev == LatestRoomSummary(log) && Tail(log) > WINDOW
      requires batch == MessageBatchAfter(log, RoomWindowFloor(log), FoldCount(Tail(log)))
      ensures input == SummariserInput(log)
    {
      BatchIsMessages(log, RoomWindowFloor(log), FoldCount(Tail(log)));
      var rendered := RenderEach(batch);
      input := (if prev.Some? then [AgentMessage(EARLIER_SUMMARY_AUTHOR, prev.value.event.text)] else []) + rendered;
    }

    static method RenderEach(batch: seq<Entry>) returns (input: seq<AgentMessage>)
      requires forall i :: 0 <= i < |batch| ==> batch[i].event.Message?
      ensures |input| == |batch| && input == Rendered(batch)
    {
      input := [];
      for i := 0 to |batch|
        invariant input == Rendered(batch[..i])
      {
        assert batch[..i + 1][..i] == batch[..i];
        input := input + [AgentMessage(batch[i].event.author, batch[i].event.body)];
      }
      assert batch[..|batch|] == batch;
    }

    /** Nothing when the stream broke off. */
    static method ReadStream(reply: seq<Chunk>) returns (text: Option<string>)
      ensures text == if Broke(reply) then None else Some(Streamed(reply))
    {
      var sofar := "";
      for i := 0 to |reply|
        invariant sofar == Streamed(reply[..i]) && !Broke(reply[..i])
      {
        assert reply[..i + 1][..i] == reply[..i];
        match reply[i]
        case TextDelta(t) => sofar := sofar + t;
        case Failed => return None;
        case _ =>
      }
      assert reply[..|reply|] == reply;
      return Some(sofar);
    }
  }
}

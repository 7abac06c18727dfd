/**
 * What repeated maintenance of a room comes to: apps/api/src/summary.ts. A fold is accepted exactly when no summary
 * stands at its batch's end; the lemmas say when that is so, over every run of every number of processes.
 */
module Convergence {
  import opened Prelude
  import opened RoomLog
  import opened Summaries

  const LIMIT: nat := WINDOW + TRIGGER_BATCH

  /** The messages past the floor. */
  function Rest(log: seq<Entry>): seq<Entry> {
    Messages(After(log, RoomWindowFloor(log)))
  }

  /** Where the next batch of a tail of messages ends. */
  function EndOf(rest: seq<Entry>): nat
    requires |rest| > LIMIT
  {
    rest[FoldCount(|rest|) - 1].seqNo
  }

  // ---------------------------------------------------------------- one fold

  /** The row a fold of `log` would append. */
  function NextRow(log: seq<Entry>, gap: nat, text: string): Entry
    requires Tail(log) > LIMIT
  {
    Folded(LatestRoomSummary(log), Rest(log)[..FoldCount(Tail(log))], LastSeq(log) + 1 + gap, text)
  }

  lemma NextIs(log: seq<Entry>, gap: nat, text: string)
    requires Tail(log) > LIMIT
    ensures NextRow(log, gap, text).event.through == EndOf(Rest(log))
    ensures NextSummary(log, gap, text)
         == if HasSummaryAt(log, EndOf(Rest(log))) then None else Some(NextRow(log, gap, text))
  {
  }

  lemma NextBatchIs(log: seq<Entry>)
    requires LogHolds(log) && Tail(log) > LIMIT
    ensures BatchHolds(log, LatestRoomSummary(log), Rest(log)[..FoldCount(Tail(log))])
  {
    NextBatch(log);
  }

  lemma NextRestIs(log: seq<Entry>)
    requires LogHolds(log) && Tail(log) > LIMIT
    ensures RoomWindowFloor(log) < EndOf(Rest(log)) <= LastSeq(log)
    ensures Messages(After(log, EndOf(Rest(log)))) == Rest(log)[FoldCount(Tail(log))..]
  {
    BatchAdvances(log, RoomWindowFloor(log), FoldCount(Tail(log)));
    AfterPrefix(Rest(log), Messages(After(log, EndOf(Rest(log)))), FoldCount(Tail(log)));
  }

  lemma AfterPrefix(all: seq<Entry>, rest: seq<Entry>, n: nat)
    requires n <= |all| && all[..n] + rest == all
    ensures rest == all[n..]
  {
    assert (all[..n] + rest)[n..] == rest;
  }

  lemma RestAfterSummary(log: seq<Entry>, e: Entry)
    requires e.event.RoomSummary? && e.event.through < e.seqNo
    ensures RoomWindowFloor(log + [e]) == e.event.through
    ensures Rest(log + [e]) == Messages(After(log, e.event.through))
  {
    LatestAfterAppend(log, e);
    CutAppend(log, e, e.event.through);
    MessagesAppend(After(log, e.event.through), e);
  }

  lemma FoldHolds(log: seq<Entry>, gap: nat, text: string)
    requires LogHolds(log) && Tail(log) > LIMIT && !HasSummaryAt(log, EndOf(Rest(log)))
    ensures LogHolds(log + [NextRow(log, gap, text)])
  {
    var e := NextRow(log, gap, text);
    assert Faithful(log + [e], e) by {
      NextBatchIs(log);
      FoldIsFaithful(log, LatestRoomSummary(log), Rest(log)[..FoldCount(Tail(log))], e.seqNo, text);
    }
    AppendKeeps(log, e);
  }

  lemma FoldGrows(log: seq<Entry>, gap: nat, text: string)
    requires LogHolds(log) && Tail(log) > LIMIT && !HasSummaryAt(log, EndOf(Rest(log)))
    ensures var after := log + [NextRow(log, gap, text)];
      && Maintained(log, gap, text) == after
      && RoomWindowFloor(log) < RoomWindowFloor(after) == EndOf(Rest(log))
      && Rest(after) == Rest(log)[FoldCount(Tail(log))..]
  {
    NextIs(log, gap, text);
    NextRestIs(log);
    RestAfterSummary(log, NextRow(log, gap, text));
  }

  /** A run on a tail past 36 appends if and only if no summary stands at its batch's end; then it raises the
   *  coverage and shortens the tail by what it folded. */
  lemma FoldProgress(log: seq<Entry>, gap: nat, text: string)
    requires LogHolds(log) && Tail(log) > LIMIT
    ensures var after := Maintained(log, gap, text);
      && LogHolds(after)
      && (after != log <==> !HasSummaryAt(log, EndOf(Rest(log))))
      && (after != log ==>
            && |after| == |log| + 1
            && RoomWindowFloor(after) > RoomWindowFloor(log)
            && Tail(after) == Tail(log) - FoldCount(Tail(log)))
  {
    NextIs(log, gap, text);
    if !HasSummaryAt(log, EndOf(Rest(log))) {
      FoldGrows(log, gap, text);
      FoldHolds(log, gap, text);
    }
  }

  // ---------------------------------------------------------------- repeated maintenance of a quiet room

  function MaintainedOver(log: seq<Entry>, runs: seq<(nat, string)>): seq<Entry>
    decreases |runs|
  {
    if runs == [] then log else MaintainedOver(Maintained(log, runs[0].0, runs[0].1), runs[1..])
  }

  /** ceil((tail - 36) / 40), and none at 36 or below. */
  function FoldsNeeded(tail: nat): nat {
    if tail <= LIMIT then 0 else (tail - LIMIT + MAX_FOLD - 1) / MAX_FOLD
  }

  lemma OneFoldFewer(tail: nat)
    requires tail > LIMIT
    ensures FoldsNeeded(tail) == 1 + FoldsNeeded(tail - FoldCount(tail))
    ensures tail - FoldCount(tail) >= WINDOW
  {
  }

  /** No summary of the log stands at an end the folds of this tail will reach, one after another. */
  predicate PointsFree(log: seq<Entry>, rest: seq<Entry>)
    decreases |rest|
  {
    |rest| <= LIMIT || (!HasSummaryAt(log, EndOf(rest)) && PointsFree(log, rest[FoldCount(|rest|)..]))
  }

  /** A summary below all of a tail's numbers takes none of its points. */
  lemma {:induction false} PointsFreeAppend(log: seq<Entry>, e: Entry, rest: seq<Entry>)
    requires e.event.RoomSummary? && forall i :: 0 <= i < |rest| ==> rest[i].seqNo > e.event.through
    ensures PointsFree(log + [e], rest) <==> PointsFree(log, rest)
    decreases |rest|
  {
    if |rest| > LIMIT {
      HasSummaryAppend(log, e, EndOf(rest));
      PointsFreeAppend(log, e, rest[FoldCount(|rest|)..]);
    }
  }

  lemma HasSummaryAppend(log: seq<Entry>, e: Entry, x: nat)
    ensures HasSummaryAt(log + [e], x) <==> HasSummaryAt(log, x) || (e.event.RoomSummary? && e.event.through == x)
  {
    if HasSummaryAt(log, x) {
      var i :| 0 <= i < |log| && log[i].event.RoomSummary? && log[i].event.through == x;
      assert (log + [e])[i] == log[i];
    }
    assert (log + [e])[|log|] == e;
  }

  lemma PointsAfterFold(log: seq<Entry>, gap: nat, text: string)
    requires LogHolds(log) && Tail(log) > LIMIT && !HasSummaryAt(log, EndOf(Rest(log)))
    ensures var after := Maintained(log, gap, text); PointsFree(after, Rest(after)) <==> PointsFree(log, Rest(log))
  {
    NextIs(log, gap, text);
    FoldGrows(log, gap, text);
    RestPastEnd(log);
    PointsFreeAppend(log, NextRow(log, gap, text), Rest(log)[FoldCount(Tail(log))..]);
  }

  lemma RestPastEnd(log: seq<Entry>)
    requires Sorted(log) && Tail(log) > LIMIT
    ensures var rest := Rest(log)[FoldCount(Tail(log))..];
      forall i :: 0 <= i < |rest| ==> rest[i].seqNo > EndOf(Rest(log))
  {
    MessagesCut(log, RoomWindowFloor(log));
    MessagesSorted(log);
    Cut(Messages(log), RoomWindowFloor(log));
    PastThePrefix(Messages(log), UpTo(Messages(log), RoomWindowFloor(log)), Rest(log), FoldCount(Tail(log)));
  }

  lemma PastThePrefix(all: seq<Entry>, low: seq<Entry>, high: seq<Entry>, n: nat)
    requires Sorted(all) && all == low + high && 0 < n <= |high|
    ensures forall i :: 0 <= i < |high[n..]| ==> high[n..][i].seqNo > high[n - 1].seqNo
  {
    forall i | 0 <= i < |high[n..]| ensures high[n..][i].seqNo > high[n - 1].seqNo {
      assert all[|low| + n + i] == high[n..][i] && all[|low| + n - 1] == high[n - 1];
    }
  }

  /** In a quiet room a refusal is for good: every later run asks the summariser and appends nothing. */
  lemma {:induction false} RefusalIsForGood(log: seq<Entry>, runs: seq<(nat, string)>)
    requires LogHolds(log) && Tail(log) > LIMIT && HasSummaryAt(log, EndOf(Rest(log)))
    ensures MaintainedOver(log, runs) == log
    decreases |runs|
  {
    if runs != [] {
      NextIs(log, runs[0].0, runs[0].1);
      RefusalIsForGood(log, runs[1..]);
    }
  }

  /** What `runs` of maintenance leave of `log`. */
  ghost predicate Settles(log: seq<Entry>, runs: nat, done: seq<Entry>) {
    && LogHolds(done)
    && (runs >= FoldsNeeded(Tail(log)) ==> (Tail(done) <= LIMIT <==> PointsFree(log, Rest(log))))
    && (PointsFree(log, Rest(log)) ==>
          && |done| - |log| == Min(runs, FoldsNeeded(Tail(log)))
          && (runs >= FoldsNeeded(Tail(log)) && Tail(log) > LIMIT ==> WINDOW <= Tail(done)))
    && (Tail(log) <= LIMIT ==> done == log)
  }

  lemma SettlesOneSooner(log: seq<Entry>, next: seq<Entry>, runs: nat, done: seq<Entry>)
    requires Tail(log) > LIMIT && |next| == |log| + 1 && Tail(next) == Tail(log) - FoldCount(Tail(log))
    requires PointsFree(next, Rest(next)) <==> PointsFree(log, Rest(log))
    requires Settles(next, runs, done)
    ensures Settles(log, runs + 1, done)
  {
    OneFoldFewer(Tail(log));
  }

  lemma NeverSettles(log: seq<Entry>, runs: nat)
    requires LogHolds(log) && Tail(log) > LIMIT && HasSummaryAt(log, EndOf(Rest(log)))
    ensures Settles(log, runs, log)
  {
  }

  lemma {:induction false} QuietRoomSettles(log: seq<Entry>, runs: seq<(nat, string)>)
    requires LogHolds(log)
    ensures Settles(log, |runs|, MaintainedOver(log, runs))
    decreases |runs|
  {
    if Tail(log) > LIMIT && HasSummaryAt(log, EndOf(Rest(log))) {
      RefusalIsForGood(log, runs);
      NeverSettles(log, |runs|);
    } else if runs != [] {
      var next := Maintained(log, runs[0].0, runs[0].1);
      if Tail(log) > LIMIT {
        FoldProgress(log, runs[0].0, runs[0].1);
        PointsAfterFold(log, runs[0].0, runs[0].1);
        QuietRoomSettles(next, runs[1..]);
        SettlesOneSooner(log, next, |runs| - 1, MaintainedOver(next, runs[1..]));
      } else {
        QuietRoomSettles(next, runs[1..]);
      }
    }
  }

  /** Over every log the rows can be: enough maintenance of a quiet room brings its tail to 36 or less if and only if
   *  no summary already stands at an end its folds will reach; and then it folds exactly `FoldsNeeded` times, and a
   *  tail it folded at all is left at 24 to 36. */
  lemma MaintenanceConverges(log: seq<Entry>, runs: seq<(nat, string)>)
    requires LogHolds(log)
    ensures var done := MaintainedOver(log, runs);
      && (|runs| >= FoldsNeeded(Tail(log)) ==> (Tail(done) <= LIMIT <==> PointsFree(log, Rest(log))))
      && (PointsFree(log, Rest(log)) ==>
            && |done| - |log| == Min(|runs|, FoldsNeeded(Tail(log)))
            && (|runs| >= FoldsNeeded(Tail(log)) && Tail(log) > LIMIT ==> WINDOW <= Tail(done) <= LIMIT))
      && (Tail(log) <= LIMIT ==> done == log)
  {
    QuietRoomSettles(log, runs);
  }

  // ---------------------------------------------------------------- a room that goes on receiving messages

  predicate TakenFrom(log: seq<Entry>, rest: seq<Entry>, lo: nat) {
    |rest| >= MAX_FOLD && forall j :: lo <= j < MAX_FOLD ==> HasSummaryAt(log, rest[j].seqNo)
  }

  /** A summary stands wherever a batch can still end: from the present batch's end through the fortieth message past
   *  the floor. */
  predicate Blocked(log: seq<Entry>) {
    var rest := Rest(log);
    |rest| >= MAX_FOLD && TakenFrom(log, rest, FoldCount(|rest|) - 1)
  }

  /** A run under way holds the newest summary, and every batch it can still fetch or has fetched ends at a taken
   *  point. */
  ghost predicate StuckPhase(log: seq<Entry>, lo: nat, phase: Phase) {
    && phase.prev == LatestRoomSummary(log)
    && (phase.Counted? ==> lo < phase.fold <= MAX_FOLD)
    && (phase.Fetched? ==> phase.batch != [] && HasSummaryAt(log, phase.batch[|phase.batch| - 1].seqNo))
  }

  ghost predicate Stuck(s: Sys, lo: nat) {
    && Inv(s) && TakenFrom(s.log, Rest(s.log), lo) && lo < FoldCount(|Rest(s.log)|)
    && forall p :: p in s.runs ==> StuckPhase(s.log, lo, s.runs[p])
  }

  lemma RestGrows(log: seq<Entry>, e: Entry)
    requires LogHolds(log) && !e.event.RoomSummary? && e.seqNo > LastSeq(log)
    ensures LatestRoomSummary(log + [e]) == LatestRoomSummary(log)
    ensures Rest(log + [e]) == Rest(log) + (if e.event.Message? then [e] else [])
  {
    LatestAfterAppend(log, e);
    SummaryInLog(log, LatestRoomSummary(log));
    CutAppend(log, e, RoomWindowFloor(log));
    MessagesAppend(After(log, RoomWindowFloor(log)), e);
  }

  lemma StuckAppends(s: Sys, t: Sys, lo: nat, e: Entry)
    requires Stuck(s, lo) && !e.event.RoomSummary? && e.seqNo > LastSeq(s.log) && t == s.(log := s.log + [e])
    ensures Stuck(t, lo) && LatestRoomSummary(t.log) == LatestRoomSummary(s.log)
  {
    RestGrows(s.log, e);
    PostKeeps(s, e);
    forall x ensures HasSummaryAt(t.log, x) <==> HasSummaryAt(s.log, x) { HasSummaryAppend(s.log, e, x); }
  }

  lemma StuckSets(s: Sys, lo: nat, p: nat, phase: Phase)
    requires Stuck(s, lo) && PhaseHolds(s.log, phase) && StuckPhase(s.log, lo, phase)
    ensures Stuck(s.(runs := s.runs[p := phase]), lo)
  {
    RunsSet(s.log, s.runs, p, phase);
  }

  lemma StuckDrops(s: Sys, lo: nat, p: nat)
    requires Stuck(s, lo)
    ensures Stuck(s.(runs := s.runs - {p}), lo)
  {
    RunsDrop(s.log, s.runs, p);
  }

  lemma StuckFetches(s: Sys, lo: nat, p: nat)
    requires Stuck(s, lo) && p in s.runs && s.runs[p].Counted?
    ensures Stuck(DoFetch(s, p, s.runs[p].prev, s.runs[p].fold), lo)
  {
    var phase := s.runs[p];
    assert StuckPhase(s.log, lo, phase) && PhaseHolds(s.log, phase);
    var batch := MessageBatchAfter(s.log, Floor(phase.prev), phase.fold);
    assert batch == Rest(s.log)[..phase.fold];
    FetchHolds(s.log, phase.prev, phase.fold);
    StuckSets(s, lo, p, Fetched(phase.prev, batch));
  }

  lemma StuckCounts(s: Sys, lo: nat, p: nat)
    requires Stuck(s, lo) && p in s.runs && s.runs[p].Read?
    ensures Known(s.log, s.runs[p].prev) && Stuck(DoCount(s, p, s.runs[p].prev), lo)
    ensures DoCount(s, p, s.runs[p].prev).log == s.log
  {
    assert PhaseHolds(s.log, s.runs[p]) && StuckPhase(s.log, lo, s.runs[p]);
    StuckSets(s, lo, p, Counted(s.runs[p].prev, FoldCount(|Rest(s.log)|)));
  }

  lemma StuckWrites(s: Sys, lo: nat, p: nat, gap: nat, text: string)
    requires Stuck(s, lo) && p in s.runs && s.runs[p].Fetched?
    ensures PhaseHolds(s.log, s.runs[p]) && Stuck(DoWrite(s, p, s.runs[p].prev, s.runs[p].batch, gap, text), lo)
    ensures DoWrite(s, p, s.runs[p].prev, s.runs[p].batch, gap, text).log == s.log
  {
    assert StuckPhase(s.log, lo, s.runs[p]) && PhaseHolds(s.log, s.runs[p]);
    StuckDrops(s, lo, p);
  }

  lemma StuckStep(s: Sys, lo: nat, step: Step)
    requires Stuck(s, lo)
    ensures WellFormed(s) && Stuck(Apply(s, step), lo)
    ensures LatestRoomSummary(Apply(s, step).log) == LatestRoomSummary(s.log)
  {
    InvIsWellFormed(s);
    match step
    case Append(gap, event) =>
      if !event.RoomSummary? { StuckAppends(s, Apply(s, step), lo, Entry(LastSeq(s.log) + 1 + gap, event)); }
    case Begin(p) => if p !in s.runs { StuckSets(s, lo, p, Read(LatestRoomSummary(s.log))); }
    case CountTail(p) => if p in s.runs && s.runs[p].Read? { StuckCounts(s, lo, p); }
    case FetchBatch(p) => if p in s.runs && s.runs[p].Counted? { StuckFetches(s, lo, p); }
    case Write(p, gap, text) => if p in s.runs && s.runs[p].Fetched? { StuckWrites(s, lo, p, gap, text); }
    case GiveUp(p) => StuckDrops(s, lo, p);
  }

  lemma {:induction false} StuckRun(s: Sys, lo: nat, steps: seq<Step>)
    requires Stuck(s, lo)
    ensures WellFormed(s) && LatestRoomSummary(Run(s, steps).log) == LatestRoomSummary(s.log)
    decreases |steps|
  {
    InvIsWellFormed(s);
    if steps != [] {
      StuckStep(s, lo, steps[0]);
      StuckRun(Apply(s, steps[0]), lo, steps[1..]);
    }
  }

  // ---------------------------------------------------------------- maintenance after each message

  /** One maintenance with nothing between its statements, then the next message. */
  datatype Round = Round(gap: nat, text: string, postGap: nat, author: string, body: string)

  function Posted(log: seq<Entry>, r: Round): Entry {
    Entry(LastSeq(log) + 1 + r.postGap, Message(r.author, r.body))
  }

  function PlayRound(log: seq<Entry>, r: Round): seq<Entry> {
    var maintained := Maintained(log, r.gap, r.text);
    maintained + [Posted(maintained, r)]
  }

  function Rounds(log: seq<Entry>, rs: seq<Round>): seq<Entry>
    decreases |rs|
  {
    if rs == [] then log else Rounds(PlayRound(log, rs[0]), rs[1..])
  }

  lemma MaintainedHolds(log: seq<Entry>, gap: nat, text: string)
    requires LogHolds(log)
    ensures var m := Maintained(log, gap, text);
      && LogHolds(m) && LastSeq(m) >= LastSeq(log)
      && (m != log ==> LatestRoomSummary(m).Some? && LatestRoomSummary(m).value.seqNo > LastSeq(log))
  {
    if Tail(log) > LIMIT {
      NextIs(log, gap, text);
      FoldProgress(log, gap, text);
      LatestAfterAppend(log, NextRow(log, gap, text));
    }
  }

  lemma PostHolds(log: seq<Entry>, e: Entry)
    requires LogHolds(log) && e.event.Message? && e.seqNo > LastSeq(log)
    ensures LogHolds(log + [e]) && LatestRoomSummary(log + [e]) == LatestRoomSummary(log)
    ensures Rest(log + [e]) == Rest(log) + [e] && !HasSummaryAt(log + [e], e.seqNo)
  {
    AppendKeeps(log, e);
    RestGrows(log, e);
    HasSummaryAppend(log, e, e.seqNo);
    forall i | 0 <= i < |log| && log[i].event.RoomSummary? ensures log[i].event.through < e.seqNo {
      assert Faithful(log, log[i]);
    }
  }

  lemma {:induction false} RoundsGrow(log: seq<Entry>, rs: seq<Round>)
    requires LogHolds(log)
    ensures LogHolds(Rounds(log, rs))
    ensures var latest := LatestRoomSummary(Rounds(log, rs));
      latest == LatestRoomSummary(log) || (latest.Some? && latest.value.seqNo > LastSeq(log))
    decreases |rs|
  {
    if rs != [] {
      var m := Maintained(log, rs[0].gap, rs[0].text);
      MaintainedHolds(log, rs[0].gap, rs[0].text);
      PostHolds(m, Posted(m, rs[0]));
      RoundsGrow(PlayRound(log, rs[0]), rs[1..]);
    }
  }

  /** One message more takes the first point away and adds none that is taken. */
  lemma BlockedAfterPost(log: seq<Entry>, e: Entry)
    requires LogHolds(log) && e.event.Message? && e.seqNo > LastSeq(log)
    requires LIMIT < Tail(log) ==> HasSummaryAt(log, EndOf(Rest(log)))
    ensures Blocked(log + [e]) <==> Blocked(log)
  {
    PostHolds(log, e);
    var rest, after := Rest(log), Rest(log + [e]);
    SamePoints(log, e, rest);
    if |after| == MAX_FOLD { assert after[MAX_FOLD - 1] == e; }
  }

  lemma SamePoints(log: seq<Entry>, e: Entry, rest: seq<Entry>)
    requires e.event.Message?
    ensures forall j :: 0 <= j < |rest| ==>
              (HasSummaryAt(log + [e], (rest + [e])[j].seqNo) <==> HasSummaryAt(log, rest[j].seqNo))
  {
    forall x ensures HasSummaryAt(log + [e], x) <==> HasSummaryAt(log, x) { HasSummaryAppend(log, e, x); }
  }

  /** A refused or needless maintenance and one more message leave the room exactly as blocked as it was. */
  lemma RefusedRound(log: seq<Entry>, r: Round)
    requires LogHolds(log) && Maintained(log, r.gap, r.text) == log
    ensures Blocked(PlayRound(log, r)) <==> Blocked(log)
    ensures Tail(log) >= WINDOW + MAX_FOLD ==> Blocked(log)
  {
    if Tail(log) > LIMIT { NextIs(log, r.gap, r.text); }
    BlockedAfterPost(log, Posted(log, r));
  }

  lemma BlockedIsRefused(log: seq<Entry>, gap: nat, text: string)
    requires Blocked(log)
    ensures Maintained(log, gap, text) == log
  {
    NextIs(log, gap, text);
  }

  lemma LatestIsInLog(log: seq<Entry>)
    requires LogHolds(log)
    ensures LatestRoomSummary(log).Some? ==> LatestRoomSummary(log).value.seqNo <= LastSeq(log)
  {
    LastIsLargest(log);
  }

  /** Over every log the rows can be, each maintenance followed by one more message, once the tail would pass 64: a new
   *  summary has come if and only if the room was not blocked. */
  lemma {:induction false} NextFoldComesUnlessBlocked(log: seq<Entry>, rs: seq<Round>)
    requires LogHolds(log) && rs != [] && |rs| + Tail(log) > WINDOW + MAX_FOLD
    ensures LatestRoomSummary(Rounds(log, rs)) == LatestRoomSummary(log) <==> Blocked(log)
    decreases |rs|
  {
    var r := rs[0];
    var m := Maintained(log, r.gap, r.text);
    MaintainedHolds(log, r.gap, r.text);
    PostHolds(m, Posted(m, r));
    if m != log {
      if Blocked(log) { BlockedIsRefused(log, r.gap, r.text); }
      RoundsGrow(PlayRound(log, r), rs[1..]);
      LatestIsInLog(log);
    } else {
      RefusedRound(log, r);
      if |rs| > 1 { NextFoldComesUnlessBlocked(PlayRound(log, r), rs[1..]); } else { OneRound(log, rs); }
    }
  }

  lemma OneRound(log: seq<Entry>, rs: seq<Round>)
    requires |rs| == 1
    ensures Rounds(log, rs) == PlayRound(log, rs[0])
  {
    assert rs[1..] == [];
    assert Rounds(PlayRound(log, rs[0]), []) == PlayRound(log, rs[0]);
  }

  function RoundSteps(rs: seq<Round>): seq<Step>
    decreases |rs|
  {
    if rs == [] then []
    else Reading(0) + [Write(0, rs[0].gap, rs[0].text)] + [Append(rs[0].postGap, Message(rs[0].author, rs[0].body))]
         + RoundSteps(rs[1..])
  }

  lemma RoundRuns(log: seq<Entry>, r: Round)
    requires WellFormed(Sys(log, map[]))
    ensures Run(Sys(log, map[]),
                Reading(0) + [Write(0, r.gap, r.text)] + [Append(r.postGap, Message(r.author, r.body))])
         == Sys(PlayRound(log, r), map[])
  {
    var steps := Reading(0) + [Write(0, r.gap, r.text)];
    RunConcat(Sys(log, map[]), steps, [Append(r.postGap, Message(r.author, r.body))]);
    UninterruptedRunMaintains(Sys(log, map[]), 0, r.gap, r.text);
    RunOne(Sys(Maintained(log, r.gap, r.text), map[]), Append(r.postGap, Message(r.author, r.body)));
  }

  lemma {:induction false} RoundsRun(log: seq<Entry>, rs: seq<Round>)
    requires WellFormed(Sys(log, map[]))
    ensures Run(Sys(log, map[]), RoundSteps(rs)) == Sys(Rounds(log, rs), map[])
    decreases |rs|
  {
    if rs != [] {
      RoundRuns(log, rs[0]);
      RunConcat(Sys(log, map[]), Reading(0) + [Write(0, rs[0].gap, rs[0].text)]
          + [Append(rs[0].postGap, Message(rs[0].author, rs[0].body))], RoundSteps(rs[1..]));
      RoundsRun(PlayRound(log, rs[0]), rs[1..]);
    }
  }

  /** From every log the rows can be, no run in progress: no continuation, of messages and of any number of processes'
   *  runs in any interleaving, ever brings another summary if and only if the room is blocked. */
  lemma {:induction false} NeverFoldsAgainIffBlocked(log: seq<Entry>)
    requires LogHolds(log)
    ensures WellFormed(Sys(log, map[]))
    ensures (forall steps :: LatestRoomSummary(Run(Sys(log, map[]), steps).log) == LatestRoomSummary(log))
       <==> Blocked(log)
  {
    var s := Sys(log, map[]);
    if Blocked(log) {
      assert Stuck(s, FoldCount(Tail(log)) - 1);
      forall steps ensures LatestRoomSummary(Run(s, steps).log) == LatestRoomSummary(log) {
        StuckRun(s, FoldCount(Tail(log)) - 1, steps);
      }
    } else {
      var rs := seq(WINDOW + MAX_FOLD + 1, _ => Round(0, "-", 0, "", ""));
      NextFoldComesUnlessBlocked(log, rs);
      RoundsRun(log, rs);
    }
  }
}

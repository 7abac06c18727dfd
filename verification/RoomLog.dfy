/**
 * A room's event log and the queries over it: apps/api/src/events.ts. Events carry numbers of one global sequence,
 * so a room sees gaps; a query reads them in number order, which is here the order they became visible in.
 */
module RoomLog {
  import opened Prelude

  /** `fed` is history: the messages a summary's text was made from, its predecessors' included. */
  datatype Event =
    | Message(author: string, body: string)
    | RoomSummary(through: nat, count: nat, text: string, fed: seq<Entry>)
    | Other

  datatype Entry = Entry(seqNo: nat, event: Event)

  predicate Sorted(log: seq<Entry>) {
    && (forall i :: 0 <= i < |log| ==> log[i].seqNo >= 1)
    && (forall i, j :: 0 <= i < j < |log| ==> log[i].seqNo < log[j].seqNo)
  }

  function LastSeq(log: seq<Entry>): nat {
    if log == [] then 0 else log[|log| - 1].seqNo
  }

  function After(log: seq<Entry>, s: nat): seq<Entry> {
    if log == [] then []
    else
      var e := log[|log| - 1];
      After(log[..|log| - 1], s) + (if e.seqNo > s then [e] else [])
  }

  function UpTo(log: seq<Entry>, s: nat): seq<Entry> {
    if log == [] then []
    else
      var e := log[|log| - 1];
      UpTo(log[..|log| - 1], s) + (if e.seqNo <= s then [e] else [])
  }

  function Messages(log: seq<Entry>): seq<Entry> {
    if log == [] then []
    else
      var e := log[|log| - 1];
      Messages(log[..|log| - 1]) + (if e.event.Message? then [e] else [])
  }

  /** ORDER BY seq ASC LIMIT n. */
  function FirstN(a: seq<Entry>, n: nat): seq<Entry> {
    if |a| <= n then a else a[..n]
  }

  /** ORDER BY seq DESC LIMIT n, reversed. */
  function LastN(a: seq<Entry>, n: nat): seq<Entry> {
    if |a| <= n then a else a[|a| - n..]
  }

  function MessagesAfterSeq(log: seq<Entry>, after: nat, limit: nat): seq<Entry> {
    LastN(Messages(After(log, after)), limit)
  }

  function MessageBatchAfter(log: seq<Entry>, after: nat, limit: nat): seq<Entry> {
    FirstN(Messages(After(log, after)), limit)
  }

  function LatestRoomSummary(log: seq<Entry>): (latest: Option<Entry>)
    ensures latest.Some? ==> latest.value in log && latest.value.event.RoomSummary?
    ensures latest.None? ==> forall i :: 0 <= i < |log| ==> !log[i].event.RoomSummary?
  {
    if log == [] then None
    else if log[|log| - 1].event.RoomSummary? then Some(log[|log| - 1])
    else LatestRoomSummary(log[..|log| - 1])
  }

  function RoomWindowFloor(log: seq<Entry>): nat {
    match LatestRoomSummary(log)
    case None => 0
    case Some(summary) => summary.event.through
  }

  /** Migration 019's unique index: one summary per coverage point. */
  predicate HasSummaryAt(log: seq<Entry>, through: nat) {
    exists i :: 0 <= i < |log| && log[i].event.RoomSummary? && log[i].event.through == through
  }

  // ---------------------------------------------------------------- cutting a sorted log

  lemma {:induction false} CutAll(log: seq<Entry>, s: nat)
    requires Sorted(log) && LastSeq(log) <= s
    ensures UpTo(log, s) == log && After(log, s) == []
  {
    if log != [] {
      CutAll(log[..|log| - 1], s);
    }
  }

  /** A sorted log falls into what is at or below a number and what is past it. */
  lemma {:induction false} Cut(log: seq<Entry>, s: nat)
    requires Sorted(log)
    ensures UpTo(log, s) + After(log, s) == log
  {
    if log != [] {
      var init, e := log[..|log| - 1], log[|log| - 1];
      if e.seqNo <= s {
        CutAll(log, s);
      } else {
        Cut(init, s);
        assert log == init + [e];
      }
    }
  }

  lemma {:induction false} UpToBounds(log: seq<Entry>, s: nat)
    ensures forall i :: 0 <= i < |UpTo(log, s)| ==> UpTo(log, s)[i].seqNo <= s
    ensures forall i :: 0 <= i < |After(log, s)| ==> After(log, s)[i].seqNo > s
  {
    if log != [] {
      UpToBounds(log[..|log| - 1], s);
    }
  }

  lemma CutLength(log: seq<Entry>, s: nat, i: nat)
    requires Sorted(log) && i <= |log|
    requires (i > 0 ==> log[i - 1].seqNo <= s) && (i < |log| ==> s < log[i].seqNo)
    ensures |UpTo(log, s)| == i
  {
    Cut(log, s);
    UpToBounds(log, s);
    var k, low, high := |UpTo(log, s)|, UpTo(log, s), After(log, s);
    assert k > 0 ==> log[k - 1] == low[k - 1];
    assert k < |log| ==> log[k] == high[0];
    assert k > 0 ==> log[k - 1].seqNo <= s;
    assert k < |log| ==> log[k].seqNo > s;
  }

  /** The cut lies where the numbers pass `s`. */
  lemma CutAt(log: seq<Entry>, s: nat, i: nat)
    requires Sorted(log) && i <= |log|
    requires (i > 0 ==> log[i - 1].seqNo <= s) && (i < |log| ==> s < log[i].seqNo)
    ensures UpTo(log, s) == log[..i] && After(log, s) == log[i..]
  {
    Cut(log, s);
    CutLength(log, s, i);
    Halves(UpTo(log, s), After(log, s), log, i);
  }

  lemma Halves(a: seq<Entry>, b: seq<Entry>, c: seq<Entry>, k: nat)
    requires a + b == c && |a| == k
    ensures a == c[..k] && b == c[k..]
  {
  }

  lemma {:induction false} MessagesConcat(a: seq<Entry>, b: seq<Entry>)
    ensures Messages(a + b) == Messages(a) + Messages(b)
  {
    if b == [] {
      assert a + b == a;
    } else {
      var init := b[..|b| - 1];
      MessagesConcat(a, init);
      assert (a + b)[..|a + b| - 1] == a + init;
    }
  }

  lemma {:induction false} AfterConcat(a: seq<Entry>, b: seq<Entry>, s: nat)
    ensures After(a + b, s) == After(a, s) + After(b, s)
  {
    if b == [] {
      assert a + b == a;
    } else {
      AfterConcat(a, b[..|b| - 1], s);
      assert (a + b)[..|a + b| - 1] == a + b[..|b| - 1];
    }
  }

  lemma {:induction false} UpToConcat(a: seq<Entry>, b: seq<Entry>, s: nat)
    ensures UpTo(a + b, s) == UpTo(a, s) + UpTo(b, s)
  {
    if b == [] {
      assert a + b == a;
    } else {
      UpToConcat(a, b[..|b| - 1], s);
      assert (a + b)[..|a + b| - 1] == a + b[..|b| - 1];
    }
  }

  /** Selection keeps the order. */
  lemma {:induction false} MessagesSorted(log: seq<Entry>)
    requires Sorted(log)
    ensures Sorted(Messages(log)) && LastSeq(Messages(log)) <= LastSeq(log)
  {
    if log != [] {
      var init := log[..|log| - 1];
      MessagesSorted(init);
      LastIsLargest(Messages(init));
    }
  }

  lemma MessagesCutAppend(log: seq<Entry>, e: Entry, s: nat)
    requires UpTo(Messages(log), s) == Messages(UpTo(log, s)) && After(Messages(log), s) == Messages(After(log, s))
    ensures UpTo(Messages(log + [e]), s) == Messages(UpTo(log + [e], s))
    ensures After(Messages(log + [e]), s) == Messages(After(log + [e], s))
  {
    MessagesAppend(log, e);
    CutAppend(log, e, s);
    CutAppend(Messages(log), e, s);
    MessagesAppend(UpTo(log, s), e);
    MessagesAppend(After(log, s), e);
    if e.event.Message? {
      assert Messages(log + [e]) == Messages(log) + [e];
    } else {
      assert Messages(log + [e]) == Messages(log);
    }
  }

  /** Selecting messages and cutting commute. */
  lemma {:induction false} MessagesCut(log: seq<Entry>, s: nat)
    ensures UpTo(Messages(log), s) == Messages(UpTo(log, s)) && After(Messages(log), s) == Messages(After(log, s))
  {
    if log != [] {
      var init, e := log[..|log| - 1], log[|log| - 1];
      MessagesCut(init, s);
      MessagesCutAppend(init, e, s);
      assert init + [e] == log;
    }
  }

  lemma LastIsLargest(log: seq<Entry>)
    requires Sorted(log)
    ensures forall i :: 0 <= i < |log| ==> log[i].seqNo <= LastSeq(log)
  {
  }

  lemma MessagesSplit(log: seq<Entry>, s: nat)
    requires Sorted(log)
    ensures Messages(UpTo(log, s)) + Messages(After(log, s)) == Messages(log)
  {
    Cut(log, s);
    MessagesConcat(UpTo(log, s), After(log, s));
  }

  lemma CutAppend(log: seq<Entry>, e: Entry, s: nat)
    ensures UpTo(log + [e], s) == if e.seqNo <= s then UpTo(log, s) + [e] else UpTo(log, s)
    ensures After(log + [e], s) == if e.seqNo <= s then After(log, s) else After(log, s) + [e]
  {
    assert (log + [e])[..|log|] == log;
  }

  lemma MessagesAppend(log: seq<Entry>, e: Entry)
    ensures Messages(log + [e]) == Messages(log) + (if e.event.Message? then [e] else [])
  {
    assert (log + [e])[..|log|] == log;
  }

  lemma {:induction false} MessagesOnly(log: seq<Entry>)
    ensures forall e :: e in Messages(log) ==> e in log && e.event.Message?
  {
    if log != [] { MessagesOnly(log[..|log| - 1]); }
  }

  /** A batch read at `floor` moves the cut to its last message: it is exactly what lies between. */
  lemma BatchAdvances(log: seq<Entry>, floor: nat, limit: nat)
    requires Sorted(log) && limit >= 1 && Messages(After(log, floor)) != []
    ensures var batch := MessageBatchAfter(log, floor, limit);
      && batch != [] && |batch| == Min(limit, |Messages(After(log, floor))|)
      && floor < batch[|batch| - 1].seqNo <= LastSeq(log)
      && Messages(UpTo(log, batch[|batch| - 1].seqNo)) == Messages(UpTo(log, floor)) + batch
      && batch + Messages(After(log, batch[|batch| - 1].seqNo)) == Messages(After(log, floor))
  {
    var batch := MessageBatchAfter(log, floor, limit);
    var through := batch[|batch| - 1].seqNo;
    MessagesCut(log, floor);
    MessagesCut(log, through);
    MessagesSorted(log);
    UpToBounds(Messages(log), floor);
    PrefixOfTail(Messages(log), floor, |batch|);
    LastIsLargest(Messages(log));
  }

  lemma PrefixOfTail(all: seq<Entry>, floor: nat, n: nat)
    requires Sorted(all) && 1 <= n <= |After(all, floor)|
    ensures var batch := After(all, floor)[..n];
      && UpTo(all, batch[n - 1].seqNo) == UpTo(all, floor) + batch
      && batch + After(all, batch[n - 1].seqNo) == After(all, floor)
      && batch[n - 1] in all
  {
    Cut(all, floor);
    var low, high := UpTo(all, floor), After(all, floor);
    JoinedAt(low, high, all, n);
    CutAt(all, all[|low| + n - 1].seqNo, |low| + n);
  }

  lemma JoinedAt(a: seq<Entry>, b: seq<Entry>, c: seq<Entry>, n: nat)
    requires a + b == c && 1 <= n <= |b|
    ensures c[|a| + n - 1] == b[n - 1] && c[..|a| + n] == a + b[..n] && c[|a| + n..] == b[n..]
    ensures b[..n] + b[n..] == b
  {
  }

  /** The newest summary of a log is its last, so a later one is the one just appended. */
  lemma LatestAfterAppend(log: seq<Entry>, e: Entry)
    ensures LatestRoomSummary(log + [e]) == if e.event.RoomSummary? then Some(e) else LatestRoomSummary(log)
  {
    assert (log + [e])[..|log|] == log;
  }
}

/**
 * History paging: the route of apps/api/src/server.ts over `eventsAfter`, `eventsBefore`, `hasEventsBefore` and
 * `roomWindowFloor` of apps/api/src/events.ts. Each request reads the log as it is then; the room keeps growing.
 */
module History {
  import opened Prelude
  import opened RoomLog
  import Summaries

  const PAGE_DEFAULT: int := 60
  const PAGE_MAX: int := 200

  datatype Page = Page(events: seq<Entry>, hasOlder: bool)

  /** An absent, unreadable or zero limit is the default; a limit asked for is kept to 1 and 200. */
  function PageLimit(limit: Option<int>): (n: nat)
    ensures limit == None || limit == Some(0) ==> n == 60
    ensures limit.Some? && limit.value < 0 ==> n == 1
    ensures limit.Some? && 1 <= limit.value <= 200 ==> n == limit.value
    ensures limit.Some? && limit.value > 200 ==> n == 200
  {
    Min(Max(1, if limit.None? || limit.value == 0 then PAGE_DEFAULT else limit.value), PAGE_MAX)
  }

  function EventsBefore(log: seq<Entry>, before: int, limit: nat): seq<Entry> {
    LastN(if before <= 0 then [] else UpTo(log, before - 1), limit)
  }

  predicate HasEventsBefore(log: seq<Entry>, s: nat) {
    exists i :: 0 <= i < |log| && log[i].seqNo < s
  }

  function HistoryPage(log: seq<Entry>, before: Option<int>, limit: Option<int>): Page {
    var events :=
      match before
      case Some(cursor) => EventsBefore(log, cursor, PageLimit(limit))
      case None => After(log, RoomWindowFloor(log));
    Page(events, events != [] && HasEventsBefore(log, events[0].seqNo))
  }

  /** A later request: what the room had gained by then, and the limit asked for. */
  datatype Request = Request(grown: seq<Entry>, limit: Option<int>)

  /** A client pages back from what it holds while there is older history and it keeps asking. */
  function ReadBack(log: seq<Entry>, held: Page, requests: seq<Request>): Page
    requires held.events != []
    decreases |requests|
  {
    if !held.hasOlder || requests == [] then held
    else
      var page := HistoryPage(log + requests[0].grown, Some(held.events[0].seqNo), requests[0].limit);
      ReadBack(log, Page(page.events + held.events, page.hasOlder), requests[1..])
  }

  /** What is held is the end of the log, and the flag says whether that is all of it. */
  ghost predicate Suffix(log: seq<Entry>, held: Page) {
    && held.events != [] && |held.events| <= |log|
    && held.events == log[|log| - |held.events|..]
    && (held.hasOlder <==> |held.events| < |log|)
  }

  lemma OlderAt(log: seq<Entry>, k: nat)
    requires Sorted(log) && k < |log|
    ensures HasEventsBefore(log, log[k].seqNo) <==> k > 0
  {
    if k > 0 { assert log[0].seqNo < log[k].seqNo; }
  }

  /** A summary is later than all it covers, so past its floor there is at least itself: only an empty room has an
   *  empty first page. */
  lemma {:induction false} FirstPageIsSuffix(log: seq<Entry>, limit: Option<int>)
    requires Summaries.LogHolds(log)
    ensures log == [] ==> HistoryPage(log, None, limit) == Page([], false)
    ensures log != [] ==> Suffix(log, HistoryPage(log, None, limit))
  {
    if log != [] {
      var floor := RoomWindowFloor(log);
      FloorBelowLast(log);
      Cut(log, floor);
      Halves(UpTo(log, floor), After(log, floor), log, |UpTo(log, floor)|);
      assert After(log, floor) != [] by { UpToBounds(log, floor); }
      OlderAt(log, |log| - |After(log, floor)|);
    }
  }

  lemma FloorBelowLast(log: seq<Entry>)
    requires Summaries.LogHolds(log) && log != []
    ensures RoomWindowFloor(log) < LastSeq(log)
  {
    var latest := LatestRoomSummary(log);
    if latest.Some? {
      var i :| 0 <= i < |log| && log[i] == latest.value;
      assert Summaries.Faithful(log, log[i]);
    }
  }

  /** The page before the `k`th event is the `limit` events before it, whatever the room gained since. */
  lemma {:induction false} PageBefore(log: seq<Entry>, grown: seq<Entry>, k: nat, limit: Option<int>)
    requires Sorted(log + grown) && 0 < k < |log|
    ensures var from := Max(0, k - PageLimit(limit));
      HistoryPage(log + grown, Some(log[k].seqNo), limit) == Page(log[from..k], from > 0)
  {
    var all := log + grown;
    var from: nat := Max(0, k - PageLimit(limit));
    assert all[k] == log[k] && all[k - 1].seqNo < all[k].seqNo;
    CutAt(all, log[k].seqNo - 1, k);
    assert all[..k] == log[..k];
    assert EventsBefore(all, log[k].seqNo, PageLimit(limit)) == log[from..k];
    assert all[from] == log[from];
    OlderAt(all, from);
  }

  lemma SuffixGrows(log: seq<Entry>, held: Page, from: nat)
    requires Suffix(log, held) && from < |log| - |held.events|
    ensures Suffix(log, Page(log[from..|log| - |held.events|] + held.events, from > 0))
  {
    var k := |log| - |held.events|;
    assert log[from..k] + log[k..] == log[from..];
  }

  lemma {:induction false} ReadBackHolds(log: seq<Entry>, held: Page, requests: seq<Request>)
    requires Sorted(log) && Suffix(log, held)
    requires forall i :: 0 <= i < |requests| ==> Sorted(log + requests[i].grown)
    ensures var read := ReadBack(log, held, requests);
      && Suffix(log, read)
      && (read.hasOlder ==> |read.events| >= |held.events| + |requests|)
    decreases |requests|
  {
    if held.hasOlder && requests != [] {
      var k := |log| - |held.events|;
      var from: nat := Max(0, k - PageLimit(requests[0].limit));
      PageBefore(log, requests[0].grown, k, requests[0].limit);
      SuffixGrows(log, held, from);
      ReadBackHolds(log, Page(log[from..k] + held.events, from > 0), requests[1..]);
    }
  }

  /** Paging back to the end gives the whole log as it was at the first page, each event once and in order, for
   *  every limit asked for on the way and whatever was appended meanwhile; every page makes progress, so no more
   *  requests are needed than the log has events. */
  lemma {:induction false} PagingReadsTheWholeRoom(log: seq<Entry>, limit: Option<int>, requests: seq<Request>)
    requires Summaries.LogHolds(log) && log != []
    requires forall i :: 0 <= i < |requests| ==> Sorted(log + requests[i].grown)
    ensures var first := HistoryPage(log, None, limit);
      && first.events != []
      && (ReadBack(log, first, requests).events == log <==> !ReadBack(log, first, requests).hasOlder)
      && (|requests| >= |log| ==> ReadBack(log, first, requests) == Page(log, false))
  {
    var first := HistoryPage(log, None, limit);
    FirstPageIsSuffix(log, limit);
    ReadBackHolds(log, first, requests);
  }
}

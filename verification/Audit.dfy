/**
 * The tamper-evident audit chain: apps/api/src/audit.ts, with the hash scheme, the detached receipt and the
 * reconciler it shares with packages/receipt and packages/reconcile.
 *
 * SHA-256 over a canonical form is taken as a free constructor: two hashes are equal exactly when what was
 * hashed is, and the genesis marker is the hash of nothing. `Text` is any other string a tamperer may store.
 */
module Hashing {
  import opened Prelude

  /** A decision payload: the three fields a receipt displays, and everything else it commits to. */
  datatype Payload = Payload(decisionId: Option<string>, resolution: Option<string>, signedBy: Option<string>,
      rest: string)

  datatype EntryMeta = EntryMeta(roomId: string, actorId: string, event: string, sourceSeq: nat)

  datatype Hash =
    | Genesis
    | BodyHash(payload: Payload)
    | EntryHash(prev: Hash, body: Hash, meta: EntryMeta)
    | Text(text: string)
}

module Audit {
  import opened Prelude
  import opened Hashing

  /** A row of `events`; the table is listed in `seq` order, `seq` being its primary key. */
  datatype Event = Event(seqNo: nat, roomId: string, actorId: string, eventType: string, payload: Payload)

  /** A row of `audit_chain`, whose table is listed in `seq` order too. */
  datatype ChainRow = ChainRow(
    seqNo: nat, roomId: string, actorId: string, event: string, sourceSeq: nat,
    bodyHash: Hash, prevHash: Hash, entryHash: Hash)

  const COMMITMENT_EVENTS := ["decision", "decision.resolved"]

  predicate IsCommitment(e: Event) {
    e.eventType in COMMITMENT_EVENTS
  }

  ghost predicate Ordered(events: seq<Event>) {
    forall i, j :: 0 <= i < j < |events| ==> events[i].seqNo < events[j].seqNo
  }

  predicate Chained(chain: seq<ChainRow>, sourceSeq: nat) {
    exists i :: 0 <= i < |chain| && chain[i].sourceSeq == sourceSeq
  }

  function MetaOf(r: ChainRow): EntryMeta {
    EntryMeta(r.roomId, r.actorId, r.event, r.sourceSeq)
  }

  /** The newest entry hash, or the genesis marker. */
  function Head(chain: seq<ChainRow>): Hash {
    if chain == [] then Genesis else chain[|chain| - 1].entryHash
  }

  /** `auditRoot`: null for an empty chain. */
  function RootOf(chain: seq<ChainRow>): Option<Hash> {
    if chain == [] then None else Some(Head(chain))
  }

  /** SELECT ... FROM events WHERE seq = $1. */
  function Find(events: seq<Event>, s: nat): Option<Event> {
    if events == [] then None
    else if events[0].seqNo == s then Some(events[0])
    else Find(events[1..], s)
  }

  // ---------------------------------------------------------------- verification

  datatype Break = LinkBroken | RowEdited | SourceDeleted | EnvelopeTampered | BodyTampered

  predicate SameEnvelope(e: Event, r: ChainRow) {
    e.roomId == r.roomId && e.actorId == r.actorId && e.eventType == r.event
  }

  /** Row `i` is linked to the row before it, recomputes, and still describes its source event. */
  ghost predicate RowHolds(events: seq<Event>, chain: seq<ChainRow>, i: nat)
    requires i < |chain|
  {
    var r := chain[i];
    && r.prevHash == Head(chain[..i])
    && r.entryHash == EntryHash(r.prevHash, r.bodyHash, MetaOf(r))
    && Find(events, r.sourceSeq).Some?
    && SameEnvelope(Find(events, r.sourceSeq).value, r)
    && BodyHash(Find(events, r.sourceSeq).value.payload) == r.bodyHash
  }

  ghost predicate Holds(events: seq<Event>, chain: seq<ChainRow>) {
    forall i :: 0 <= i < |chain| ==> RowHolds(events, chain, i)
  }

  /** What `reason` says of row `i`: the first of the five checks that the row fails. */
  ghost predicate BreaksWith(events: seq<Event>, chain: seq<ChainRow>, i: nat, reason: Break)
    requires i < |chain|
  {
    var r := chain[i];
    var linked := r.prevHash == Head(chain[..i]);
    var recomputes := linked && r.entryHash == EntryHash(r.prevHash, r.bodyHash, MetaOf(r));
    var source := Find(events, r.sourceSeq);
    match reason
    case LinkBroken => !linked
    case RowEdited => linked && !recomputes
    case SourceDeleted => recomputes && source.None?
    case EnvelopeTampered => recomputes && source.Some? && !SameEnvelope(source.value, r)
    case BodyTampered =>
      recomputes && source.Some? && SameEnvelope(source.value, r) && BodyHash(source.value.payload) != r.bodyHash
  }

  ghost predicate BreaksFirstAt(events: seq<Event>, chain: seq<ChainRow>, i: nat, reason: Break)
    requires i < |chain|
  {
    BreaksWith(events, chain, i, reason) && forall j :: 0 <= j < i ==> RowHolds(events, chain, j)
  }

  datatype VerifyResult = VerifyResult(ok: bool, entries: nat, root: Option<Hash>, brokenAt: Option<nat>,
      reason: Option<Break>)

  /** `verifyAuditChain`: accepts exactly the chains that hold, and names the first row that does not. */
  method VerifyAuditChain(events: seq<Event>, chain: seq<ChainRow>) returns (v: VerifyResult)
    ensures v.ok <==> Holds(events, chain)
    ensures v.entries == |chain|
    ensures v.ok ==> v.root == RootOf(chain) && v.brokenAt.None? && v.reason.None?
    ensures !v.ok ==> v.root.None? && v.brokenAt.Some? && v.reason.Some?
    ensures !v.ok ==>
              exists i ::
                0 <= i < |chain| && v.brokenAt.value == chain[i].seqNo
                && BreaksFirstAt(events, chain, i, v.reason.value)
  {
    var prev := Genesis;
    for i := 0 to |chain|
      invariant prev == Head(chain[..i])
      invariant forall j :: 0 <= j < i ==> RowHolds(events, chain, j)
    {
      var r := chain[i];
      var source := Find(events, r.sourceSeq);
      var reason :=
        if r.prevHash != prev then Some(LinkBroken)
        else if EntryHash(r.prevHash, r.bodyHash, MetaOf(r)) != r.entryHash then Some(RowEdited)
        else if source.None? then Some(SourceDeleted)
        else if !SameEnvelope(source.value, r) then Some(EnvelopeTampered)
        else if BodyHash(source.value.payload) != r.bodyHash then Some(BodyTampered)
        else None;
      if reason.Some? {
        assert BreaksFirstAt(events, chain, i, reason.value) && !RowHolds(events, chain, i);
        return VerifyResult(false, |chain|, None, Some(r.seqNo), reason);
      }
      assert RowHolds(events, chain, i);
      prev := r.entryHash;
    }
    assert chain[..|chain|] == chain;
    return VerifyResult(true, |chain|, if |chain| == 0 then None else Some(prev), None, None);
  }

  // ---------------------------------------------------------------- root binding

  /** Two rows agree on everything but their own `seq`. */
  ghost predicate SameRow(a: ChainRow, b: ChainRow) {
    a == b.(seqNo := a.seqNo)
  }

  /** Two stores record the same commitments: the same rows in the same order over the same source events. */
  ghost predicate SameRecord(e1: seq<Event>, c1: seq<ChainRow>, e2: seq<Event>, c2: seq<ChainRow>) {
    && |c1| == |c2|
    && forall i :: 0 <= i < |c1| ==>
         && SameRow(c1[i], c2[i])
         && Find(e1, c1[i].sourceSeq) == Find(e2, c1[i].sourceSeq)
  }

  lemma {:induction false} FindSeq(events: seq<Event>, s: nat)
    ensures Find(events, s).Some? ==> Find(events, s).value in events && Find(events, s).value.seqNo == s
  {
    if events != [] { FindSeq(events[1..], s); }
  }

  /** A prefix of a chain that holds, holds. */
  lemma PrefixHolds(events: seq<Event>, chain: seq<ChainRow>, n: nat)
    requires Holds(events, chain) && n <= |chain|
    ensures Holds(events, chain[..n])
  {
    forall i | 0 <= i < n ensures RowHolds(events, chain[..n], i) {
      assert chain[..n][..i] == chain[..i];
      assert RowHolds(events, chain, i);
    }
  }

  /** The root of a verified chain fixes every row and every source event: nothing under it can be edited,
   *  inserted, removed or reordered without the root changing or the check failing. */
  lemma {:induction false} RootBinding(e1: seq<Event>, c1: seq<ChainRow>, e2: seq<Event>, c2: seq<ChainRow>)
    requires Holds(e1, c1) && Holds(e2, c2)
    requires RootOf(c1) == RootOf(c2)
    ensures SameRecord(e1, c1, e2, c2)
    decreases |c1|
  {
    if c1 != [] {
      var m, n := |c1| - 1, |c2| - 1;
      assert RowHolds(e1, c1, m) && RowHolds(e2, c2, n);
      FindSeq(e1, c1[m].sourceSeq);
      FindSeq(e2, c2[n].sourceSeq);
      PrefixHolds(e1, c1, m);
      PrefixHolds(e2, c2, n);
      HeadIsRoot(e1, c1[..m]);
      HeadIsRoot(e2, c2[..n]);
      RootBinding(e1, c1[..m], e2, c2[..n]);
      assert c1 == c1[..m] + [c1[m]] && c2 == c2[..n] + [c2[n]];
    }
  }

  /** The genesis marker is no entry's hash, so a held chain's head tells an empty chain from the rest. */
  lemma HeadIsRoot(events: seq<Event>, chain: seq<ChainRow>)
    requires Holds(events, chain)
    ensures Head(chain) == Genesis <==> chain == []
    ensures chain != [] ==> RootOf(chain) == Some(Head(chain))
  {
    if chain != [] {
      assert RowHolds(events, chain, |chain| - 1);
    }
  }

  /** What the walk alone cannot see: a chain cut short still verifies. The root tells it apart exactly when
   *  something was cut. */
  lemma TruncationVerifiesUnderAnotherRoot(events: seq<Event>, chain: seq<ChainRow>, n: nat)
    requires Holds(events, chain) && n <= |chain|
    ensures Holds(events, chain[..n])
    ensures RootOf(chain[..n]) == RootOf(chain) <==> n == |chain|
  {
    PrefixHolds(events, chain, n);
    if RootOf(chain[..n]) == RootOf(chain) {
      RootBinding(events, chain[..n], events, chain);
    }
    assert n == |chain| ==> chain[..n] == chain;
  }

  // ---------------------------------------------------------------- anchoring

  /** The anti-join: commitment events with no chain row yet, in `seq` order. */
  function Pending(events: seq<Event>, chain: seq<ChainRow>): seq<Event> {
    if events == [] then []
    else if IsCommitment(events[0]) && !Chained(chain, events[0].seqNo) then [events[0]] + Pending(events[1..], chain)
    else Pending(events[1..], chain)
  }

  function Link(prev: Hash, e: Event, rowSeq: nat): ChainRow {
    var body := BodyHash(e.payload);
    ChainRow(rowSeq, e.roomId, e.actorId, e.eventType, e.seqNo, body, prev,
             EntryHash(prev, body, EntryMeta(e.roomId, e.actorId, e.eventType, e.seqNo)))
  }

  function Extend(chain: seq<ChainRow>, pending: seq<Event>, nextRow: nat): seq<ChainRow>
    decreases |pending|
  {
    if pending == [] then chain
    else Extend(chain + [Link(Head(chain), pending[0], nextRow)], pending[1..], nextRow + 1)
  }

  /** A table row becoming visible takes its place by `seq`, however late it commits. */
  function InsertInOrder(events: seq<Event>, e: Event): seq<Event> {
    if events == [] || e.seqNo < events[0].seqNo then [e] + events
    else [events[0]] + InsertInOrder(events[1..], e)
  }

  /** The store, and the transactions that hold a sequence number but have not committed. */
  datatype World = World(inFlight: map<nat, Event>, nextSeq: nat, events: seq<Event>, chain: seq<ChainRow>,
      nextRow: nat)

  const EMPTY := World(map[], 1, [], [], 1)

  datatype Step =
    | Insert(roomId: string, actorId: string, eventType: string, payload: Payload)
    | Commit(seqNo: nat)
    | Rollback(seqNo: nat)
    | Anchor

  function Apply(w: World, step: Step): World {
    match step
    case Insert(room, actor, kind, payload) =>
      w.(inFlight := w.inFlight[w.nextSeq := Event(w.nextSeq, room, actor, kind, payload)], nextSeq := w.nextSeq + 1)
    case Commit(s) =>
      if s in w.inFlight then w.(inFlight := w.inFlight - {s}, events := InsertInOrder(w.events, w.inFlight[s])) else w
    case Rollback(s) => w.(inFlight := w.inFlight - {s})
    case Anchor =>
      var pending := Pending(w.events, w.chain);
      w.(chain := Extend(w.chain, pending, w.nextRow), nextRow := w.nextRow + |pending|)
  }

  function Run(w: World, steps: seq<Step>): World
    decreases |steps|
  {
    if steps == [] then w else Run(Apply(w, steps[0]), steps[1..])
  }

  /** No source event has two rows. */
  ghost predicate ChainedOnce(chain: seq<ChainRow>) {
    forall i, j :: 0 <= i < j < |chain| ==> chain[i].sourceSeq != chain[j].sourceSeq
  }

  /** Rows are numbered in the order they were chained. */
  ghost predicate Numbered(chain: seq<ChainRow>, nextRow: nat) {
    && (forall i :: 0 <= i < |chain| ==> chain[i].seqNo < nextRow)
    && (forall i, j :: 0 <= i < j < |chain| ==> chain[i].seqNo < chain[j].seqNo)
  }

  /** What every interleaving keeps. */
  ghost predicate Sound(w: World) {
    && Ordered(w.events)
    && (forall i :: 0 <= i < |w.events| ==> w.events[i].seqNo < w.nextSeq && w.events[i].seqNo !in w.inFlight)
    && (forall s :: s in w.inFlight ==> s < w.nextSeq && w.inFlight[s].seqNo == s)
    && Holds(w.events, w.chain)
    && ChainedOnce(w.chain)
    && Numbered(w.chain, w.nextRow)
    && (forall i :: 0 <= i < |w.chain| ==> w.chain[i].event in COMMITMENT_EVENTS)
  }

  lemma {:induction false} InsertInOrderKeeps(events: seq<Event>, e: Event)
    requires Ordered(events)
    requires forall i :: 0 <= i < |events| ==> events[i].seqNo != e.seqNo
    ensures Ordered(InsertInOrder(events, e))
    ensures forall x :: x in InsertInOrder(events, e) <==> x == e || x in events
    ensures forall s :: Find(InsertInOrder(events, e), s) == if s == e.seqNo then Some(e) else Find(events, s)
  {
    if events == [] {
    } else if e.seqNo < events[0].seqNo {
      FindAbsent(events, e.seqNo);
      assert InsertInOrder(events, e)[1..] == events;
    } else {
      var rest := InsertInOrder(events[1..], e);
      InsertInOrderKeeps(events[1..], e);
      assert forall x :: x in events <==> x == events[0] || x in events[1..];
      forall i | 0 <= i < |rest| ensures events[0].seqNo < rest[i].seqNo {
        assert rest[i] in rest;
      }
      assert InsertInOrder(events, e)[1..] == rest;
    }
  }

  lemma {:induction false} InsertedIsThere(events: seq<Event>, e: Event)
    ensures forall x :: x in InsertInOrder(events, e) <==> x == e || x in events
  {
    if events != [] && e.seqNo >= events[0].seqNo {
      InsertedIsThere(events[1..], e);
      assert forall x :: x in events <==> x == events[0] || x in events[1..];
    }
  }

  lemma {:induction false} FindAbsent(events: seq<Event>, s: nat)
    requires forall i :: 0 <= i < |events| ==> events[i].seqNo != s
    ensures Find(events, s).None?
  {
    if events != [] { FindAbsent(events[1..], s); }
  }

  lemma {:induction false} FindPresent(events: seq<Event>, i: nat)
    requires Ordered(events) && i < |events|
    ensures Find(events, events[i].seqNo) == Some(events[i])
  {
    if i > 0 {
      FindPresent(events[1..], i - 1);
    }
  }

  lemma {:induction false} PendingMembers(events: seq<Event>, chain: seq<ChainRow>)
    ensures forall e :: e in Pending(events, chain) <==> e in events && IsCommitment(e) && !Chained(chain, e.seqNo)
  {
    if events != [] {
      PendingMembers(events[1..], chain);
      assert forall x :: x in events <==> x == events[0] || x in events[1..];
    }
  }

  /** The anti-join returns each unchained commitment once, in number order, and nothing else. */
  lemma {:induction false} PendingIsExact(events: seq<Event>, chain: seq<ChainRow>)
    requires Ordered(events)
    ensures forall e :: e in Pending(events, chain) <==> e in events && IsCommitment(e) && !Chained(chain, e.seqNo)
    ensures Ordered(Pending(events, chain))
  {
    PendingMembers(events, chain);
    if events != [] {
      var rest := Pending(events[1..], chain);
      PendingIsExact(events[1..], chain);
      forall i | 0 <= i < |rest| ensures events[0].seqNo < rest[i].seqNo { assert rest[i] in events[1..]; }
    }
  }

  /** Chaining unchained commitments keeps every property of the chain and adds exactly those. */
  lemma {:induction false} ExtendKeeps(events: seq<Event>, chain: seq<ChainRow>, pending: seq<Event>, nextRow: nat)
    requires Holds(events, chain) && ChainedOnce(chain)
    requires Ordered(pending)
    requires forall i :: 0 <= i < |pending| ==>
               && IsCommitment(pending[i]) && !Chained(chain, pending[i].seqNo)
               && Find(events, pending[i].seqNo) == Some(pending[i])
    requires forall i :: 0 <= i < |chain| ==> chain[i].event in COMMITMENT_EVENTS
    ensures Holds(events, Extend(chain, pending, nextRow)) && ChainedOnce(Extend(chain, pending, nextRow))
    ensures chain <= Extend(chain, pending, nextRow)
    ensures |Extend(chain, pending, nextRow)| == |chain| + |pending|
    ensures forall i :: 0 <= i < |pending| ==>
            Extend(chain, pending, nextRow)[|chain| + i].sourceSeq == pending[i].seqNo
    ensures forall i :: 0 <= i < |Extend(chain, pending, nextRow)| ==>
            Extend(chain, pending, nextRow)[i].event in COMMITMENT_EVENTS
    decreases |pending|
  {
    if pending != [] {
      var longer := chain + [Link(Head(chain), pending[0], nextRow)];
      forall i | 0 <= i < |longer| ensures RowHolds(events, longer, i) {
        if i < |chain| {
          assert RowHolds(events, chain, i);
          assert longer[..i] == chain[..i];
        } else {
          assert longer[..i] == chain;
        }
      }
      forall i, j | 0 <= i < j < |longer| ensures longer[i].sourceSeq != longer[j].sourceSeq {
        if j == |chain| { assert !Chained(chain, pending[0].seqNo); }
      }
      forall i | 0 <= i < |pending[1..]| ensures !Chained(longer, pending[1..][i].seqNo) {
        assert !Chained(chain, pending[i + 1].seqNo);
        assert pending[0].seqNo < pending[i + 1].seqNo;
      }
      ExtendKeeps(events, longer, pending[1..], nextRow + 1);
    }
  }

  lemma {:induction false} ExtendNumbers(chain: seq<ChainRow>, pending: seq<Event>, nextRow: nat)
    requires Numbered(chain, nextRow)
    ensures Numbered(Extend(chain, pending, nextRow), nextRow + |pending|)
    decreases |pending|
  {
    if pending != [] { ExtendNumbers(chain + [Link(Head(chain), pending[0], nextRow)], pending[1..], nextRow + 1); }
  }

  /** Pending rows meet what `Extend` needs of them. */
  lemma PendingIsReady(w: World)
    requires Sound(w)
    ensures Ordered(Pending(w.events, w.chain))
    ensures forall e :: e in Pending(w.events, w.chain) ==>
              IsCommitment(e) && !Chained(w.chain, e.seqNo) && Find(w.events, e.seqNo) == Some(e)
  {
    PendingIsExact(w.events, w.chain);
    forall e | e in Pending(w.events, w.chain) ensures Find(w.events, e.seqNo) == Some(e) {
      var k :| 0 <= k < |w.events| && w.events[k] == e;
      FindPresent(w.events, k);
    }
  }

  lemma AnchorKeeps(w: World)
    requires Sound(w)
    ensures Sound(Apply(w, Anchor))
    ensures w.chain <= Apply(w, Anchor).chain
  {
    var pending := Pending(w.events, w.chain);
    PendingIsReady(w);
    ExtendKeeps(w.events, w.chain, pending, w.nextRow);
    ExtendNumbers(w.chain, pending, w.nextRow);
  }

  lemma AnchorCovers(w: World, e: Event)
    requires Sound(w) && e in w.events && IsCommitment(e)
    ensures Chained(Apply(w, Anchor).chain, e.seqNo)
  {
    var pending, chain := Pending(w.events, w.chain), Apply(w, Anchor).chain;
    PendingIsReady(w);
    ExtendKeeps(w.events, w.chain, pending, w.nextRow);
    if Chained(w.chain, e.seqNo) {
      LongerStaysChained(w.chain, chain, e.seqNo);
    } else {
      assert e in pending by { PendingIsExact(w.events, w.chain); }
      var i :| 0 <= i < |pending| && pending[i] == e;
      ChainedBy(chain, |w.chain| + i);
    }
  }

  lemma ChainedBy(chain: seq<ChainRow>, i: nat)
    requires i < |chain|
    ensures Chained(chain, chain[i].sourceSeq)
  {
  }

  lemma LongerStaysChained(chain: seq<ChainRow>, longer: seq<ChainRow>, s: nat)
    requires chain <= longer && Chained(chain, s)
    ensures Chained(longer, s)
  {
    var i :| 0 <= i < |chain| && chain[i].sourceSeq == s;
    assert longer[i] == chain[i];
  }

  lemma {:induction false} NothingPending(events: seq<Event>, chain: seq<ChainRow>)
    requires forall e :: e in events && IsCommitment(e) ==> Chained(chain, e.seqNo)
    ensures Pending(events, chain) == []
  {
    if events != [] {
      assert events[0] in events;
      NothingPending(events[1..], chain);
    }
  }

  lemma StepKeeps(w: World, step: Step)
    requires Sound(w)
    ensures Sound(Apply(w, step)) && w.chain <= Apply(w, step).chain
  {
    match step
    case Insert(_, _, _, _) =>
    case Rollback(_) =>
    case Anchor => AnchorKeeps(w);
    case Commit(s) =>
      if s in w.inFlight {
        var after := Apply(w, step);
        InsertInOrderKeeps(w.events, w.inFlight[s]);
        forall i | 0 <= i < |after.events| ensures after.events[i].seqNo < w.nextSeq
            && after.events[i].seqNo !in after.inFlight {
          assert after.events[i] in after.events;
        }
        forall i | 0 <= i < |w.chain| ensures RowHolds(after.events, w.chain, i) {
          assert RowHolds(w.events, w.chain, i);
          FindSeq(w.events, w.chain[i].sourceSeq);
        }
      }
  }

  lemma {:induction false} RunKeeps(w: World, steps: seq<Step>)
    requires Sound(w)
    ensures Sound(Run(w, steps)) && w.chain <= Run(w, steps).chain
    decreases |steps|
  {
    if steps != [] {
      StepKeeps(w, steps[0]);
      RunKeeps(Apply(w, steps[0]), steps[1..]);
    }
  }

  /** A visible decision, or resolution of one, numbered `s`. */
  ghost predicate Committed(events: seq<Event>, s: nat) {
    exists e :: e in events && e.seqNo == s && (e.eventType == "decision" || e.eventType == "decision.resolved")
  }

  lemma ChainedIsCommitted(w: World, s: nat)
    requires Sound(w) && Chained(w.chain, s)
    ensures Committed(w.events, s)
  {
    var i :| 0 <= i < |w.chain| && w.chain[i].sourceSeq == s;
    assert RowHolds(w.events, w.chain, i);
    FindSeq(w.events, s);
  }

  lemma AnchorChainsExactly(w: World, s: nat)
    requires Sound(w)
    ensures Chained(Apply(w, Anchor).chain, s) <==> Committed(w.events, s)
  {
    AnchorKeeps(w);
    if Committed(w.events, s) {
      var e :| e in w.events && e.seqNo == s && (e.eventType == "decision" || e.eventType == "decision.resolved");
      AnchorCovers(w, e);
    }
    if Chained(Apply(w, Anchor).chain, s) { ChainedIsCommitted(Apply(w, Anchor), s); }
  }

  lemma SecondAnchorAddsNothing(w: World)
    requires Sound(w)
    ensures Apply(Apply(w, Anchor), Anchor) == Apply(w, Anchor)
  {
    forall e | e in w.events && IsCommitment(e) ensures Chained(Apply(w, Anchor).chain, e.seqNo) { AnchorCovers(w, e); }
    NothingPending(w.events, Apply(w, Anchor).chain);
  }

  /** Whatever order inserts, late commits, rollbacks and anchors come in: the chain verifies, its rows are numbered as
   *  chained, no commitment is chained twice, only commitments are; one more anchor leaves every visible commitment
   *  chained and is then a no-op; and no later run disturbs a row already chained. */
  lemma NoCommitmentLostOrDoubled(steps: seq<Step>, more: seq<Step>)
    ensures var w := Run(EMPTY, steps); var anchored := Apply(w, Anchor);
            && Holds(w.events, w.chain) && ChainedOnce(w.chain) && Numbered(w.chain, w.nextRow)
            && (forall s: nat :: Chained(anchored.chain, s) <==> Committed(w.events, s))
            && Apply(anchored, Anchor) == anchored
            && w.chain <= Run(w, more).chain
  {
    var w := Run(EMPTY, steps);
    RunKeeps(EMPTY, steps);
    RunKeeps(w, more);
    forall s: nat { AnchorChainsExactly(w, s); }
    SecondAnchorAddsNothing(w);
  }

  lemma {:induction false} RunConcat(w: World, a: seq<Step>, b: seq<Step>)
    ensures Run(w, a + b) == Run(Run(w, a), b)
    decreases |a|
  {
    if a == [] {
      assert a + b == b;
    } else {
      assert (a + b)[1..] == a[1..] + b;
      RunConcat(Apply(w, a[0]), a[1..], b);
    }
  }

  lemma RunOne(w: World, step: Step)
    ensures Run(w, [step]) == Apply(w, step)
  {
    assert [step][1..] == [];
    assert Run(Apply(w, step), []) == Apply(w, step);
  }

  /** The first decision of a store, from its insert to its row: linked to the genesis marker, its payload hashed, its
   *  envelope copied; an anchor before the commit chains nothing. */
  lemma FirstDecisionIsChained(room: string, actor: string, payload: Payload)
    ensures Run(EMPTY, [Insert(room, actor, "decision", payload)] + [Anchor]).chain == []
    ensures Run(EMPTY, [Insert(room, actor, "decision", payload)] + [Commit(1)] + [Anchor]).chain
         == [ChainRow(1, room, actor, "decision", 1, BodyHash(payload), Genesis,
                      EntryHash(Genesis, BodyHash(payload), EntryMeta(room, actor, "decision", 1)))]
  {
    var insert := Insert(room, actor, "decision", payload);
    var inserted := Apply(EMPTY, insert);
    RunConcat(EMPTY, [insert], [Anchor]);
    RunConcat(EMPTY, [insert] + [Commit(1)], [Anchor]);
    RunConcat(EMPTY, [insert], [Commit(1)]);
    RunOne(EMPTY, insert);
    RunOne(inserted, Anchor);
    RunOne(inserted, Commit(1));
    RunOne(Apply(inserted, Commit(1)), Anchor);
    OnePending(Event(1, room, actor, "decision", payload));
  }

  lemma OnePending(e: Event)
    requires e.eventType == "decision"
    ensures Pending([e], []) == [e] && Extend([], [e], 1) == [Link(Genesis, e, 1)]
  {
    assert [e][1..] == [] && [e] + Pending([], []) == [e];
    assert Extend([] + [Link(Genesis, e, 1)], [], 2) == [Link(Genesis, e, 1)];
  }

  // ---------------------------------------------------------------- the store

  class AuditStore {
    var inFlight: map<nat, Event>
    var nextSeq: nat
    var events: seq<Event>
    var chain: seq<ChainRow>
    var nextRow: nat

    function State(): World
      reads this
    {
      World(inFlight, nextSeq, events, chain, nextRow)
    }

    constructor ()
      ensures State() == EMPTY
    {
      inFlight, nextSeq, events, chain, nextRow := map[], 1, [], [], 1;
    }

    /** An INSERT takes its sequence number at once; nobody else sees the row yet. */
    method InsertEvent(roomId: string, actorId: string, eventType: string, payload: Payload) returns (s: nat)
      modifies this
      ensures s == old(nextSeq)
      ensures State() == Apply(old(State()), Insert(roomId, actorId, eventType, payload))
      ensures inFlight == old(inFlight)[s := Event(s, roomId, actorId, eventType, payload)] && nextSeq == s + 1
      ensures events == old(events) && chain == old(chain)
    {
      s := nextSeq;
      inFlight := inFlight[s := Event(s, roomId, actorId, eventType, payload)];
      nextSeq := nextSeq + 1;
    }

    method CommitEvent(s: nat)
      modifies this
      ensures State() == Apply(old(State()), Commit(s))
      ensures inFlight == old(inFlight) - {s} && chain == old(chain)
      ensures forall e :: e in events <==> e in old(events) || (s in old(inFlight) && e == old(inFlight)[s])
      ensures Sound(old(State())) ==> Ordered(events)
    {
      if s in inFlight {
        if Sound(State()) { InsertInOrderKeeps(events, inFlight[s]); }
        InsertedIsThere(events, inFlight[s]);
        events := InsertInOrder(events, inFlight[s]);
        inFlight := inFlight - {s};
      }
    }

    method RollbackEvent(s: nat)
      modifies this
      ensures State() == Apply(old(State()), Rollback(s))
      ensures inFlight == old(inFlight) - {s} && events == old(events) && chain == old(chain)
    {
      inFlight := inFlight - {s};
    }

    /** `chainCommitmentEvents`, one transaction under the advisory lock. */
    method ChainCommitmentEvents() returns (appended: nat, root: Option<Hash>)
      modifies this
      ensures State() == Apply(old(State()), Anchor)
      ensures appended == |chain| - |old(chain)|
      ensures Holds(old(events), old(chain)) ==> root == RootOf(chain)
      ensures root == if Head(chain) == Genesis then None else Some(Head(chain))
    {
      var prev := Head(chain);
      var rows := Pending(events, chain);
      appended := 0;
      for i := 0 to |rows|
        invariant events == old(events) && inFlight == old(inFlight) && nextSeq == old(nextSeq)
        invariant prev == Head(chain)
        invariant appended == i && |chain| == |old(chain)| + i && nextRow == old(nextRow) + i
        invariant Extend(chain, rows[i..], nextRow) == Extend(old(chain), rows, old(nextRow))
        invariant i > 0 ==> prev.EntryHash?
        invariant i == 0 ==> chain == old(chain)
      {
        assert rows[i..][0] == rows[i] && rows[i..][1..] == rows[i + 1..];
        var entry := Link(prev, rows[i], nextRow);
        chain := chain + [entry];
        nextRow := nextRow + 1;
        prev := entry.entryHash;
        appended := appended + 1;
      }
      root := if prev == Genesis then None else Some(prev);
      if Holds(old(events), old(chain)) {
        HeadIsRoot(old(events), old(chain));
      }
    }
  }
}

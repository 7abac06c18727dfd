/**
 * Detached receipts and chain reconciliation: `detachedReceiptForDecision` in apps/api/src/audit.ts,
 * packages/receipt/src/receipt.ts and packages/reconcile/src/reconcile.ts.
 */
module Receipts {
  import opened Prelude
  import opened Hashing
  import opened Audit

  datatype ChainLink = ChainLink(prevHash: Hash, bodyHash: Hash, entryHash: Hash, meta: EntryMeta)

  datatype DetachedReceipt = DetachedReceipt(
    decisionId: string, resolution: Option<string>, signedBy: Option<string>,
    sourcePayload: Payload, meta: EntryMeta, bodyHash: Hash, prevHash: Hash, entryHash: Hash,
    root: Hash, path: seq<ChainLink>)

  function LinkOf(r: ChainRow): ChainLink {
    ChainLink(r.prevHash, r.bodyHash, r.entryHash, MetaOf(r))
  }

  function Links(chain: seq<ChainRow>): seq<ChainLink> {
    seq(|chain|, i requires 0 <= i < |chain| => LinkOf(chain[i]))
  }

  /** The newest resolution of a decision: ORDER BY seq DESC LIMIT 1. */
  function LastResolution(events: seq<Event>, decisionId: string): Option<Event> {
    if events == [] then None
    else
      var e := events[|events| - 1];
      if e.eventType == "decision.resolved" && e.payload.decisionId == Some(decisionId) then Some(e)
      else LastResolution(events[..|events| - 1], decisionId)
  }

  function RowOf(chain: seq<ChainRow>, sourceSeq: nat): Option<nat> {
    if chain == [] then None
    else if chain[0].sourceSeq == sourceSeq then Some(0)
    else match RowOf(chain[1..], sourceSeq)
      case None => None
      case Some(k) => Some(k + 1)
  }

  /** `detachedReceiptForDecision`; `members` holds the (room, member) pairs enrolled. */
  function ReceiptFor(events: seq<Event>, chain: seq<ChainRow>, members: set<(string, string)>, decisionId: string,
      memberId: string)
    : Option<DetachedReceipt>
  {
    match LastResolution(events, decisionId)
    case None => None
    case Some(e) =>
      if (e.roomId, memberId) !in members then None
      else match RowOf(chain, e.seqNo)
        case None => None
        case Some(k) =>
          RowInRange(chain, e.seqNo);
          var path := Links(chain[k..]);
          Some(DetachedReceipt(
                 decisionId, e.payload.resolution, e.payload.signedBy, e.payload,
                 path[0].meta, path[0].bodyHash, path[0].prevHash, path[0].entryHash, path[|path| - 1].entryHash, path))
  }

  lemma {:induction false} RowInRange(chain: seq<ChainRow>, s: nat)
    ensures RowOf(chain, s).Some? ==> RowOf(chain, s).value < |chain| && chain[RowOf(chain, s).value].sourceSeq == s
    ensures RowOf(chain, s).None? <==> !Chained(chain, s)
  {
    if chain != [] {
      RowInRange(chain[1..], s);
      if Chained(chain, s) && chain[0].sourceSeq != s {
        var i :| 0 <= i < |chain| && chain[i].sourceSeq == s;
        assert chain[1..][i - 1].sourceSeq == s;
      }
      if Chained(chain[1..], s) {
        var i :| 0 <= i < |chain[1..]| && chain[1..][i].sourceSeq == s;
        assert chain[i + 1].sourceSeq == s;
      }
    }
  }

  // ---------------------------------------------------------------- the open verifier

  datatype Checks = Checks(body: bool, entry: bool, chain: bool, outcome: bool)

  datatype Outcome = Outcome(decisionId: Option<string>, resolution: Option<string>, signedBy: Option<string>)

  datatype ReceiptVerdict = ReceiptVerdict(ok: bool, checks: Checks, root: Hash, outcome: Option<Outcome>)

  /** Every link recomputes and follows the one before it. */
  ghost predicate Walks(path: seq<ChainLink>) {
    forall i :: 0 <= i < |path| ==>
      && path[i].entryHash == EntryHash(path[i].prevHash, path[i].bodyHash, path[i].meta)
      && (i > 0 ==> path[i].prevHash == path[i - 1].entryHash)
  }

  ghost predicate PathReaches(r: DetachedReceipt) {
    && r.path != []
    && r.path[0].entryHash == r.entryHash
    && Walks(r.path)
    && r.path[|r.path| - 1].entryHash == r.root
  }

  ghost predicate OutcomeCommitted(r: DetachedReceipt) {
    r.sourcePayload.decisionId == Some(r.decisionId) && r.sourcePayload.resolution == r.resolution
        && r.sourcePayload.signedBy == r.signedBy
  }

  ghost predicate SelfConsistent(r: DetachedReceipt) {
    && BodyHash(r.sourcePayload) == r.bodyHash
    && r.entryHash == EntryHash(r.prevHash, r.bodyHash, r.meta)
    && PathReaches(r)
    && OutcomeCommitted(r)
  }

  /** `verifyDetachedReceipt`. The checks run in order and a failed one leaves the later ones false; the outcome
   *  handed back is read from the hashed payload. */
  method VerifyDetachedReceipt(r: DetachedReceipt) returns (v: ReceiptVerdict)
    ensures v.ok <==> SelfConsistent(r)
    ensures v.root == r.root
    ensures v.checks.body <==> BodyHash(r.sourcePayload) == r.bodyHash
    ensures v.checks.entry <==> v.checks.body && r.entryHash == EntryHash(r.prevHash, r.bodyHash, r.meta)
    ensures v.checks.chain <==> v.checks.entry && PathReaches(r)
    ensures v.checks.outcome <==> v.ok
    ensures v.outcome == if v.ok
            then Some(Outcome(r.sourcePayload.decisionId, r.sourcePayload.resolution, r.sourcePayload.signedBy))
                else None
  {
    var checks := Checks(false, false, false, false);
    checks := checks.(body := BodyHash(r.sourcePayload) == r.bodyHash);
    if !checks.body {
      return ReceiptVerdict(false, checks, r.root, None);
    }
    checks := checks.(entry := EntryHash(r.prevHash, r.bodyHash, r.meta) == r.entryHash);
    if !checks.entry {
      return ReceiptVerdict(false, checks, r.root, None);
    }
    if |r.path| == 0 || r.path[0].entryHash != r.entryHash {
      return ReceiptVerdict(false, checks, r.root, None);
    }
    var prev := r.path[0].prevHash;
    var last := Text("");
    for i := 0 to |r.path|
      invariant i > 0 ==> prev == last == r.path[i - 1].entryHash
      invariant i == 0 ==> prev == r.path[0].prevHash
      invariant Walks(r.path[..i])
    {
      var link := r.path[i];
      if link.prevHash != prev || EntryHash(link.prevHash, link.bodyHash, link.meta) != link.entryHash {
        assert !Walks(r.path);
        return ReceiptVerdict(false, checks, r.root, None);
      }
      prev, last := link.entryHash, link.entryHash;
    }
    assert r.path[..|r.path|] == r.path;
    if last != r.root {
      return ReceiptVerdict(false, checks, r.root, None);
    }
    checks := checks.(chain := true);
    var sp := r.sourcePayload;
    if sp.decisionId != Some(r.decisionId) || sp.resolution != r.resolution || sp.signedBy != r.signedBy {
      return ReceiptVerdict(false, checks, r.root, None);
    }
    return ReceiptVerdict(true, checks.(outcome := true), r.root,
        Some(Outcome(sp.decisionId, sp.resolution, sp.signedBy)));
  }

  // ---------------------------------------------------------------- completeness and soundness

  lemma {:induction false} LastResolutionIs(events: seq<Event>, decisionId: string)
    ensures LastResolution(events, decisionId).None?
       <==> forall i :: 0 <= i < |events| ==> !Resolves(events[i], decisionId)
    ensures LastResolution(events, decisionId).Some? ==>
              exists i :: 0 <= i < |events| && NewestResolution(events, decisionId, i)
                          && LastResolution(events, decisionId).value == events[i]
  {
    if events != [] {
      var n := |events| - 1;
      LastResolutionIs(events[..n], decisionId);
      if Resolves(events[n], decisionId) {
        assert NewestResolution(events, decisionId, n);
      } else if LastResolution(events[..n], decisionId).Some? {
        var i :| 0 <= i < n && NewestResolution(events[..n], decisionId, i)
          && LastResolution(events[..n], decisionId).value == events[..n][i];
        assert NewestResolution(events, decisionId, i);
      }
    }
  }

  ghost predicate Resolves(e: Event, decisionId: string) {
    e.eventType == "decision.resolved" && e.payload.decisionId == Some(decisionId)
  }

  /** The decision was resolved at `i`, and not again. */
  ghost predicate NewestResolution(events: seq<Event>, decisionId: string, i: nat)
    requires i < |events|
  {
    Resolves(events[i], decisionId) && forall j :: i < j < |events| ==> !Resolves(events[j], decisionId)
  }

  lemma SuffixWalks(events: seq<Event>, chain: seq<ChainRow>, k: nat)
    requires Holds(events, chain) && k <= |chain|
    ensures Walks(Links(chain[k..]))
  {
    var path := Links(chain[k..]);
    forall i | 0 <= i < |path|
      ensures path[i].entryHash == EntryHash(path[i].prevHash, path[i].bodyHash, path[i].meta)
      ensures i > 0 ==> path[i].prevHash == path[i - 1].entryHash
    {
      assert path[i] == LinkOf(chain[k + i]);
      assert RowHolds(events, chain, k + i);
      if i > 0 {
        assert path[i - 1] == LinkOf(chain[k + i - 1]);
        assert chain[..k + i][|chain[..k + i]| - 1] == chain[k + i - 1];
      }
    }
  }

  /** Every receipt the server builds from a chain that holds passes the open verifier, reaches the audit root and
   *  shows the decision asked for; and a member gets one exactly when the newest resolution is chained. */
  lemma ReceiptsAreComplete(events: seq<Event>, chain: seq<ChainRow>, members: set<(string, string)>,
      decisionId: string, memberId: string)
    requires Ordered(events) && Holds(events, chain)
    ensures var built := ReceiptFor(events, chain, members, decisionId, memberId);
            && (built.Some? <==>
                  exists i :: 0 <= i < |events| && NewestResolution(events, decisionId, i)
                              && (events[i].roomId, memberId) in members && Chained(chain, events[i].seqNo))
            && (built.Some? ==> SelfConsistent(built.value) && RootOf(chain) == Some(built.value.root)
                                && built.value.decisionId == decisionId)
            && forall i :: built.Some? && 0 <= i < |events| && NewestResolution(events, decisionId, i) ==>
                 && built.value.sourcePayload == events[i].payload && built.value.meta.sourceSeq == events[i].seqNo
  {
    LastResolutionIs(events, decisionId);
    var resolved := LastResolution(events, decisionId);
    if resolved.Some? {
      var i :| 0 <= i < |events| && NewestResolution(events, decisionId, i) && resolved.value == events[i];
      RowInRange(chain, events[i].seqNo);
      if ReceiptFor(events, chain, members, decisionId, memberId).Some? {
        ReceiptOfRow(events, chain, i, RowOf(chain, events[i].seqNo).value, decisionId);
      }
    }
  }

  /** The receipt for event `i`, chained at row `k`. */
  lemma ReceiptOfRow(events: seq<Event>, chain: seq<ChainRow>, i: nat, k: nat, decisionId: string)
    requires Ordered(events) && Holds(events, chain) && i < |events| && k < |chain|
    requires chain[k].sourceSeq == events[i].seqNo && events[i].payload.decisionId == Some(decisionId)
    ensures var path, payload := Links(chain[k..]), events[i].payload;
      && path != []
      && var built := DetachedReceipt(decisionId, payload.resolution, payload.signedBy, payload, path[0].meta,
             path[0].bodyHash, path[0].prevHash, path[0].entryHash, path[|path| - 1].entryHash, path);
         SelfConsistent(built) && RootOf(chain) == Some(built.root) && built.meta.sourceSeq == events[i].seqNo
  {
    SuffixWalks(events, chain, k);
    assert RowHolds(events, chain, k);
    FindPresent(events, i);
    assert Links(chain[k..])[0] == LinkOf(chain[k]);
    assert Links(chain[k..])[|chain| - k - 1] == LinkOf(chain[|chain| - 1]);
  }

  /** A walk that ends in the root of a chain that holds is the end of that chain. */
  lemma {:induction false} WalkIsSuffix(events: seq<Event>, chain: seq<ChainRow>, path: seq<ChainLink>)
    requires Holds(events, chain) && Walks(path) && path != []
    requires RootOf(chain) == Some(path[|path| - 1].entryHash)
    ensures |path| <= |chain| && path == Links(chain[|chain| - |path|..])
    decreases |path|
  {
    var m, n := |chain| - 1, |path| - 1;
    assert RowHolds(events, chain, m);
    assert path[n] == LinkOf(chain[m]);
    if n > 0 {
      var shorter, front := chain[..m], path[..n];
      PrefixHolds(events, chain, m);
      assert path[n].prevHash == front[n - 1].entryHash;
      HeadIsRoot(events, shorter);
      WalkIsSuffix(events, shorter, front);
      assert chain[|chain| - |path|..] == shorter[|shorter| - |front|..] + [chain[m]];
      assert path == front + [path[n]];
    }
  }

  /** The converse: whoever wrote it, a receipt that passes the open verifier under the root of a chain that holds
   *  is one of that chain's entries, carrying the payload, the envelope and the outcome that were recorded. */
  lemma ReceiptsAreSound(events: seq<Event>, chain: seq<ChainRow>, r: DetachedReceipt)
    requires Holds(events, chain)
    requires SelfConsistent(r) && RootOf(chain) == Some(r.root)
    ensures |r.path| <= |chain| && r.path == Links(chain[|chain| - |r.path|..])
    ensures var row := chain[|chain| - |r.path|]; var source := Find(events, row.sourceSeq);
            && r.meta == MetaOf(row) && r.prevHash == row.prevHash && r.entryHash == row.entryHash
            && source.Some? && source.value.payload == r.sourcePayload && SameEnvelope(source.value, row)
            && source.value.payload.decisionId == Some(r.decisionId)
            && source.value.payload.resolution == r.resolution && source.value.payload.signedBy == r.signedBy
  {
    WalkIsSuffix(events, chain, r.path);
    var k := |chain| - |r.path|;
    assert r.path[0] == LinkOf(chain[k]);
    assert RowHolds(events, chain, k);
  }

  // ---------------------------------------------------------------- reconciliation

  datatype ChainLinkView = ChainLinkView(seqNo: nat, entryHash: Hash, prevHash: Hash)

  datatype ReconcileStatus = InSync | LocalAhead | RemoteAhead | Forked | Unrelated

  datatype ReconcileResult = ReconcileResult(
    status: ReconcileStatus, commonRoot: Option<Hash>, localAhead: nat, remoteAhead: nat, forkIndex: Option<nat>)

  function ChainView(chain: seq<ChainRow>): seq<ChainLinkView> {
    seq(|chain|, i requires 0 <= i < |chain| => ChainLinkView(chain[i].seqNo, chain[i].entryHash, chain[i].prevHash))
  }

  /** The first `n` positions carry the same entry hashes. */
  ghost predicate AgreeUpTo(a: seq<ChainLinkView>, b: seq<ChainLinkView>, n: nat) {
    n <= |a| && n <= |b| && forall i :: 0 <= i < n ==> a[i].entryHash == b[i].entryHash
  }

  /** `n` is how far the two views agree before they differ or one ends. */
  ghost predicate AgreeExactly(a: seq<ChainLinkView>, b: seq<ChainLinkView>, n: nat) {
    AgreeUpTo(a, b, n) && (n < |a| && n < |b| ==> a[n].entryHash != b[n].entryHash)
  }

  method Reconcile(local: seq<ChainLinkView>, remote: seq<ChainLinkView>) returns (r: ReconcileResult)
    ensures exists n: nat ::
                        && AgreeExactly(local, remote, n)
                        && r.localAhead == |local| - n && r.remoteAhead == |remote| - n
                        && r.commonRoot == (if n == 0 then None else Some(local[n - 1].entryHash))
                        && r.forkIndex == (if n < |local| && n < |remote| then Some(n) else None)
                        && (r.status == Unrelated <==> n == 0 && |local| > 0 && |remote| > 0)
    ensures r.status == InSync <==> r.localAhead == 0 && r.remoteAhead == 0
    ensures r.status == LocalAhead <==> r.localAhead > 0 && r.remoteAhead == 0
    ensures r.status == RemoteAhead <==> r.localAhead == 0 && r.remoteAhead > 0
  {
    var min := Min(|local|, |remote|);
    var common := 0;
    while common < min && local[common].entryHash == remote[common].entryHash
      invariant 0 <= common <= min
      invariant AgreeUpTo(local, remote, common)
    {
      common := common + 1;
    }
    assert AgreeExactly(local, remote, common);
    var commonRoot := if common > 0 then Some(local[common - 1].entryHash) else None;
    var localAhead, remoteAhead := |local| - common, |remote| - common;
    if common < min {
      return ReconcileResult(if common == 0 then Unrelated
          else Forked, commonRoot, localAhead, remoteAhead, Some(common));
    }
    var status :=
      if localAhead == 0 && remoteAhead == 0 then InSync
      else if localAhead == 0 then RemoteAhead
      else LocalAhead;
    return ReconcileResult(status, commonRoot, localAhead, remoteAhead, None);
  }

  /** What `reconcile` relies on, for chains that hold: one equal entry hash means one history up to it, so the
   *  common run it counts is exactly the shared history, and a fork is a real difference. */
  lemma EqualHashMeansEqualHistory(e1: seq<Event>, c1: seq<ChainRow>, e2: seq<Event>, c2: seq<ChainRow>, i: nat, j: nat)
    requires Holds(e1, c1) && Holds(e2, c2)
    requires i < |c1| && j < |c2|
    ensures ChainView(c1)[i].entryHash == ChainView(c2)[j].entryHash <==> SameRecord(e1, c1[..i + 1], e2, c2[..j + 1])
    ensures ChainView(c1)[i].entryHash == ChainView(c2)[j].entryHash ==>
            i == j && AgreeUpTo(ChainView(c1), ChainView(c2), i + 1)
  {
    var p1, p2 := c1[..i + 1], c2[..j + 1];
    PrefixHolds(e1, c1, i + 1);
    PrefixHolds(e2, c2, j + 1);
    if c1[i].entryHash == c2[j].entryHash {
      RootBinding(e1, p1, e2, p2);
      forall k | 0 <= k <= i ensures ChainView(c1)[k].entryHash == ChainView(c2)[k].entryHash {
        assert SameRow(p1[k], p2[k]);
      }
    }
    if SameRecord(e1, p1, e2, p2) {
      assert SameRow(p1[i], p2[i]);
    }
  }
}

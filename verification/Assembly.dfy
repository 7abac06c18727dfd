/**
 * Context assembly: apps/api/src/assembly.ts. A part carries where it came from; the window is the parts flattened
 * in the order of one table, after an assertion over every part.
 */
module Assembly {
  import opened Prelude
  import RoomLog
  import Summaries

  type AgentMessage = Summaries.AgentMessage

  /** The declared sources, and any other name a part might carry. */
  datatype Source = Briefing | Documents | CommonGround | RoomTurns | OwnStore | Task | Undeclared(name: string)

  /** Declaration order is window order. */
  const PARTS: seq<Source> := [Briefing, Documents, CommonGround, RoomTurns, OwnStore, Task]

  predicate Declared(s: Source) {
    !s.Undeclared?
  }

  predicate Private(s: Source) {
    s == OwnStore
  }

  datatype Part = Part(source: Source, principal: Option<string>, messages: seq<AgentMessage>)

  datatype Assembly = Assembly(principal: string, parts: seq<Part>)

  datatype Verdict =
    | Fine
    | UndeclaredSource(source: Source)
    | NoPrincipal
    | SharedNames(source: Source, principal: string)
    | Foreign(principals: set<string>)
    | MoreThanOne(principals: set<string>)

  // ---------------------------------------------------------------- the assertion

  /** A part whose provenance can be read: declared, naming a principal exactly when it is private. */
  predicate Readable(p: Part) {
    !p.source.Undeclared? && (p.source == OwnStore <==> p.principal.Some?)
  }

  /** The invariant itself: every part declared, and every private part the summoned principal's own. */
  predicate OwnOnly(a: Assembly) {
    PartsOwn(a.parts, a.principal)
  }

  predicate PartsOwn(parts: seq<Part>, principal: string) {
    forall i :: 0 <= i < |parts| ==>
      && !parts[i].source.Undeclared?
      && parts[i].principal == if parts[i].source == OwnStore then Some(principal) else None
  }

  /** What the assertion says of one part it cannot read. */
  predicate Blames(v: Verdict, p: Part) {
    match v
    case UndeclaredSource(source) => p.source == source && source.Undeclared?
    case NoPrincipal => p.source == OwnStore && p.principal.None?
    case SharedNames(source, principal) =>
      p.source == source && !source.Undeclared? && source != OwnStore && p.principal == Some(principal)
    case _ => false
  }

  /** It passes exactly the invariant; the first part that cannot be read is blamed for what is wrong with it; else
   *  the foreign principals are named. Once no principal is foreign there is at most one, so the check for more
   *  than one never fires. */
  method AssertOwnPrincipalOnly(a: Assembly) returns (v: Verdict)
    ensures v == Fine <==> OwnOnly(a)
    ensures v.UndeclaredSource? || v.NoPrincipal? || v.SharedNames? ==>
              exists i :: 0 <= i < |a.parts| && Blames(v, a.parts[i]) && forall j :: 0 <= j < i ==> Readable(a.parts[j])
    ensures v.Foreign? ==>
              && v.principals == (set i | 0 <= i < |a.parts| && a.parts[i].principal.Some? ::
                  a.parts[i].principal.value) - {a.principal}
              && v.principals != {}
    ensures !v.MoreThanOne?
  {
    var principals: set<string> := {};
    for i := 0 to |a.parts|
      invariant forall j :: 0 <= j < i ==> Readable(a.parts[j])
      invariant principals == set j | 0 <= j < i && a.parts[j].principal.Some? :: a.parts[j].principal.value
    {
      var part := a.parts[i];
      if !Declared(part.source) { return UndeclaredSource(part.source); }
      if Private(part.source) {
        if part.principal.None? { return NoPrincipal; }
        principals := principals + {part.principal.value};
      } else if part.principal.Some? {
        return SharedNames(part.source, part.principal.value);
      }
    }
    var foreign := principals - {a.principal};
    if foreign != {} { return Foreign(foreign); }
    OnlyOne(principals, a.principal);
    assert forall i :: 0 <= i < |a.parts| && a.parts[i].principal.Some? ==> a.parts[i].principal.value in principals;
    if |principals| > 1 { return MoreThanOne(principals); }
    return Fine;
  }

  lemma OnlyOne(principals: set<string>, p: string)
    requires principals - {p} == {}
    ensures forall x :: x in principals ==> x == p
    ensures |principals| <= 1
  {
    forall x | x in principals ensures x == p { assert x !in principals - {p}; }
    SubsetSize(principals, {p});
  }

  // ---------------------------------------------------------------- flattening is a stable reordering

  function MessagesOf(parts: seq<Part>, i: nat): seq<AgentMessage> {
    if i < |parts| then parts[i].messages else []
  }

  function Concat(parts: seq<Part>, order: seq<nat>): seq<AgentMessage> {
    if order == [] then [] else Concat(parts, order[..|order| - 1]) + MessagesOf(parts, order[|order| - 1])
  }

  /** The first `n` parts' indexes whose source is `s`, as they come. */
  function IndexesOf(parts: seq<Part>, n: nat, s: Source): (order: seq<nat>)
    requires n <= |parts|
    ensures forall k :: 0 <= k < |order| ==> order[k] < n && parts[order[k]].source == s
  {
    if n == 0 then []
    else if parts[n - 1].source == s then IndexesOf(parts, n - 1, s) + [n - 1]
    else IndexesOf(parts, n - 1, s)
  }

  /** The parts of the first `r` declared sources, source by source. */
  function Order(parts: seq<Part>, r: nat): (order: seq<nat>)
    requires r <= |PARTS|
    ensures forall k :: 0 <= k < |order| ==> order[k] < |parts|
  {
    if r == 0 then [] else Order(parts, r - 1) + IndexesOf(parts, |parts|, PARTS[r - 1])
  }

  function Rank(s: Source): nat {
    match s
    case Briefing => 0
    case Documents => 1
    case CommonGround => 2
    case RoomTurns => 3
    case OwnStore => 4
    case Task => 5
    case Undeclared(_) => 6
  }

  lemma RankIsPlace(s: Source, r: nat)
    requires r < |PARTS|
    ensures PARTS[r] == s <==> Rank(s) == r
  {
  }

  /** Earlier in the table first; within a source, as built. */
  predicate Before(parts: seq<Part>, i: nat, j: nat)
    requires i < |parts| && j < |parts|
  {
    Rank(parts[i].source) < Rank(parts[j].source) || (parts[i].source == parts[j].source && i < j)
  }

  /** `order` lists each part of the first `r` sources once, sorted by table place and then by age. */
  ghost predicate StableOrder(parts: seq<Part>, order: seq<nat>, r: nat) {
    && (forall k :: 0 <= k < |order| ==> order[k] < |parts| && Rank(parts[order[k]].source) < r)
    && (forall k, l :: 0 <= k < l < |order| ==> Before(parts, order[k], order[l]))
    && (forall i :: 0 <= i < |parts| && Rank(parts[i].source) < r ==> i in order)
  }

  lemma {:induction false} IndexesAscend(parts: seq<Part>, n: nat, s: Source)
    requires n <= |parts|
    ensures forall k, l :: 0 <= k < l < |IndexesOf(parts, n, s)| ==>
            IndexesOf(parts, n, s)[k] < IndexesOf(parts, n, s)[l]
    ensures forall i :: 0 <= i < n && parts[i].source == s ==> i in IndexesOf(parts, n, s)
  {
    if n > 0 { IndexesAscend(parts, n - 1, s); }
  }

  /** The parts of one source are those of its rank. */
  lemma IndexesRank(parts: seq<Part>, r: nat)
    requires r < |PARTS|
    ensures var mine := IndexesOf(parts, |parts|, PARTS[r]);
      && (forall k :: 0 <= k < |mine| ==> Rank(parts[mine[k]].source) == r)
      && (forall k, l :: 0 <= k < l < |mine| ==> mine[k] < mine[l] && parts[mine[k]].source == parts[mine[l]].source)
      && (forall i :: 0 <= i < |parts| && Rank(parts[i].source) == r ==> i in mine)
  {
    IndexesAscend(parts, |parts|, PARTS[r]);
    RankIsPlace(PARTS[r], r);
    forall i | 0 <= i < |parts| && Rank(parts[i].source) == r ensures parts[i].source == PARTS[r] {
      RankIsPlace(parts[i].source, r);
    }
  }

  lemma OrderStep(parts: seq<Part>, r: nat)
    requires 0 < r <= |PARTS| && StableOrder(parts, Order(parts, r - 1), r - 1)
    ensures StableOrder(parts, Order(parts, r), r)
  {
    var low, high := Order(parts, r - 1), IndexesOf(parts, |parts|, PARTS[r - 1]);
    IndexesRank(parts, r - 1);
    JoinStable(parts, low, high, r);
    assert Order(parts, r) == low + high;
  }

  lemma {:induction false} OrderIsStable(parts: seq<Part>, r: nat)
    requires r <= |PARTS|
    ensures StableOrder(parts, Order(parts, r), r)
  {
    if r == 0 { NothingOrdered(parts); } else {
      OrderIsStable(parts, r - 1);
      OrderStep(parts, r);
    }
  }

  lemma NothingOrdered(parts: seq<Part>)
    ensures StableOrder(parts, Order(parts, 0), 0)
  {
    assert Order(parts, 0) == [];
  }

  lemma JoinStable(parts: seq<Part>, low: seq<nat>, high: seq<nat>, r: nat)
    requires r > 0 && StableOrder(parts, low, r - 1)
    requires forall k :: 0 <= k < |high| ==> high[k] < |parts| && Rank(parts[high[k]].source) == r - 1
    requires forall k, l :: 0 <= k < l < |high| ==> high[k] < high[l] && parts[high[k]].source == parts[high[l]].source
    requires forall i :: 0 <= i < |parts| && Rank(parts[i].source) == r - 1 ==> i in high
    ensures StableOrder(parts, low + high, r)
  {
  }

  /** A part-by-part account of the window of an assembly that passed: its messages are those of all parts, whole,
   *  each part once, in table order and otherwise as built; what is private is the summoned principal's. */
  lemma WindowIsStableReorder(a: Assembly)
    requires OwnOnly(a)
    ensures var order := Order(a.parts, |PARTS|);
      && StableOrder(a.parts, order, |PARTS|)
      && (forall i :: 0 <= i < |a.parts| ==> i in order)
      && (forall k, l :: 0 <= k < l < |order| ==> order[k] != order[l])
      && |order| == |a.parts|
      && (forall i :: 0 <= i < |a.parts| && a.parts[i].principal.Some? ==> a.parts[i].principal == Some(a.principal))
  {
    OrderIsStable(a.parts, |PARTS|);
    var order := Order(a.parts, |PARTS|);
    forall k, l | 0 <= k < l < |order| ensures order[k] != order[l] { assert Before(a.parts, order[k], order[l]); }
    Counted(order, |a.parts|);
  }

  lemma {:induction false} Counted(order: seq<nat>, n: nat)
    requires forall k :: 0 <= k < |order| ==> order[k] < n
    requires forall k, l :: 0 <= k < l < |order| ==> order[k] != order[l]
    requires forall i :: 0 <= i < n ==> i in order
    ensures |order| == n
  {
    if n > 0 {
      assert n - 1 in order;
      var k :| 0 <= k < |order| && order[k] == n - 1;
      var rest := order[..k] + order[k + 1..];
      forall i | 0 <= i < n - 1 ensures i in rest {
        assert i in order;
        var j :| 0 <= j < |order| && order[j] == i;
        assert rest[if j < k then j else j - 1] == i;
      }
      Counted(rest, n - 1);
    }
  }

  lemma ConcatPush(parts: seq<Part>, a: seq<nat>, i: nat)
    ensures Concat(parts, a + [i]) == Concat(parts, a) + MessagesOf(parts, i)
  {
    assert (a + [i])[..|a|] == a;
  }

  lemma {:induction false} ConcatAppend(parts: seq<Part>, a: seq<nat>, b: seq<nat>)
    ensures Concat(parts, a + b) == Concat(parts, a) + Concat(parts, b)
  {
    if b == [] {
      assert a + b == a;
    } else {
      var init, last := b[..|b| - 1], b[|b| - 1];
      ConcatAppend(parts, a, init);
      assert (a + b)[..|a + b| - 1] == a + init;
      Regroup(Concat(parts, a), Concat(parts, init), MessagesOf(parts, last));
    }
  }

  lemma Regroup(x: seq<AgentMessage>, y: seq<AgentMessage>, z: seq<AgentMessage>)
    ensures x + y + z == x + (y + z)
  {
  }

  /** The only way from an assembly to a provider: nothing unless the assertion passes. */
  method WindowFor(a: Assembly) returns (v: Verdict, messages: seq<AgentMessage>)
    ensures v == Fine <==> OwnOnly(a)
    ensures v != Fine ==> messages == []
    ensures v == Fine ==> messages == Concat(a.parts, Order(a.parts, |PARTS|))
  {
    messages := [];
    v := AssertOwnPrincipalOnly(a);
    if v == Fine { messages := Flatten(a.parts); }
  }

  /** Source by source, in the order of the table. */
  method Flatten(parts: seq<Part>) returns (messages: seq<AgentMessage>)
    ensures messages == Concat(parts, Order(parts, |PARTS|))
  {
    messages := [];
    for r := 0 to |PARTS|
      invariant messages == Concat(parts, Order(parts, r))
    {
      var mine := Select(parts, PARTS[r]);
      ConcatAppend(parts, Order(parts, r), IndexesOf(parts, |parts|, PARTS[r]));
      messages := messages + mine;
    }
  }

  /** The messages of one source's parts, pushed part by part. */
  method Select(parts: seq<Part>, s: Source) returns (messages: seq<AgentMessage>)
    ensures messages == Concat(parts, IndexesOf(parts, |parts|, s))
  {
    messages := [];
    for i := 0 to |parts|
      invariant messages == Concat(parts, IndexesOf(parts, i, s))
    {
      if parts[i].source == s {
        ConcatPush(parts, IndexesOf(parts, i, s), i);
        messages := messages + parts[i].messages;
      }
    }
  }

  // ---------------------------------------------------------------- the shape

  function CountOf(parts: seq<Part>, n: nat, s: Source): nat
    requires n <= |parts|
  {
    if n == 0 then 0 else CountOf(parts, n - 1, s) + (if parts[n - 1].source == s then |parts[n - 1].messages| else 0)
  }

  function Total(shape: map<Source, nat>, r: nat): nat
    requires r <= |PARTS| && forall i :: 0 <= i < r ==> PARTS[i] in shape
  {
    if r == 0 then 0 else Total(shape, r - 1) + shape[PARTS[r - 1]]
  }

  /** One count a declared source, none for anything else. */
  method AssemblyShape(a: Assembly) returns (shape: map<Source, nat>)
    ensures forall s :: s in shape <==> !s.Undeclared?
    ensures forall s :: s in shape ==> shape[s] == CountOf(a.parts, |a.parts|, s)
  {
    shape := map[];
    for r := 0 to |PARTS|
      invariant forall s :: s in shape <==> Rank(s) < r
      invariant forall s :: s in shape ==> shape[s] == CountOf(a.parts, |a.parts|, s)
    {
      var n := 0;
      for i := 0 to |a.parts|
        invariant n == CountOf(a.parts, i, PARTS[r])
      {
        if a.parts[i].source == PARTS[r] { n := n + |a.parts[i].messages|; }
      }
      forall s: Source ensures PARTS[r] == s <==> Rank(s) == r { RankIsPlace(s, r); }
      shape := shape[PARTS[r] := n];
    }
  }

  lemma CountStep(parts: seq<Part>, n: nat, s: Source)
    requires n < |parts| && CountOf(parts, n, s) == |Concat(parts, IndexesOf(parts, n, s))|
    ensures CountOf(parts, n + 1, s) == |Concat(parts, IndexesOf(parts, n + 1, s))|
  {
    var mine := IndexesOf(parts, n, s);
    if parts[n].source == s {
      ConcatPush(parts, mine, n);
      assert IndexesOf(parts, n + 1, s) == mine + [n];
    } else {
      assert IndexesOf(parts, n + 1, s) == mine;
    }
  }

  lemma {:induction false} CountIsLength(parts: seq<Part>, n: nat, s: Source)
    requires n <= |parts|
    ensures CountOf(parts, n, s) == |Concat(parts, IndexesOf(parts, n, s))|
  {
    if n > 0 {
      CountIsLength(parts, n - 1, s);
      CountStep(parts, n - 1, s);
    } else {
      assert IndexesOf(parts, 0, s) == [];
    }
  }

  lemma ConcatLength(parts: seq<Part>, a: seq<nat>, b: seq<nat>)
    ensures |Concat(parts, a + b)| == |Concat(parts, a)| + |Concat(parts, b)|
  {
    ConcatAppend(parts, a, b);
  }

  /** The shape of an assembly accounts for every message of its window. */
  lemma {:induction false} ShapeSumsToWindow(parts: seq<Part>, shape: map<Source, nat>, r: nat)
    requires r <= |PARTS|
    requires forall i :: 0 <= i < r ==> PARTS[i] in shape && shape[PARTS[i]] == CountOf(parts, |parts|, PARTS[i])
    ensures Total(shape, r) == |Concat(parts, Order(parts, r))|
  {
    if r > 0 {
      ShapeSumsToWindow(parts, shape, r - 1);
      var source := PARTS[r - 1];
      CountIsLength(parts, |parts|, source);
      ConcatLength(parts, Order(parts, r - 1), IndexesOf(parts, |parts|, source));
      assert Total(shape, r) == Total(shape, r - 1) + shape[source];
    }
  }

  // ---------------------------------------------------------------- what a turn is given

  datatype Document = Document(title: string, purpose: string, content: string)
  datatype Item = Item(title: string, summary: Option<string>, body: string)
  datatype TaskState = TaskState(id: string, state: string, intent: string, action: Option<string>, createdBy: string)

  const RECENT_TURNS: nat := 8

  /** What the queries of one assembly return. `boundTo` is the principal the store transaction was scoped to. */
  datatype Input = Input(
    principal: string, briefing: Option<string>, documents: seq<Document>, log: seq<RoomLog.Entry>,
    turns: Option<seq<AgentMessage>>, boundTo: string, items: seq<Item>, task: Option<TaskState>)

  function BriefingMessages(briefing: Option<string>): seq<AgentMessage> {
    if briefing.None? then [] else [Summaries.AgentMessage("context/room-briefing", briefing.value)]
  }

  function DocumentMessage(d: Document): AgentMessage {
    Summaries.AgentMessage("context/document:" + d.title, d.purpose + "\n\n" + d.content)
  }

  function SummaryMessages(log: seq<RoomLog.Entry>): seq<AgentMessage> {
    match RoomLog.LatestRoomSummary(log)
    case None => []
    case Some(summary) => [Summaries.AgentMessage("context/room-summary", summary.event.text)]
  }

  /** The recent window: the very entries `Summaries.CoverageAndWindowPartition` speaks of. */
  function RecentMessages(log: seq<RoomLog.Entry>): seq<AgentMessage> {
    RoomLog.MessagesOnly(RoomLog.After(log, RoomLog.RoomWindowFloor(log)));
    Summaries.Rendered(Summaries.Window(log, RoomLog.LatestRoomSummary(log)))
  }

  function LastTurns(turns: Option<seq<AgentMessage>>): seq<AgentMessage> {
    if turns.None? then []
    else if |turns.value| <= RECENT_TURNS then turns.value
    else turns.value[|turns.value| - RECENT_TURNS..]
  }

  function ItemMessage(item: Item): AgentMessage {
    Summaries.AgentMessage("context/your-own-notes", item.title + " — "
        + (if item.summary.Some? then item.summary.value else item.body))
  }

  function ItemMessages(items: seq<Item>): (messages: seq<AgentMessage>)
    ensures |messages| == |items|
  {
    if items == [] then [] else ItemMessages(items[..|items| - 1]) + [ItemMessage(items[|items| - 1])]
  }

  function TaskMessages(task: Option<TaskState>): seq<AgentMessage> {
    match task
    case None => []
    case Some(t) =>
      [Summaries.AgentMessage("context/task-state",
         "task " + t.id + " is " + t.state + "; intent \"" + t.intent + "\""
         + (if t.action.Some? && t.action.value != "" then "; action " + t.action.value else "") + "; opened by "
             + t.createdBy)]
  }

  /** A part when there is something to say, none otherwise. */
  function PartOf(source: Source, principal: Option<string>, messages: seq<AgentMessage>): seq<Part> {
    if messages == [] then [] else [Part(source, principal, messages)]
  }

  function DocumentParts(documents: seq<Document>): (parts: seq<Part>)
    ensures |parts| == |documents| && forall i :: 0 <= i < |parts| ==>
            parts[i].source == Documents && parts[i].principal.None?
  {
    if documents == [] then []
    else
      var n := |documents| - 1;
      DocumentParts(documents[..n]) + [Part(Documents, None, [DocumentMessage(documents[n])])]
  }

  /** The room's own log: the rolling summary, if any, and the recent window, pushed even when empty. */
  function CommonParts(log: seq<RoomLog.Entry>): seq<Part> {
    PartOf(CommonGround, None, SummaryMessages(log)) + [Part(CommonGround, None, RecentMessages(log))]
  }

  /** What is pinned: it is read from its own record, never from the log's tail. */
  function PinnedParts(input: Input): seq<Part> {
    PartOf(Briefing, None, BriefingMessages(input.briefing)) + DocumentParts(input.documents)
  }

  /** What every member of the room may read. */
  function RoomParts(input: Input): seq<Part> {
    PinnedParts(input)
    + CommonParts(input.log)
    + PartOf(RoomTurns, None, LastTurns(input.turns))
  }

  /** All parts, in the order the code pushes them. */
  function Assembled(input: Input): seq<Part> {
    RoomParts(input)
    + PartOf(OwnStore, Some(input.boundTo), ItemMessages(input.items))
    + PartOf(Task, None, TaskMessages(input.task))
  }

  method AssembleContext(input: Input) returns (a: Assembly)
    ensures a == Assembly(input.principal, Assembled(input))
  {
    var parts := PushPart([], Briefing, None, BriefingMessages(input.briefing));
    assert parts == PartOf(Briefing, None, BriefingMessages(input.briefing));
    parts := PushDocuments(parts, input.documents);
    assert parts == PinnedParts(input);
    parts := PushCommon(parts, input.log);
    parts := PushPart(parts, RoomTurns, None, LastTurns(input.turns));
    assert parts == RoomParts(input);
    parts := PushPart(parts, OwnStore, Some(input.boundTo), ItemMessages(input.items));
    parts := PushPart(parts, Task, None, TaskMessages(input.task));
    a := Assembly(input.principal, parts);
  }

  method PushPart(parts: seq<Part>, source: Source, principal: Option<string>, messages: seq<AgentMessage>
      ) returns (r: seq<Part>)
    ensures r == parts + PartOf(source, principal, messages)
  {
    r := parts;
    if |messages| > 0 { r := r + [Part(source, principal, messages)]; }
  }

  /** One part a document. */
  method PushDocuments(parts: seq<Part>, documents: seq<Document>) returns (r: seq<Part>)
    ensures r == parts + DocumentParts(documents)
  {
    r := parts;
    for i := 0 to |documents|
      invariant r == parts + DocumentParts(documents[..i])
    {
      assert documents[..i + 1][..i] == documents[..i];
      r := r + [Part(Documents, None, [DocumentMessage(documents[i])])];
    }
    assert documents[..|documents|] == documents;
  }

  method PushCommon(parts: seq<Part>, log: seq<RoomLog.Entry>) returns (r: seq<Part>)
    ensures r == parts + CommonParts(log)
  {
    r := PushPart(parts, CommonGround, None, SummaryMessages(log));
    r := r + [Part(CommonGround, None, RecentMessages(log))];
  }

  /** Built in table order already, within these ranks. */
  ghost predicate InTableOrder(parts: seq<Part>, low: nat, high: nat) {
    && (forall i :: 0 <= i < |parts| ==> low <= Rank(parts[i].source) <= high)
    && (forall i, j :: 0 <= i < j < |parts| ==> Rank(parts[i].source) <= Rank(parts[j].source))
  }

  lemma JoinInOrder(a: seq<Part>, b: seq<Part>, low: nat, mid: nat, high: nat)
    requires InTableOrder(a, low, mid) && InTableOrder(b, mid, high) && low <= mid <= high
    ensures InTableOrder(a + b, low, high)
  {
  }

  lemma PinnedInOrder(input: Input)
    ensures InTableOrder(PinnedParts(input), 0, 1)
  {
    JoinInOrder(PartOf(Briefing, None, BriefingMessages(input.briefing)), DocumentParts(input.documents), 0, 1, 1);
  }

  lemma CommonInOrder(log: seq<RoomLog.Entry>)
    ensures InTableOrder(CommonParts(log), 2, 2)
  {
  }

  lemma CommonGroundInOrder(input: Input)
    ensures InTableOrder(PinnedParts(input) + CommonParts(input.log), 0, 2)
  {
    PinnedInOrder(input);
    WiderOrder(PinnedParts(input), 0, 1, 2);
    CommonInOrder(input.log);
    JoinInOrder(PinnedParts(input), CommonParts(input.log), 0, 2, 2);
  }

  lemma RoomInOrder(input: Input)
    ensures InTableOrder(RoomParts(input), 0, 3)
  {
    var common := PinnedParts(input) + CommonParts(input.log);
    CommonGroundInOrder(input);
    WiderOrder(common, 0, 2, 3);
    JoinInOrder(common, PartOf(RoomTurns, None, LastTurns(input.turns)), 0, 3, 3);
  }

  lemma WiderOrder(parts: seq<Part>, low: nat, high: nat, higher: nat)
    requires InTableOrder(parts, low, high) && high <= higher
    ensures InTableOrder(parts, low, higher)
  {
  }

  lemma {:induction false} AssembledInOrder(input: Input)
    ensures InTableOrder(Assembled(input), 0, 5)
  {
    var store := PartOf(OwnStore, Some(input.boundTo), ItemMessages(input.items));
    RoomInOrder(input);
    JoinInOrder(RoomParts(input), store, 0, 4, 4);
    JoinInOrder(RoomParts(input) + store, PartOf(Task, None, TaskMessages(input.task)), 0, 5, 5);
  }

  function Identity(n: nat): seq<nat> {
    if n == 0 then [] else Identity(n - 1) + [n - 1]
  }

  /** An order of all parts that ascends is the identity. */
  lemma {:induction false} AscendingIsIdentity(order: seq<nat>, n: nat)
    requires forall k :: 0 <= k < |order| ==> order[k] < n
    requires forall k, l :: 0 <= k < l < |order| ==> order[k] < order[l]
    requires |order| == n
    ensures order == Identity(n)
  {
    if n > 0 {
      var init := order[..n - 1];
      forall k | 0 <= k < n - 1 ensures init[k] < n - 1 { assert order[k] < order[n - 1]; }
      AscendingIsIdentity(init, n - 1);
      if n > 1 { assert order[n - 2] == n - 2 by { assert init[n - 2] == Identity(n - 1)[n - 2]; } }
      assert order == init + [order[n - 1]];
    }
  }

  /** All messages, part after part as built. */
  function AsBuilt(parts: seq<Part>): seq<AgentMessage> {
    if parts == [] then [] else AsBuilt(parts[..|parts| - 1]) + parts[|parts| - 1].messages
  }

  lemma {:induction false} IdentityBound(n: nat)
    ensures |Identity(n)| == n && forall k :: 0 <= k < n ==> Identity(n)[k] == k
  {
    if n > 0 { IdentityBound(n - 1); }
  }

  lemma {:induction false} IdentityConcat(parts: seq<Part>, n: nat)
    requires n <= |parts|
    ensures Concat(parts, Identity(n)) == AsBuilt(parts[..n])
  {
    if n > 0 {
      IdentityBound(n - 1);
      IdentityConcat(parts, n - 1);
      ConcatPush(parts, Identity(n - 1), n - 1);
      assert parts[..n][..n - 1] == parts[..n - 1];
    }
  }

  lemma {:induction false} AsBuiltConcat(a: seq<Part>, b: seq<Part>)
    ensures AsBuilt(a + b) == AsBuilt(a) + AsBuilt(b)
  {
    if b == [] {
      assert a + b == a;
    } else {
      var init := b[..|b| - 1];
      AsBuiltConcat(a, init);
      assert (a + b)[..|a + b| - 1] == a + init;
      Regroup(AsBuilt(a), AsBuilt(init), b[|b| - 1].messages);
    }
  }

  lemma AsBuiltOne(source: Source, principal: Option<string>, messages: seq<AgentMessage>)
    ensures AsBuilt([Part(source, principal, messages)]) == messages
    ensures AsBuilt(PartOf(source, principal, messages)) == messages
  {
    assert [Part(source, principal, messages)][..0] == [];
  }

  function DocumentMessages(documents: seq<Document>): seq<AgentMessage> {
    if documents == [] then []
        else DocumentMessages(documents[..|documents| - 1]) + [DocumentMessage(documents[|documents| - 1])]
  }

  lemma {:induction false} AsBuiltDocuments(documents: seq<Document>)
    ensures AsBuilt(DocumentParts(documents)) == DocumentMessages(documents)
  {
    if documents != [] {
      var init, last := documents[..|documents| - 1], documents[|documents| - 1];
      AsBuiltDocuments(init);
      AsBuiltConcat(DocumentParts(init), [Part(Documents, None, [DocumentMessage(last)])]);
      AsBuiltOne(Documents, None, [DocumentMessage(last)]);
    }
  }

  lemma InOrderIsIdentity(a: Assembly)
    requires OwnOnly(a) && InTableOrder(a.parts, 0, 5)
    ensures Order(a.parts, |PARTS|) == Identity(|a.parts|)
  {
    var order := Order(a.parts, |PARTS|);
    WindowIsStableReorder(a);
    forall k, l | 0 <= k < l < |order| ensures order[k] < order[l] {
      assert Before(a.parts, order[k], order[l]) && order[k] != order[l];
    }
    AscendingIsIdentity(order, |a.parts|);
  }

  /** A passing assembly that is in table order already flattens to its parts as built. */
  lemma InOrderFlattensAsBuilt(a: Assembly)
    requires OwnOnly(a) && InTableOrder(a.parts, 0, 5)
    ensures Concat(a.parts, Order(a.parts, |PARTS|)) == AsBuilt(a.parts)
  {
    InOrderIsIdentity(a);
    IdentityConcat(a.parts, |a.parts|);
    assert a.parts[..|a.parts|] == a.parts;
  }

  lemma PinnedAsBuilt(input: Input)
    ensures AsBuilt(PinnedParts(input)) == BriefingMessages(input.briefing) + DocumentMessages(input.documents)
  {
    AsBuiltConcat(PartOf(Briefing, None, BriefingMessages(input.briefing)), DocumentParts(input.documents));
    AsBuiltOne(Briefing, None, BriefingMessages(input.briefing));
    AsBuiltDocuments(input.documents);
  }

  lemma RoomAsBuilt(input: Input)
    ensures AsBuilt(RoomParts(input))
         == BriefingMessages(input.briefing) + DocumentMessages(input.documents)
            + (SummaryMessages(input.log) + RecentMessages(input.log)) + LastTurns(input.turns)
  {
    PinnedAsBuilt(input);
    AsBuiltCommon(input.log);
    AsBuiltConcat(PinnedParts(input), CommonParts(input.log));
    AsBuiltConcat(PinnedParts(input) + CommonParts(input.log), PartOf(RoomTurns, None, LastTurns(input.turns)));
    AsBuiltOne(RoomTurns, None, LastTurns(input.turns));
  }

  lemma AssembledAsBuilt(input: Input)
    ensures AsBuilt(Assembled(input)) == AsBuilt(RoomParts(input)) + ItemMessages(input.items)
            + TaskMessages(input.task)
  {
    var e := PartOf(OwnStore, Some(input.boundTo), ItemMessages(input.items));
    var f := PartOf(Task, None, TaskMessages(input.task));
    AsBuiltConcat(RoomParts(input), e);
    AsBuiltConcat(RoomParts(input) + e, f);
    AsBuiltOne(OwnStore, Some(input.boundTo), ItemMessages(input.items));
    AsBuiltOne(Task, None, TaskMessages(input.task));
  }

  lemma AsBuiltCommon(log: seq<RoomLog.Entry>)
    ensures AsBuilt(CommonParts(log)) == SummaryMessages(log) + RecentMessages(log)
  {
    AsBuiltConcat(PartOf(CommonGround, None, SummaryMessages(log)), [Part(CommonGround, None, RecentMessages(log))]);
    AsBuiltOne(CommonGround, None, SummaryMessages(log));
    AsBuiltOne(CommonGround, None, RecentMessages(log));
  }

  lemma PartsOwnConcat(a: seq<Part>, b: seq<Part>, principal: string)
    ensures PartsOwn(a + b, principal) <==> PartsOwn(a, principal) && PartsOwn(b, principal)
  {
    if PartsOwn(a + b, principal) {
      forall i | 0 <= i < |a| ensures a[i] == (a + b)[i] {}
      forall i | 0 <= i < |b| ensures b[i] == (a + b)[|a| + i] {}
    }
  }

  lemma {:induction false} RoomPartsOwn(input: Input)
    ensures PartsOwn(RoomParts(input), input.principal)
  {
    PartsOwnConcat(PartOf(Briefing, None, BriefingMessages(input.briefing)), DocumentParts(input.documents),
        input.principal);
    PartsOwnConcat(PinnedParts(input), CommonParts(input.log), input.principal);
    PartsOwnConcat(PinnedParts(input) + CommonParts(input.log), PartOf(RoomTurns, None, LastTurns(input.turns)),
        input.principal);
  }

  /** What `assembleContext` builds passes exactly when the store it opened, if it gave anything, was the summoned
   *  principal's. */
  lemma AssembledPasses(input: Input)
    ensures OwnOnly(Assembly(input.principal, Assembled(input))) <==>
            input.items == [] || input.boundTo == input.principal
  {
    var store := PartOf(OwnStore, Some(input.boundTo), ItemMessages(input.items));
    RoomPartsOwn(input);
    PartsOwnConcat(RoomParts(input), store, input.principal);
    PartsOwnConcat(RoomParts(input) + store, PartOf(Task, None, TaskMessages(input.task)), input.principal);
    StorePasses(input);
  }

  lemma StorePasses(input: Input)
    ensures PartsOwn(PartOf(OwnStore, Some(input.boundTo), ItemMessages(input.items)), input.principal)
       <==> input.items == [] || input.boundTo == input.principal
  {
    var store := PartOf(OwnStore, Some(input.boundTo), ItemMessages(input.items));
    if input.items != [] { assert store[0] == Part(OwnStore, Some(input.boundTo), ItemMessages(input.items)); }
  }

  /** What the pinned regions say: the briefing, then a message a document. */
  lemma PinnedRegionsSay(briefing: Option<string>, documents: seq<Document>)
    ensures BriefingMessages(briefing)
         == if briefing.None? then [] else [Summaries.AgentMessage("context/room-briefing", briefing.value)]
    ensures |DocumentMessages(documents)| == |documents|
    ensures forall i :: 0 <= i < |documents| ==> DocumentSays(DocumentMessages(documents)[i], documents[i])
  {
    DocumentsSay(documents);
  }

  /** What the common ground says: the newest summary, and the newest 36 messages past it at most. */
  lemma CommonRegionsSay(log: seq<RoomLog.Entry>)
    ensures var newest := RoomLog.LatestRoomSummary(log);
      SummaryMessages(log)
      == if newest.None? then [] else [Summaries.AgentMessage("context/room-summary", newest.value.event.text)]
    ensures Newest(RecentMessages(log), RoomLog.Messages(RoomLog.After(log, RoomLog.RoomWindowFloor(log))), 36)
  {
    var tail := RoomLog.Messages(RoomLog.After(log, RoomLog.RoomWindowFloor(log)));
    RoomLog.MessagesOnly(RoomLog.After(log, RoomLog.RoomWindowFloor(log)));
    RenderedAreNewest(tail, 36);
  }

  lemma RenderedAreNewest(tail: seq<RoomLog.Entry>, n: nat)
    requires forall e :: e in tail ==> e.event.Message?
    ensures (forall i :: 0 <= i < |RoomLog.LastN(tail, n)| ==> RoomLog.LastN(tail, n)[i].event.Message?)
    ensures Newest(Summaries.Rendered(RoomLog.LastN(tail, n)), tail, n)
  {
  }

  /** What the rest says: the last eight turns, and a message an item of the principal's own. */
  lemma OwnRegionsSay(turns: Option<seq<AgentMessage>>, items: seq<Item>)
    ensures LastTurns(turns) == if turns.None? then [] else turns.value[Max(0, |turns.value| - 8)..]
    ensures |ItemMessages(items)| == |items|
    ensures forall i :: 0 <= i < |items| ==> ItemSays(ItemMessages(items)[i], items[i])
  {
    ItemsSay(items);
  }

  /** And the task: what it is, its state and intent, who opened it, and the action it is for if it has one. */
  lemma TaskRegionSays(t: TaskState)
    ensures TaskMessages(None) == []
    ensures var action := if t.action == None || t.action == Some("") then "" else "; action " + t.action.value;
      TaskMessages(Some(t)) == [Summaries.AgentMessage("context/task-state",
        "task " + t.id + " is " + t.state + "; intent \"" + t.intent + "\"" + action + "; opened by " + t.createdBy)]
  {
  }

  ghost predicate DocumentSays(m: AgentMessage, d: Document) {
    m.author == "context/document:" + d.title && m.body == d.purpose + "\n\n" + d.content
  }

  ghost predicate ItemSays(m: AgentMessage, item: Item) {
    && m.author == "context/your-own-notes"
    && m.body == item.title + " — " + (if item.summary.Some? then item.summary.value else item.body)
  }

  /** The last `n` of the tail at most, each as its author's. */
  ghost predicate Newest(said: seq<AgentMessage>, tail: seq<RoomLog.Entry>, n: nat) {
    var skipped := Max(0, |tail| - n);
    && |said| == |tail| - skipped
    && forall i :: 0 <= i < |said| ==>
         var e := tail[skipped + i].event;
         e.Message? && said[i] == Summaries.AgentMessage(e.author, e.body)
  }

  lemma {:induction false} DocumentsSay(documents: seq<Document>)
    ensures |DocumentMessages(documents)| == |documents|
    ensures forall i :: 0 <= i < |documents| ==> DocumentSays(DocumentMessages(documents)[i], documents[i])
  {
    if documents != [] { DocumentsSay(documents[..|documents| - 1]); }
  }

  lemma {:induction false} ItemsSay(items: seq<Item>)
    ensures forall i :: 0 <= i < |items| ==> ItemSays(ItemMessages(items)[i], items[i])
  {
    if items != [] { ItemsSay(items[..|items| - 1]); }
  }

  /** A summoned turn is given the briefing, the documents, the rolling summary, the recent window, the recent turns,
   *  its own notes and its task, each whole and in this order, and nothing else. */
  lemma TurnIsGiven(input: Input)
    requires input.items == [] || input.boundTo == input.principal
    ensures Concat(Assembled(input), Order(Assembled(input), |PARTS|))
         == BriefingMessages(input.briefing) + DocumentMessages(input.documents)
            + (SummaryMessages(input.log) + RecentMessages(input.log))
            + LastTurns(input.turns) + ItemMessages(input.items) + TaskMessages(input.task)
  {
    AssembledPasses(input);
    AssembledInOrder(input);
    InOrderFlattensAsBuilt(Assembly(input.principal, Assembled(input)));
    RoomAsBuilt(input);
    AssembledAsBuilt(input);
  }
}

/**
 * Replay and live tail of a room's socket: the WebSocket route of apps/api/src/server.ts over the in-process bus of
 * apps/api/src/bus.ts. One room; an event is its number, since the log never changes what a number holds. An event
 * commits, then its process publishes it; both may fall anywhere between a socket's own steps.
 */
module Socket {
  import opened Prelude

  /** A connection: subscribed on opening, then (once accepted) one read of the backlog, then its sending. */
  datatype Conn = Conn(after: nat, open: bool, backlog: Option<seq<nat>>, replayed: bool, frames: seq<nat>)

  /** `log` is what a query sees, in number order; a number may become visible after a larger one. */
  datatype Sys = Sys(log: seq<nat>, published: set<nat>, conns: map<nat, Conn>)

  const EMPTY := Sys([], {}, map[])

  datatype Step =
    | Commit(n: nat)
    | Publish(n: nat)
    | Open(c: nat, after: nat)
    | ReadBacklog(c: nat)
    | SendBacklog(c: nat)
    | Close(c: nat)

  function Insert(log: seq<nat>, n: nat): seq<nat> {
    if log == [] || log[|log| - 1] < n then log + [n]
    else Insert(log[..|log| - 1], n) + [log[|log| - 1]]
  }

  /** eventsAfter. */
  function After(log: seq<nat>, s: nat): seq<nat> {
    if log == [] then []
    else After(log[..|log| - 1], s) + (if log[|log| - 1] > s then [log[|log| - 1]] else [])
  }

  /** `send`, as the listener and the replay loop call it: dropped when the socket is not open. */
  function Sent(k: Conn, events: seq<nat>): Conn {
    if k.open then k.(frames := k.frames + events) else k
  }

  function Apply(s: Sys, step: Step): Sys {
    match step
    case Commit(n) => if n in s.log then s else s.(log := Insert(s.log, n))
    case Publish(n) =>
      if n !in s.log || n in s.published then s
      else s.(published := s.published + {n}, conns := map c | c in s.conns :: Sent(s.conns[c], [n]))
    case Open(c, after) => if c in s.conns then s else s.(conns := s.conns[c := Conn(after, true, None, false, [])])
    case ReadBacklog(c) =>
      if c in s.conns && s.conns[c].open && s.conns[c].backlog.None?
      then s.(conns := s.conns[c := s.conns[c].(backlog := Some(After(s.log, s.conns[c].after)))]) else s
    case SendBacklog(c) =>
      if c in s.conns && s.conns[c].backlog.Some? && !s.conns[c].replayed
      then s.(conns := s.conns[c := Sent(s.conns[c], s.conns[c].backlog.value).(replayed := true)]) else s
    case Close(c) => if c in s.conns then s.(conns := s.conns[c := s.conns[c].(open := false)]) else s
  }

  function Run(s: Sys, steps: seq<Step>): Sys
    decreases |steps|
  {
    if steps == [] then s else Run(Apply(s, steps[0]), steps[1..])
  }

  // ---------------------------------------------------------------- the log's order

  ghost predicate Ascending(log: seq<nat>) {
    forall i, j :: 0 <= i < j < |log| ==> log[i] < log[j]
  }

  lemma AppendAscending(a: seq<nat>, n: nat)
    requires Ascending(a) && forall x :: x in a ==> x < n
    ensures Ascending(a + [n])
  {
    forall i | 0 <= i < |a| ensures a[i] < n { assert a[i] in a; }
  }

  lemma LastIsGreatest(init: seq<nat>, last: nat)
    requires Ascending(init + [last])
    ensures Ascending(init) && forall x :: x in init ==> x < last
  {
    var a := init + [last];
    forall i | 0 <= i < |init| ensures init[i] < last { assert a[i] == init[i] && a[|init|] == last; }
    forall i, j | 0 <= i < j < |init| ensures init[i] < init[j] { assert a[i] == init[i] && a[j] == init[j]; }
  }

  lemma {:induction false} InsertHolds(log: seq<nat>, n: nat)
    requires Ascending(log) && n !in log
    ensures Ascending(Insert(log, n)) && forall x :: x in Insert(log, n) <==> x in log || x == n
  {
    if log == [] {
      assert Insert(log, n) == [n];
    } else {
      var init, last := log[..|log| - 1], log[|log| - 1];
      assert log == init + [last];
      LastIsGreatest(init, last);
      if last < n {
        AppendAscending(log, n);
      } else {
        InsertHolds(init, n);
        AppendAscending(Insert(init, n), last);
      }
    }
  }

  lemma {:induction false} AfterHolds(log: seq<nat>, s: nat)
    requires Ascending(log)
    ensures Ascending(After(log, s)) && forall x :: x in After(log, s) <==> x in log && x > s
  {
    if log != [] {
      var init, last := log[..|log| - 1], log[|log| - 1];
      assert log == init + [last];
      LastIsGreatest(init, last);
      AfterHolds(init, s);
      if last > s { AppendAscending(After(init, s), last); }
    }
  }

  lemma {:induction false} AscendingOnce(a: seq<nat>, x: nat)
    requires Ascending(a)
    ensures multiset(a)[x] == if x in a then 1 else 0
  {
    if a != [] {
      var init := a[..|a| - 1];
      AscendingOnce(init, x);
      assert a == init + [a[|a| - 1]];
    }
  }

  // ---------------------------------------------------------------- what every interleaving keeps

  predicate Replayed(k: Conn, n: nat) {
    k.backlog.Some? && n in k.backlog.value
  }

  ghost predicate ConnHolds(log: seq<nat>, published: set<nat>, k: Conn) {
    && (k.replayed ==> k.backlog.Some?)
    && (k.backlog.Some? ==> Ascending(k.backlog.value) && forall n :: n in k.backlog.value ==> n in log && n > k.after)
    // Nothing published past `after` is lost while the socket is open: it came live, or the backlog read it.
    && (k.open && k.backlog.Some? ==> forall n :: n in published && n > k.after ==>
        n in k.frames || n in k.backlog.value)
    && (k.open && k.replayed ==> forall n :: n in k.backlog.value ==> n in k.frames)
    // Nothing is made up, and nothing comes more than once live and once replayed.
    && forall n :: multiset(k.frames)[n] <= (if n in published then 1 else 0)
        + (if k.replayed && Replayed(k, n) then 1 else 0)
  }

  ghost predicate Inv(s: Sys) {
    && Ascending(s.log)
    && (forall n :: n in s.published ==> n in s.log)
    && (forall c :: c in s.conns ==> ConnHolds(s.log, s.published, s.conns[c]))
  }

  lemma PublishConn(log: seq<nat>, published: set<nat>, k: Conn, n: nat)
    requires ConnHolds(log, published, k) && n !in published
    ensures ConnHolds(log, published + {n}, Sent(k, [n]))
  {
    var sent := Sent(k, [n]);
    forall x | x in k.frames ensures k.open ==> x in sent.frames {}
    forall x ensures multiset(sent.frames)[x] <= multiset(k.frames)[x] + (if x == n then 1 else 0) {}
    if k.open { assert sent.frames[|k.frames|] == n; }
  }

  lemma ReadConn(log: seq<nat>, published: set<nat>, k: Conn)
    requires ConnHolds(log, published, k) && Ascending(log) && k.backlog.None? && forall n :: n in published ==>
            n in log
    ensures ConnHolds(log, published, k.(backlog := Some(After(log, k.after))))
  {
    AfterHolds(log, k.after);
  }

  lemma SendConn(log: seq<nat>, published: set<nat>, k: Conn)
    requires ConnHolds(log, published, k) && k.backlog.Some? && !k.replayed
    ensures ConnHolds(log, published, Sent(k, k.backlog.value).(replayed := true))
  {
    var sent := Sent(k, k.backlog.value);
    forall x ensures multiset(sent.frames)[x] <= multiset(k.frames)[x] + (if Replayed(k, x) then 1 else 0) {
      AscendingOnce(k.backlog.value, x);
    }
    if k.open {
      forall x | x in k.backlog.value || x in k.frames ensures x in sent.frames {}
    }
  }

  lemma {:induction false} PublishKeeps(s: Sys, n: nat)
    requires Inv(s)
    ensures Inv(Apply(s, Publish(n)))
  {
    if n in s.log && n !in s.published {
      forall c | c in s.conns ensures ConnHolds(s.log, s.published + {n}, Sent(s.conns[c], [n])) {
        PublishConn(s.log, s.published, s.conns[c], n);
      }
    }
  }

  lemma CommitKeeps(s: Sys, n: nat)
    requires Inv(s)
    ensures Inv(Apply(s, Commit(n)))
  {
    if n !in s.log { InsertHolds(s.log, n); }
  }

  lemma OneConnKeeps(s: Sys, c: nat, k: Conn)
    requires Inv(s) && ConnHolds(s.log, s.published, k)
    ensures Inv(s.(conns := s.conns[c := k]))
  {
  }

  lemma StepKeeps(s: Sys, step: Step)
    requires Inv(s)
    ensures Inv(Apply(s, step))
  {
    match step
    case Commit(n) => CommitKeeps(s, n);
    case Publish(n) => PublishKeeps(s, n);
    case Open(c, after) => if c !in s.conns { OneConnKeeps(s, c, Conn(after, true, None, false, [])); }
    case ReadBacklog(c) =>
      if c in s.conns && s.conns[c].open && s.conns[c].backlog.None? {
        ReadConn(s.log, s.published, s.conns[c]);
        OneConnKeeps(s, c, s.conns[c].(backlog := Some(After(s.log, s.conns[c].after))));
      }
    case SendBacklog(c) =>
      if c in s.conns && s.conns[c].backlog.Some? && !s.conns[c].replayed {
        SendConn(s.log, s.published, s.conns[c]);
        OneConnKeeps(s, c, Sent(s.conns[c], s.conns[c].backlog.value).(replayed := true));
      }
    case Close(c) => if c in s.conns { OneConnKeeps(s, c, s.conns[c].(open := false)); }
  }

  lemma {:induction false} RunKeeps(s: Sys, steps: seq<Step>)
    requires Inv(s)
    ensures Inv(Run(s, steps))
    decreases |steps|
  {
    if steps != [] {
      StepKeeps(s, steps[0]);
      RunKeeps(Apply(s, steps[0]), steps[1..]);
    }
  }

  /** For every open socket whose replay has run, over every interleaving: the frames past `after`, deduplicated on
   *  their number, are exactly the events published plus those the backlog read; each comes at most twice; when
   *  every committed event has been published they are exactly the committed events. */
  lemma SocketMissesNothing(steps: seq<Step>, c: nat)
    requires c in Run(EMPTY, steps).conns
    requires Run(EMPTY, steps).conns[c].open && Run(EMPTY, steps).conns[c].replayed
    ensures var s := Run(EMPTY, steps);
      var k := s.conns[c];
      && k.backlog.Some?
      && (forall n :: n > k.after ==> (n in k.frames <==> n in s.published || n in k.backlog.value))
      && (forall n :: multiset(k.frames)[n] <= 2)
      && (forall n :: n in k.frames ==> n in s.log)
      && ((forall n :: n in s.log ==> n in s.published) ==> forall n :: n > k.after ==> (n in k.frames <==> n in s.log))
  {
    RunKeeps(EMPTY, steps);
    var s := Run(EMPTY, steps);
    var k := s.conns[c];
    forall n | n in k.frames ensures n in s.published || n in k.backlog.value { assert multiset(k.frames)[n] > 0; }
  }

  /** A socket that opens is sent, in number order, every event committed past its cursor, and then only what is
   *  published; when it closes it is sent nothing more. */
  lemma OpeningReplaysTheBacklog(s: Sys, c: nat, after: nat)
    requires Ascending(s.log) && c !in s.conns
    ensures var end := Run(s, [Open(c, after), ReadBacklog(c), SendBacklog(c)]);
      && c in end.conns && end.conns[c].open && end.conns[c].replayed && end.conns[c].after == after
      && Ascending(end.conns[c].frames) && (forall n :: n in end.conns[c].frames <==> n in s.log && n > after)
      && end.log == s.log && end.published == s.published
  {
    var open := Apply(s, Open(c, after));
    var read := Apply(open, ReadBacklog(c));
    RunThree(s, Open(c, after), ReadBacklog(c), SendBacklog(c));
    AfterHolds(s.log, after);
    assert [] + After(s.log, after) == After(s.log, after);
  }

  /** A new event takes its place in the log by its number, and goes to every open socket, once, and to no other. */
  lemma NewEventGoesOut(s: Sys, n: nat, c: nat)
    requires Ascending(s.log) && n !in s.log && n !in s.published && c in s.conns
    ensures var end := Run(s, [Commit(n), Publish(n)]);
      && Ascending(end.log) && (forall x :: x in end.log <==> x in s.log || x == n)
      && end.published == s.published + {n} && c in end.conns
      && end.conns[c].frames == if s.conns[c].open then s.conns[c].frames + [n] else s.conns[c].frames
  {
    InsertHolds(s.log, n);
    RunTwo(s, Commit(n), Publish(n));
  }

  /** Nothing committed after its close reaches a socket. */
  lemma ClosedSocketIsSilent(s: Sys, c: nat, n: nat)
    requires Ascending(s.log) && n !in s.log && n !in s.published && c in s.conns
    ensures var end := Run(s, [Close(c)] + [Commit(n), Publish(n)]);
      c in end.conns && end.conns[c].frames == s.conns[c].frames
  {
    assert ([Close(c)] + [Commit(n), Publish(n)])[1..] == [Commit(n), Publish(n)];
    assert ([Close(c)] + [Commit(n), Publish(n)])[0] == Close(c);
    NewEventGoesOut(Apply(s, Close(c)), n, c);
  }

  lemma RunTwo(s: Sys, a: Step, b: Step)
    ensures Run(s, [a, b]) == Apply(Apply(s, a), b)
  {
    assert [a, b][1..] == [b] && [b][1..] == [];
    assert Run(Apply(s, a), [b]) == Run(Apply(Apply(s, a), b), []);
  }

  lemma RunThree(s: Sys, a: Step, b: Step, c: Step)
    ensures Run(s, [a, b, c]) == Apply(Apply(Apply(s, a), b), c)
  {
    assert [a, b, c][1..] == [b, c];
    RunTwo(Apply(s, a), b, c);
  }

  // ---------------------------------------------------------------- a client that comes back

  /** Since a connection opened, with `base` published before: it gets what is published from then on, and nothing
   *  else but its backlog. */
  ghost predicate Since(k: Conn, base: set<nat>, published: set<nat>) {
    && base <= published
    && (k.open ==> forall n :: n in published && n !in base ==> n in k.frames)
    && (forall n :: n in k.frames ==> (n in published && n !in base) || Replayed(k, n))
  }

  lemma SinceStep(s: Sys, step: Step, c: nat, base: set<nat>)
    requires c in s.conns && Since(s.conns[c], base, s.published)
    ensures var after := Apply(s, step);
      c in after.conns && after.conns[c].after == s.conns[c].after && Since(after.conns[c], base, after.published)
  {
    var k, after := s.conns[c], Apply(s, step);
    if step.Publish? && step.n in s.log && step.n !in s.published && k.open {
      assert after.conns[c].frames == k.frames + [step.n];
      assert after.conns[c].frames[|k.frames|] == step.n;
      forall n | n in k.frames ensures n in after.conns[c].frames {}
    }
  }

  lemma {:induction false} SinceRun(s: Sys, steps: seq<Step>, c: nat, base: set<nat>)
    requires c in s.conns && Since(s.conns[c], base, s.published)
    ensures var end := Run(s, steps);
      c in end.conns && end.conns[c].after == s.conns[c].after && Since(end.conns[c], base, end.published)
    decreases |steps|
  {
    if steps != [] {
      SinceStep(s, steps[0], c, base);
      SinceRun(Apply(s, steps[0]), steps[1..], c, base);
    }
  }

  lemma ClosedStep(s: Sys, step: Step, c: nat)
    requires c in s.conns && !s.conns[c].open
    ensures var after := Apply(s, step);
      c in after.conns && !after.conns[c].open && after.conns[c].frames == s.conns[c].frames
  {
  }

  lemma {:induction false} ClosedRun(s: Sys, steps: seq<Step>, c: nat)
    requires c in s.conns && !s.conns[c].open
    ensures c in Run(s, steps).conns && Run(s, steps).conns[c].frames == s.conns[c].frames
    decreases |steps|
  {
    if steps != [] {
      ClosedStep(s, steps[0], c);
      ClosedRun(Apply(s, steps[0]), steps[1..], c);
    }
  }

  /** A client whose connection `c` has closed opens `d` at a cursor of its choice. Once all is published and `d` has
   *  replayed, it holds an event if and only if `c` brought it, or it is past the cursor, or was published only after
   *  `d` opened. So it misses nothing if and only if, when it reopened, `c` had brought every event published up to the
   *  cursor: the highest number it holds is not enough, since a lower one can be published later. */
  lemma ResumeMissesOnlySkippedEvents(before: seq<Step>, c: nat, d: nat, cursor: nat, later: seq<Step>)
    requires var left := Run(EMPTY, before); c in left.conns && !left.conns[c].open && d !in left.conns
    ensures var left := Run(EMPTY, before);
      var s := Run(Apply(left, Open(d, cursor)), later);
      && c in s.conns && d in s.conns
      && (s.conns[d].open && s.conns[d].replayed && (forall n :: n in s.log ==> n in s.published) ==>
            && (forall n :: n in s.log ==>
                  (n in s.conns[c].frames || n in s.conns[d].frames <==>
                     n in left.conns[c].frames || n > cursor || n !in left.published))
            && ((forall n :: n in s.log ==> n in s.conns[c].frames || n in s.conns[d].frames) <==>
                  forall n :: n in left.published && n <= cursor ==> n in left.conns[c].frames))
  {
    var left := Run(EMPTY, before);
    var reopened := Apply(left, Open(d, cursor));
    var s := Run(reopened, later);
    RunKeeps(EMPTY, before);
    StepKeeps(left, Open(d, cursor));
    RunKeeps(reopened, later);
    SinceRun(reopened, later, d, left.published);
    ClosedRun(reopened, later, c);
    if s.conns[d].open && s.conns[d].replayed && forall n :: n in s.log ==> n in s.published {
      HoldsAfterResume(s, d, left.published);
      LogGrows(reopened, later);
    }
  }

  lemma HoldsAfterResume(s: Sys, d: nat, base: set<nat>)
    requires Inv(s) && d in s.conns && s.conns[d].open && s.conns[d].replayed && Since(s.conns[d], base, s.published)
    requires forall n :: n in s.log ==> n in s.published
    ensures forall n :: n in s.log ==> (n in s.conns[d].frames <==> n > s.conns[d].after || n !in base)
  {
    assert ConnHolds(s.log, s.published, s.conns[d]);
  }

  lemma {:induction false} LogGrows(s: Sys, steps: seq<Step>)
    requires Inv(s)
    ensures forall n :: n in s.log ==> n in Run(s, steps).log
    decreases |steps|
  {
    if steps != [] {
      StepKeeps(s, steps[0]);
      if steps[0].Commit? && steps[0].n !in s.log { InsertHolds(s.log, steps[0].n); }
      LogGrows(Apply(s, steps[0]), steps[1..]);
    }
  }

  // ---------------------------------------------------------------- the bus, and the listener it calls

  /** One socket's send side: a frame is written when the socket is open, else dropped. */
  class Connection {
    var open: bool
    var frames: seq<nat>

    constructor ()
      ensures open && frames == []
    {
      open, frames := true, [];
    }

    method Send(n: nat)
      modifies this`frames
      ensures frames == if open then old(frames) + [n] else old(frames)
    {
      if open { frames := frames + [n]; }
    }

    /** The replay loop. */
    method SendAll(backlog: seq<nat>)
      modifies this`frames
      ensures frames == if open then old(frames) + backlog else old(frames)
    {
      for i := 0 to |backlog|
        invariant frames == if open then old(frames) + backlog[..i] else old(frames)
      {
        Send(backlog[i]);
        assert backlog[..i + 1] == backlog[..i] + [backlog[i]];
      }
      assert backlog[..|backlog|] == backlog;
    }
  }

  /** Listeners by room, each connection subscribing once. */
  class RoomBus {
    var listeners: map<string, seq<Connection>>

    constructor ()
      ensures listeners == map[]
    {
      listeners := map[];
    }

    function ListenersOf(roomId: string): seq<Connection>
      reads this
    {
      if roomId in listeners then listeners[roomId] else []
    }

    ghost predicate Valid()
      reads this
    {
      forall r :: r in listeners ==> forall i, j :: 0 <= i < j < |listeners[r]| ==> listeners[r][i] != listeners[r][j]
    }

    /** Every listener of the room, and of no other, is handed the event once. */
    method Publish(roomId: string, n: nat)
      requires Valid()
      modifies set k | k in ListenersOf(roomId)
      ensures Valid() && listeners == old(listeners)
      ensures forall k :: k in ListenersOf(roomId) ==>
                k.open == old(k.open) && k.frames == if old(k.open) then old(k.frames) + [n] else old(k.frames)
    {
      var mine := ListenersOf(roomId);
      for i := 0 to |mine|
        invariant listeners == old(listeners)
        invariant forall j :: 0 <= j < |mine| ==> mine[j].open == old(mine[j].open)
        invariant forall j :: 0 <= j < i ==> mine[j].frames == if old(mine[j].open) then old(mine[j].frames) + [n]
                else old(mine[j].frames)
        invariant forall j :: i <= j < |mine| ==> mine[j].frames == old(mine[j].frames)
      {
        mine[i].Send(n);
      }
    }

    method Subscribe(roomId: string, k: Connection)
      requires Valid() && k !in ListenersOf(roomId)
      modifies this
      ensures Valid() && ListenersOf(roomId) == old(ListenersOf(roomId)) + [k]
      ensures forall r :: r != roomId ==> ListenersOf(r) == old(ListenersOf(r))
    {
      listeners := listeners[roomId := ListenersOf(roomId) + [k]];
    }

    /** What `subscribe` returns: the listener goes, the others keep their order. */
    method Unsubscribe(roomId: string, k: Connection)
      requires Valid()
      modifies this
      ensures Valid() && k !in ListenersOf(roomId)
      ensures forall r :: r != roomId ==> ListenersOf(r) == old(ListenersOf(r))
      ensures forall i :: 0 <= i < |old(ListenersOf(roomId))| && old(ListenersOf(roomId))[i] == k ==>
                ListenersOf(roomId) == old(ListenersOf(roomId))[..i] + old(ListenersOf(roomId))[i + 1..]
      ensures k !in old(ListenersOf(roomId)) ==> ListenersOf(roomId) == old(ListenersOf(roomId))
    {
      var mine := ListenersOf(roomId);
      for i := 0 to |mine|
        invariant forall j :: 0 <= j < i ==> mine[j] != k
        invariant listeners == old(listeners)
      {
        if mine[i] == k {
          listeners := listeners[roomId := mine[..i] + mine[i + 1..]];
          return;
        }
      }
    }
  }
}

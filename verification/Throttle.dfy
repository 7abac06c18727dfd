/**
 * The sliding-window throttles of apps/api/src/server.ts (`redeemThrottled`, `actionThrottled`, `oauthThrottled`
 * are one algorithm): a map of recent hits, filtered and pruned as it is used, against the whole history of calls.
 */
module Throttle {
  import opened Prelude

  const PRUNE_ABOVE: nat := 20000

  datatype Call = Call(key: string, at: int)

  // ---------------------------------------------------------------- counting over the whole history

  /** The times `key` called at, after `cutoff`. */
  function Recent(history: seq<Call>, key: string, cutoff: int): seq<int> {
    if history == [] then []
    else
      var last := history[|history| - 1];
      Recent(history[..|history| - 1], key, cutoff) + (if last.key == key && last.at > cutoff then [last.at] else [])
  }

  /** The verdict on `call` after `prior`, counted over everything that ever happened. */
  predicate Refused(prior: seq<Call>, call: Call, window: nat, max: nat) {
    |Recent(prior, call.key, call.at - window)| + 1 > max
  }

  /** The calls of `key` after `cutoff`, by their place in the history. */
  ghost function CallsAfter(history: seq<Call>, key: string, cutoff: int): set<nat> {
    set i | 0 <= i < |history| && history[i].key == key && history[i].at > cutoff
  }

  lemma {:induction false} RecentCounts(history: seq<Call>, key: string, cutoff: int)
    ensures |Recent(history, key, cutoff)| == |CallsAfter(history, key, cutoff)|
  {
    if history != [] {
      var n := |history| - 1;
      var before := CallsAfter(history[..n], key, cutoff);
      RecentCounts(history[..n], key, cutoff);
      forall i | i in CallsAfter(history, key, cutoff) && i != n ensures i in before {
        assert history[..n][i] == history[i];
      }
      assert CallsAfter(history, key, cutoff)
          == before + (if history[n].key == key && history[n].at > cutoff then {n} else {});
    }
  }

  /** A call is let through if and only if fewer than `max` calls of its key, refused ones included, came within the
   *  window before it. */
  lemma RefusedFromMaxOn(prior: seq<Call>, call: Call, window: nat, max: nat)
    ensures Refused(prior, call, window, max)
       <==> |set i | 0 <= i < |prior| && prior[i].key == call.key && prior[i].at > call.at - window| >= max
  {
    RecentCounts(prior, call.key, call.at - window);
    assert CallsAfter(prior, call.key, call.at - window)
        == set i | 0 <= i < |prior| && prior[i].key == call.key && prior[i].at > call.at - window;
  }

  /** The calls of `key` in (after, after + window] that were let through. */
  ghost function AdmittedIn(history: seq<Call>, key: string, after: int, window: nat, max: nat): set<nat> {
    set i | 0 <= i < |history| && history[i].key == key && after < history[i].at <= after + window
            && !Refused(history[..i], history[i], window, max)
  }

  lemma AdmittedStep(history: seq<Call>, key: string, after: int, window: nat, max: nat)
    requires history != []
    ensures var n := |history| - 1;
      && AdmittedIn(history[..n], key, after, window, max) <= AdmittedIn(history, key, after, window, max)
      && AdmittedIn(history, key, after, window, max) <= AdmittedIn(history[..n], key, after, window, max) + {n}
  {
    var n := |history| - 1;
    forall i: nat | i < n ensures history[..n][i] == history[i] && history[..n][..i] == history[..i] {}
  }

  lemma AdmittedAreRecent(history: seq<Call>, key: string, after: int, window: nat, max: nat, cutoff: int)
    requires cutoff <= after
    ensures |AdmittedIn(history, key, after, window, max)| <= |Recent(history, key, cutoff)|
  {
    RecentCounts(history, key, cutoff);
    SubsetSize(AdmittedIn(history, key, after, window, max), CallsAfter(history, key, cutoff));
  }

  /** No window of the configured length, wherever it starts, admits more than `max` calls of one key. */
  lemma {:induction false} AtMostMaxPerWindow(history: seq<Call>, key: string, after: int, window: nat, max: nat)
    ensures |AdmittedIn(history, key, after, window, max)| <= max
  {
    if history != [] {
      var n := |history| - 1;
      var admitted := AdmittedIn(history, key, after, window, max);
      AdmittedStep(history, key, after, window, max);
      OneMore(AdmittedIn(history[..n], key, after, window, max), admitted, n);
      if n in admitted {
        RoomForOne(history[..n], history[n], key, after, window, max);
      } else {
        AtMostMaxPerWindow(history[..n], key, after, window, max);
      }
    }
  }

  /** A call that is let through finds fewer than `max` let through in any window it falls in. */
  lemma RoomForOne(prior: seq<Call>, call: Call, key: string, after: int, window: nat, max: nat)
    requires call.key == key && after < call.at <= after + window && !Refused(prior, call, window, max)
    ensures |AdmittedIn(prior, key, after, window, max)| + 1 <= max
  {
    AdmittedAreRecent(prior, key, after, window, max, call.at - window);
  }

  lemma OneMore(before: set<nat>, after: set<nat>, n: nat)
    requires before <= after <= before + {n}
    ensures |after| <= |before| + (if n in after then 1 else 0)
  {
    SubsetSize(after, if n in after then before + {n} else before);
  }

  // ---------------------------------------------------------------- the kept map stands in for the history

  function Later(hits: seq<int>, cutoff: int): seq<int> {
    if hits == [] then []
    else Later(hits[..|hits| - 1], cutoff) + (if hits[|hits| - 1] > cutoff then [hits[|hits| - 1]] else [])
  }

  lemma LaterAppend(hits: seq<int>, t: int, cutoff: int)
    ensures Later(hits + [t], cutoff) == Later(hits, cutoff) + (if t > cutoff then [t] else [])
  {
    assert (hits + [t])[..|hits|] == hits;
  }

  /** Filtering at a cutoff and again at a later one is filtering at the later. */
  lemma {:induction false} LaterTwice(hits: seq<int>, first: int, second: int)
    requires first <= second
    ensures Later(Later(hits, first), second) == Later(hits, second)
  {
    if hits != [] {
      var init, last := hits[..|hits| - 1], hits[|hits| - 1];
      LaterTwice(init, first, second);
      if last > first {
        assert Later(hits, first) == Later(init, first) + [last];
        LaterAppend(Later(init, first), last, second);
      } else {
        assert Later(hits, first) == Later(init, first);
      }
    }
  }

  lemma {:induction false} NoneLater(hits: seq<int>, cutoff: int)
    requires forall i :: 0 <= i < |hits| ==> hits[i] <= cutoff
    ensures Later(hits, cutoff) == []
  {
    if hits != [] { NoneLater(hits[..|hits| - 1], cutoff); }
  }

  lemma {:induction false} LaterWithin(hits: seq<int>, cutoff: int)
    ensures forall x :: x in Later(hits, cutoff) ==> x in hits
  {
    if hits != [] { LaterWithin(hits[..|hits| - 1], cutoff); }
  }

  lemma RecentAppend(history: seq<Call>, call: Call, key: string, cutoff: int)
    ensures Recent(history + [call], key, cutoff)
         == Recent(history, key, cutoff) + (if call.key == key && call.at > cutoff then [call.at] else [])
  {
    assert (history + [call])[..|history|] == history;
  }

  function HitsOf(hits: map<string, seq<int>>, key: string): seq<int> {
    if key in hits then hits[key] else []
  }

  /** For every cutoff still to come, the map and the whole history agree. */
  ghost predicate Stands(hits: map<string, seq<int>>, history: seq<Call>, cutoff: int) {
    forall key, c :: c >= cutoff ==> Later(HitsOf(hits, key), c) == Recent(history, key, c)
  }

  predicate NewestWithin(times: seq<int>, bound: int) {
    times != [] && times[|times| - 1] <= bound
  }

  /** A key is kept with some hit, its newest last. */
  ghost predicate NewestLast(times: seq<int>) {
    times != [] && forall i :: 0 <= i < |times| ==> times[i] <= times[|times| - 1]
  }

  ghost predicate Kept(hits: map<string, seq<int>>, now: int) {
    forall key :: key in hits ==> NewestLast(hits[key]) && NewestWithin(hits[key], now)
  }

  lemma PushKept(hits: map<string, seq<int>>, key: string, cutoff: int, clock: int, now: int)
    requires Kept(hits, clock) && clock <= now
    ensures Kept(hits[key := Later(HitsOf(hits, key), cutoff) + [now]], now)
  {
    var older := Later(HitsOf(hits, key), cutoff);
    LaterWithin(HitsOf(hits, key), cutoff);
    forall i | 0 <= i < |older| ensures older[i] <= now { assert older[i] in older; }
    assert NewestLast(older + [now]);
  }

  lemma PushStands(hits: map<string, seq<int>>, history: seq<Call>, call: Call, cutoff: int)
    requires Stands(hits, history, cutoff)
    ensures Stands(hits[call.key := Later(HitsOf(hits, call.key), cutoff) + [call.at]], history + [call], cutoff)
  {
    var pushed := hits[call.key := Later(HitsOf(hits, call.key), cutoff) + [call.at]];
    forall key, c | c >= cutoff ensures Later(HitsOf(pushed, key), c) == Recent(history + [call], key, c) {
      RecentAppend(history, call, key, c);
      if key == call.key {
        LaterAppend(Later(HitsOf(hits, key), cutoff), call.at, c);
        LaterTwice(HitsOf(hits, key), cutoff, c);
      }
    }
  }

  /** Dropping a key whose newest hit has left the window changes no count to come. */
  lemma DropStands(hits: map<string, seq<int>>, history: seq<Call>, key: string, cutoff: int, now: int)
    requires Stands(hits, history, cutoff) && Kept(hits, now) && key in hits && NewestWithin(hits[key], cutoff)
    ensures Stands(hits - {key}, history, cutoff) && Kept(hits - {key}, now)
  {
    forall k, c | c >= cutoff ensures Later(HitsOf(hits - {key}, k), c) == Recent(history, k, c) {
      if k == key { NoneLater(hits[key], c); }
    }
  }

  lemma StandsLater(hits: map<string, seq<int>>, history: seq<Call>, early: int, late: int)
    requires Stands(hits, history, early) && early <= late
    ensures Stands(hits, history, late)
  {
  }

  /** Filtering twice never keeps more, whichever cutoff is later. */
  lemma {:induction false} LaterFewer(hits: seq<int>, first: int, second: int)
    ensures |Later(Later(hits, first), second)| <= |Later(hits, second)|
  {
    if hits != [] {
      var init, last := hits[..|hits| - 1], hits[|hits| - 1];
      LaterFewer(init, first, second);
      if last > first {
        assert Later(hits, first) == Later(init, first) + [last];
        LaterAppend(Later(init, first), last, second);
      } else {
        assert Later(hits, first) == Later(init, first);
      }
    }
  }

  /** The map never counts more than the whole history, whatever the clock does. */
  ghost predicate Within(hits: map<string, seq<int>>, history: seq<Call>) {
    forall key, c: int :: |Later(HitsOf(hits, key), c)| <= |Recent(history, key, c)|
  }

  lemma PushWithin(hits: map<string, seq<int>>, history: seq<Call>, call: Call, cutoff: int)
    requires Within(hits, history)
    ensures Within(hits[call.key := Later(HitsOf(hits, call.key), cutoff) + [call.at]], history + [call])
  {
    var pushed := hits[call.key := Later(HitsOf(hits, call.key), cutoff) + [call.at]];
    forall key, c: int ensures |Later(HitsOf(pushed, key), c)| <= |Recent(history + [call], key, c)| {
      RecentAppend(history, call, key, c);
      if key == call.key {
        LaterAppend(Later(HitsOf(hits, key), cutoff), call.at, c);
        LaterFewer(HitsOf(hits, key), cutoff, c);
      }
    }
  }

  lemma Counts(hits: map<string, seq<int>>, history: seq<Call>, key: string, cutoff: int, exact: bool)
    requires Within(hits, history) && (exact ==> Stands(hits, history, cutoff))
    ensures |Later(HitsOf(hits, key), cutoff)| <= |Recent(history, key, cutoff)|
    ensures exact ==> |Later(HitsOf(hits, key), cutoff)| == |Recent(history, key, cutoff)|
  {
  }

  lemma DropWithin(hits: map<string, seq<int>>, history: seq<Call>, key: string)
    requires Within(hits, history)
    ensures Within(hits - {key}, history)
  {
    forall k, c: int ensures |Later(HitsOf(hits - {key}, k), c)| <= |Recent(history, k, c)| {
      if k != key { assert HitsOf(hits - {key}, k) == HitsOf(hits, k); }
    }
  }

  /** The clock never ran back. */
  ghost predicate Rising(history: seq<Call>) {
    forall i, j :: 0 <= i < j < |history| ==> history[i].at <= history[j].at
  }

  /** Where it matters, the map is as good as the history: for every cutoff a rising clock can still ask for. */
  ghost predicate AsGood(hits: map<string, seq<int>>, history: seq<Call>, window: nat) {
    if history == [] then hits == map[]
    else Kept(hits, history[|history| - 1].at) && Stands(hits, history, history[|history| - 1].at - window)
  }

  lemma CallIsAsGood(hits: map<string, seq<int>>, history: seq<Call>, call: Call, window: nat)
    requires AsGood(hits, history, window) && Rising(history + [call])
    ensures Stands(hits, history, call.at - window)
    ensures AsGood(hits[call.key := Later(HitsOf(hits, call.key), call.at - window) + [call.at]], history + [call],
            window)
  {
    var cutoff := call.at - window;
    if history != [] {
      var last := history[|history| - 1].at;
      assert (history + [call])[|history| - 1].at <= (history + [call])[|history|].at;
      StandsLater(hits, history, last - window, cutoff);
      PushKept(hits, call.key, cutoff, last, call.at);
    } else {
      PushKept(hits, call.key, cutoff, call.at, call.at);
    }
    PushStands(hits, history, call, cutoff);
  }

  lemma RisingPrefix(history: seq<Call>, call: Call)
    requires Rising(history + [call])
    ensures Rising(history)
  {
    forall i, j | 0 <= i < j < |history| ensures history[i].at <= history[j].at {
      assert (history + [call])[i] == history[i] && (history + [call])[j] == history[j];
    }
  }

  /** Not so when it runs back: a filter at a later time has forgotten a hit an earlier window would have counted. */
  lemma SteppedBackClockForgets(key: string, first: int, second: int, third: int, window: nat)
    requires first <= second - window && third - window < first < second
    ensures Later(Later([first], second - window) + [second], third - window) == [second]
    ensures Recent([Call(key, first)] + [Call(key, second)], key, third - window) == [first, second]
  {
    assert [first][..0] == [];
    LaterAppend([], first, second - window);
    LaterAppend([], second, third - window);
    RecentAppend([], Call(key, first), key, third - window);
    RecentAppend([Call(key, first)], Call(key, second), key, third - window);
    assert [] + [first] == [first] && [] + [second] == [second] && [] + [Call(key, first)] == [Call(key, first)];
  }

  class Throttler {
    const max: nat
    const window: nat
    var hits: map<string, seq<int>>
    ghost var history: seq<Call>

    constructor (max: nat, window: nat)
      ensures Valid() && history == [] && this.max == max && this.window == window
    {
      this.max, this.window, hits, history := max, window, map[], [];
    }

    ghost predicate Valid()
      reads this
    {
      Within(hits, history) && (Rising(history) ==> AsGood(hits, history, window))
    }

    /** Whatever the clock does, a refusal is one the whole history warrants, refused calls included; while it has not
     *  run back, the verdict is exactly the one counted over the whole history. */
    method Throttled(key: string, now: int) returns (refused: bool)
      requires Valid()
      modifies this
      ensures Valid() && history == old(history) + [Call(key, now)]
      ensures var earlier := CallsAfter(old(history), key, now - window);
        (refused ==> |earlier| >= max) && (Rising(history) ==> (refused <==> |earlier| >= max))
    {
      var cutoff := now - window;
      ghost var call := Call(key, now);
      ghost var rising := Rising(history + [call]);
      if rising {
        RisingPrefix(history, call);
        CallIsAsGood(hits, history, call, window);
      }
      Counts(hits, history, key, cutoff, rising);
      RecentCounts(history, key, cutoff);
      PushWithin(hits, history, call, cutoff);
      var recent := Later(HitsOf(hits, key), cutoff) + [now];
      hits := hits[key := recent];
      history := history + [call];
      if |hits| > PRUNE_ABOVE { Prune(cutoff, now, rising); }
      refused := |recent| > max;
    }

    /** Keys whose last hit has left the window go, the rest stay as they are; under a rising clock no count to come
     *  changes. */
    method Prune(cutoff: int, ghost now: int, ghost rising: bool)
      requires Within(hits, history) && (rising ==> Kept(hits, now) && Stands(hits, history, cutoff))
      modifies this`hits
      ensures Within(hits, history) && (rising ==> Kept(hits, now) && Stands(hits, history, cutoff))
      ensures hits == map key | key in old(hits) && !NewestWithin(old(hits)[key], cutoff) :: old(hits)[key]
    {
      var left := hits.Keys;
      while left != {}
        invariant Within(hits, history) && (rising ==> Kept(hits, now) && Stands(hits, history, cutoff))
        invariant left <= hits.Keys
        invariant hits == map key | key in old(hits)
                                    && (key in left || !NewestWithin(old(hits)[key], cutoff)) :: old(hits)[key]
        decreases |left|
      {
        var key :| key in left;
        left := left - {key};
        if NewestWithin(hits[key], cutoff) {
          DropWithin(hits, history, key);
          if rising { DropStands(hits, history, key, cutoff, now); }
          hits := hits - {key};
        }
      }
    }
  }
}

/**
 * The log scrubber: apps/api/src/scrub.ts.
 *
 * `Replace` is the string primitive the source calls, `text.replace(re, fn)` with a global pattern: leftmost,
 * greedy, non-overlapping. Patterns are literals or a prefix followed by a run of one character class.
 */
module Scrub {
  import opened Prelude

  const MARKER := "\0REDACTED\0"

  datatype Class = Alnum | Token

  predicate IsAlnum(c: char) {
    'A' <= c <= 'Z' || 'a' <= c <= 'z' || '0' <= c <= '9'
  }

  predicate In(c: char, class_: Class) {
    IsAlnum(c) || (class_ == Token && (c == '_' || c == '-'))
  }

  /** `isBenignToken`: pure lowercase hex is a hash or an id. */
  predicate IsBenignToken(s: string) {
    forall i :: 0 <= i < |s| ==> '0' <= s[i] <= '9' || 'a' <= s[i] <= 'f'
  }

  datatype Pattern =
    | Exact(value: string)
    | Shape(prefix: string, class_: Class, least: nat)

  const SHAPE_PATTERNS := [
    Shape("sk-ant-", Token, 6),
    Shape("sk-proj-", Token, 6),
    Shape("sk-", Alnum, 20),
    Shape("plr_cnry_", Alnum, 1),
    Shape("prm_", Alnum, 16)]

  const GENERAL_TOKEN := Shape("", Token, 40)

  /** `w` stands at position `i` of `s`. */
  predicate At(s: string, i: int, w: string) {
    0 <= i <= |s| - |w| && s[i..i + |w|] == w
  }

  ghost predicate Occurs(s: string, w: string) {
    exists i :: At(s, i, w)
  }

  function RunLength(s: string, i: nat, class_: Class): (n: nat)
    requires i <= |s|
    ensures i + n <= |s|
    decreases |s| - i
  {
    if i < |s| && In(s[i], class_) then 1 + RunLength(s, i + 1, class_) else 0
  }

  /** Length of the greedy match at `i`; 0 means no match there. */
  function MatchLength(p: Pattern, s: string, i: nat): (n: nat)
    requires i <= |s|
    ensures i + n <= |s|
  {
    match p
    case Exact(v) => if At(s, i, v) then |v| else 0
    case Shape(prefix, class_, least) =>
      if At(s, i, prefix) && RunLength(s, i + |prefix|, class_) >= least
      then |prefix| + RunLength(s, i + |prefix|, class_)
      else 0
  }

  /** One step of the scan: the text it emits, where it goes on, and whether it redacted. */
  datatype Emit = Emit(text: string, next: nat, hit: bool)

  /** At a match the whole match is replaced, unless `keepHex` holds and it is pure lowercase hex; elsewhere one
   *  character is copied. */
  function Scan(p: Pattern, keepHex: bool, subst: string, s: string, i: nat): (e: Emit)
    requires i < |s|
    ensures i < e.next <= |s|
    ensures e.text == if e.hit then subst else s[i..e.next]
    ensures !e.hit ==> MatchLength(p, s, i) == 0 || keepHex
  {
    var n := MatchLength(p, s, i);
    if n == 0 then Emit([s[i]], i + 1, false)
    else if keepHex && IsBenignToken(s[i..i + n]) then Emit(s[i..i + n], i + n, false)
    else Emit(subst, i + n, true)
  }

  datatype Redacted = Redacted(text: string, count: nat)

  /** What replacing every match from `i` on yields. */
  function Replace(p: Pattern, keepHex: bool, subst: string, s: string, i: nat): Redacted
    requires i <= |s|
    decreases |s| - i
  {
    if i == |s| then Redacted("", 0)
    else
      var e := Scan(p, keepHex, subst, s, i);
      var rest := Replace(p, keepHex, subst, s, e.next);
      Redacted(e.text + rest.text, rest.count + if e.hit then 1 else 0)
  }

  function Pass(p: Pattern, keepHex: bool, r: Redacted): Redacted {
    var replaced := Replace(p, keepHex, MARKER, r.text, 0);
    Redacted(replaced.text, r.count + replaced.count)
  }

  function Passes(patterns: seq<Pattern>, r: Redacted): Redacted
    decreases |patterns|
  {
    if patterns == [] then r else Passes(patterns[1..], Pass(patterns[0], false, r))
  }

  function Decimal(n: nat): (s: string)
    ensures s != "" && forall i :: 0 <= i < |s| ==> '0' <= s[i] <= '9'
  {
    var digit := ['0' + (n % 10) as char];
    if n < 10 then digit else Decimal(n / 10) + digit
  }

  function Stamp(count: nat): string {
    "[REDACTED:" + Decimal(count) + "]"
  }

  function Exacts(secrets: seq<string>): seq<Pattern> {
    seq(|secrets|, i requires 0 <= i < |secrets| => Exact(secrets[i]))
  }

  /** Secrets, shapes, general net: what was taken is marked. */
  function BeforeStamp(secrets: seq<string>, line: string): Redacted {
    Pass(GENERAL_TOKEN, true, Passes(Exacts(secrets) + SHAPE_PATTERNS, Redacted(line, 0)))
  }

  function Scrubbed(secrets: seq<string>, line: string): Redacted {
    var r := BeforeStamp(secrets, line);
    if r.count > 0 then Redacted(Replace(Exact(MARKER), false, Stamp(r.count), r.text, 0).text, r.count) else r
  }

  lemma {:induction false} PassesInTwo(a: seq<Pattern>, b: seq<Pattern>, r: Redacted)
    ensures Passes(a + b, r) == Passes(b, Passes(a, r))
    decreases |a|
  {
    if a == [] {
      assert a + b == b;
    } else {
      assert (a + b)[1..] == a[1..] + b;
      PassesInTwo(a[1..], b, Pass(a[0], false, r));
    }
  }

  class Scrubber {
    const envSecrets: seq<string>

    constructor (envSecrets: seq<string>)
      ensures this.envSecrets == envSecrets
    {
      this.envSecrets := envSecrets;
    }

    static method ReplaceAll(patterns: seq<Pattern>, r: Redacted) returns (text: string, count: nat)
      ensures Redacted(text, count) == Passes(patterns, r)
    {
      text, count := r.text, r.count;
      for i := 0 to |patterns|
        invariant Passes(patterns[i..], Redacted(text, count)) == Passes(patterns, r)
      {
        var replaced := Replace(patterns[i], false, MARKER, text, 0);
        text, count := replaced.text, count + replaced.count;
        assert patterns[i..][1..] == patterns[i + 1..];
      }
    }

    /** `scrub`: environment values first, then the key shapes, then the general net, then the stamp. */
    method Scrub(line: string) returns (text: string, count: nat)
      ensures Redacted(text, count) == Scrubbed(envSecrets, line)
    {
      text, count := ReplaceAll(Exacts(envSecrets), Redacted(line, 0));
      text, count := ReplaceAll(SHAPE_PATTERNS, Redacted(text, count));
      PassesInTwo(Exacts(envSecrets), SHAPE_PATTERNS, Redacted(line, 0));
      var replaced := Replace(GENERAL_TOKEN, true, MARKER, text, 0);
      text, count := replaced.text, count + replaced.count;
      if count > 0 {
        text := Replace(Exact(MARKER), false, Stamp(count), text, 0).text;
      }
    }
  }

  // ---------------------------------------------------------------- where output text comes from

  /** An end of `w`, `n` long, is an opposite end of `subst`. */
  predicate Meets(w: string, subst: string, n: nat)
    requires 0 < n < |w| && n <= |subst|
  {
    w[..n] == subst[|subst| - n..] || w[|w| - n..] == subst[..n]
  }

  /** `w` cannot straddle an edge of the replacement text: neither end of `w` is an opposite end of it, and it does
   *  not lie inside `w`. */
  ghost predicate Clear(w: string, subst: string) {
    && w != "" && subst != ""
    && (forall n :: 0 < n < |w| && n <= |subst| ==> !Meets(w, subst, n))
    && (|w| > |subst| ==> !Occurs(w, subst))
  }

  /** Text that holds neither the first nor the last character of the replacement. */
  lemma ClearOfEnds(w: string, subst: string)
    requires w != "" && subst != "" && subst[0] !in w && subst[|subst| - 1] !in w
    ensures Clear(w, subst)
  {
    forall n | 0 < n < |w| && n <= |subst| ensures !Meets(w, subst, n) {
      assert w[..n][n - 1] in w && subst[|subst| - n..][n - 1] == subst[|subst| - 1];
      assert w[|w| - n..][0] in w && subst[..n][0] == subst[0];
    }
    forall i ensures !At(w, i, subst) {
      if At(w, i, subst) { FirstCharacter(w, i, subst); }
    }
  }

  /** Text the output starts with was already there in the input: `m` characters of `v` stand before it. */
  lemma {:induction false} PrefixSource(p: Pattern, keepHex: bool, subst: string, s: string, i: nat, v: string, m: nat)
    requires i <= |s| && Clear(v, subst) && !Occurs(subst, v) && m < |v|
    requires v[m..] <= Replace(p, keepHex, subst, s, i).text
    ensures At(s, i, v[m..])
    ensures i < |s| && (MatchLength(p, s, i) == 0 || keepHex)
    decreases |s| - i, 1
  {
    var e := Scan(p, keepHex, subst, s, i);
    var rest := Replace(p, keepHex, subst, s, e.next).text;
    assert At(e.text + rest, 0, v[m..]);
    if e.hit {
      NotAtReplacement(subst, rest, v, m);
    } else {
      CopiedSource(p, keepHex, subst, s, i, e.next, v, m, 0);
    }
  }

  lemma AtReplacement(subst: string, rest: string, w: string)
    requires At(subst + rest, 0, w)
    ensures |w| <= |subst| ==> w == subst[..|w|] && At(subst, 0, w)
    ensures |w| > |subst| ==> w[..|subst|] == subst
  {
    assert |w| <= |subst| ==> (subst + rest)[0..|w|] == subst[..|w|];
    assert |w| > |subst| ==> (subst + rest)[0..|w|][..|subst|] == subst;
  }

  lemma NotAtReplacement(subst: string, rest: string, v: string, m: nat)
    requires Clear(v, subst) && !Occurs(subst, v) && m < |v|
    ensures !At(subst + rest, 0, v[m..])
  {
    var w := v[m..];
    assert v[|v| - |w|..] == w && (m == 0 ==> w == v);
    assert m > 0 && |w| <= |subst| ==> !Meets(v, subst, |w|);
    assert |w| > |subst| ==> v[m..m + |subst|] == w[..|subst|];
    assert |w| > |subst| && w[..|subst|] == subst ==> At(v, m, subst);
    if At(subst + rest, 0, w) { AtReplacement(subst, rest, w); }
  }

  lemma StartSource(p: Pattern, keepHex: bool, subst: string, s: string, i: nat, w: string)
    requires i <= |s| && Clear(w, subst) && !Occurs(subst, w) && At(Replace(p, keepHex, subst, s, i).text, 0, w)
    ensures At(s, i, w) && (MatchLength(p, s, i) == 0 || keepHex)
  {
    assert w[0..] == w;
    PrefixSource(p, keepHex, subst, s, i, w, 0);
  }

  /** Text of the output stands in one step's text, or in what follows it. */
  lemma ReplaceSteps(p: Pattern, keepHex: bool, subst: string, s: string, i: nat, w: string, k: int)
    requires i <= |s| && w != "" && At(Replace(p, keepHex, subst, s, i).text, k, w)
    ensures i < |s|
    ensures var e := Scan(p, keepHex, subst, s, i); var rest := Replace(p, keepHex, subst, s, e.next).text;
      At(e.text + rest, k, w) && (k >= |e.text| ==> At(rest, k - |e.text|, w))
  {
    if i < |s| {
      var e := Scan(p, keepHex, subst, s, i);
      if k >= |e.text| { Beyond(e.text, Replace(p, keepHex, subst, s, e.next).text, w, k); }
    }
  }

  /** Text that occurs in the output occurs in the replacement itself, or at some `j` in the input that the
   *  pattern did not match. */
  lemma {:induction false} OutputSource(p: Pattern, keepHex: bool, subst: string, s: string, i: nat, w: string, k: int
      ) returns (j: nat)
    requires i <= |s| && Clear(w, subst) && !Occurs(subst, w)
    requires At(Replace(p, keepHex, subst, s, i).text, k, w)
    ensures At(s, j, w) && (MatchLength(p, s, j) == 0 || keepHex)
    decreases |s| - i
  {
    if k == 0 {
      StartSource(p, keepHex, subst, s, i, w);
      return i;
    }
    ReplaceSteps(p, keepHex, subst, s, i, w, k);
    var e := Scan(p, keepHex, subst, s, i);
    if k >= |e.text| {
      j := OutputSource(p, keepHex, subst, s, e.next, w, k - |e.text|);
    } else {
      StepSource(p, keepHex, subst, s, i, w, k);
      j := i + k;
    }
  }

  /** Text that starts inside one step's own text. */
  lemma StepSource(p: Pattern, keepHex: bool, subst: string, s: string, i: nat, w: string, k: int)
    requires i < |s| && Clear(w, subst) && !Occurs(subst, w)
    requires var e := Scan(p, keepHex, subst, s, i);
             0 < k < |e.text| && At(e.text + Replace(p, keepHex, subst, s, e.next).text, k, w)
    ensures At(s, i + k, w) && keepHex
  {
    var e := Scan(p, keepHex, subst, s, i);
    if e.hit {
      InsideReplacement(subst, Replace(p, keepHex, subst, s, e.next).text, w, k);
    } else {
      // Only a kept match is longer than one character.
      KeptOrSingle(p, keepHex, subst, s, i);
      assert w[0..] == w;
      CopiedSource(p, keepHex, subst, s, i, e.next, w, 0, k);
    }
  }

  lemma KeptOrSingle(p: Pattern, keepHex: bool, subst: string, s: string, i: nat)
    requires i < |s|
    ensures var e := Scan(p, keepHex, subst, s, i); !e.hit ==> |e.text| == 1 || keepHex
  {
  }

  /** Text starting inside a copied stretch was there in the input. */
  lemma {:induction false} CopiedSource(p: Pattern, keepHex: bool, subst: string, s: string, i: nat, next: nat,
      v: string, m: nat, k: int)
    requires i < next <= |s| && 0 <= k < next - i
    requires Clear(v, subst) && !Occurs(subst, v) && m < |v|
    requires At(s[i..next] + Replace(p, keepHex, subst, s, next).text, k, v[m..])
    ensures At(s, i + k, v[m..])
    decreases |s| - next, 3
  {
    var rest := Replace(p, keepHex, subst, s, next).text;
    OverhangSource(p, keepHex, subst, s, i, next, v, m, k, rest);
    CopiedAt(s, i, next, rest, v[m..], k);
  }

  lemma {:induction false} OverhangSource(p: Pattern, keepHex: bool, subst: string, s: string, i: nat, next: nat,
      v: string, m: nat, k: int, rest: string)
    requires i < next <= |s| && 0 <= k < next - i
    requires Clear(v, subst) && !Occurs(subst, v) && m < |v|
    requires rest == Replace(p, keepHex, subst, s, next).text && At(s[i..next] + rest, k, v[m..])
    ensures |v| - m > next - i - k ==> At(s, next, v[m..][next - i - k..])
    decreases |s| - next, 2
  {
    if |v| - m > next - i - k {
      Overhang(s[i..next], rest, v, m, k);
      PrefixSource(p, keepHex, subst, s, next, v, m + (next - i - k));
    }
  }

  lemma Overhang(head: string, rest: string, v: string, m: nat, k: int)
    requires m < |v| && 0 <= k < |head| && At(head + rest, k, v[m..]) && |v| - m > |head| - k
    ensures v[m + |head| - k..] <= rest && v[m..][|head| - k..] == v[m + |head| - k..]
  {
    Straddle(head, rest, v[m..], k);
  }

  lemma CopiedAt(s: string, i: nat, next: nat, rest: string, w: string, k: int)
    requires i < next <= |s| && 0 <= k < next - i
    requires At(s[i..next] + rest, k, w)
    requires |w| > next - i - k ==> At(s, next, w[next - i - k..])
    ensures At(s, i + k, w)
  {
    var inside := next - i - k;
    forall x | 0 <= x < |w| ensures i + k + x < |s| && w[x] == s[i + k + x] {
      assert w[x] == (s[i..next] + rest)[k + x];
      if x >= inside {
        assert w[x] == w[inside..][x - inside];
        assert s[next..next + |w| - inside][x - inside] == s[next + (x - inside)];
      }
    }
  }

  lemma Beyond(head: string, rest: string, w: string, k: int)
    requires |head| <= k && At(head + rest, k, w)
    ensures At(rest, k - |head|, w)
  {
  }

  /** A string standing across `head + rest` splits where `head` ends. */
  lemma Straddle(head: string, rest: string, w: string, k: int)
    requires 0 <= k < |head| && At(head + rest, k, w)
    ensures |w| <= |head| - k ==> w == head[k..k + |w|]
    ensures |w| >= |head| - k ==> w[|head| - 1 - k] == head[|head| - 1]
    ensures |w| > |head| - k ==> w[..|head| - k] == head[k..] && w[|head| - k..] <= rest
  {
  }

  lemma InsideReplacement(subst: string, rest: string, w: string, k: int)
    requires Clear(w, subst) && 0 < k < |subst| && At(subst + rest, k, w)
    ensures Occurs(subst, w)
  {
    var n := |subst| - k;
    assert |w| > n ==> !Meets(w, subst, n) && subst[|subst| - n..] == subst[k..];
    Straddle(subst, rest, w, k);
    assert |w| <= n ==> At(subst, k, w);
  }

  /** One pass: what was absent stays absent, and what the pattern always matches is gone. */
  lemma PassClears(p: Pattern, keepHex: bool, subst: string, s: string, w: string)
    requires Clear(w, subst) && !Occurs(subst, w)
    requires !Occurs(s, w) || (!keepHex && forall j: nat :: At(s, j, w) ==> MatchLength(p, s, j) > 0)
    ensures !Occurs(Replace(p, keepHex, subst, s, 0).text, w)
  {
    if Occurs(Replace(p, keepHex, subst, s, 0).text, w) {
      var k :| At(Replace(p, keepHex, subst, s, 0).text, k, w);
      var j := OutputSource(p, keepHex, subst, s, 0, w, k);
    }
  }

  lemma {:induction false} PassesKeepClear(patterns: seq<Pattern>, r: Redacted, w: string)
    requires Clear(w, MARKER) && !Occurs(MARKER, w) && !Occurs(r.text, w)
    ensures !Occurs(Passes(patterns, r).text, w)
    decreases |patterns|
  {
    if patterns != [] {
      PassClears(patterns[0], false, MARKER, r.text, w);
      PassesKeepClear(patterns[1..], Pass(patterns[0], false, r), w);
    }
  }

  /** `w` is matched wherever it stands. */
  ghost predicate AlwaysMatched(p: Pattern, w: string) {
    forall s: string, j: nat :: At(s, j, w) ==> MatchLength(p, s, j) > 0
  }

  lemma {:induction false} PassesClear(patterns: seq<Pattern>, n: nat, r: Redacted, w: string)
    requires n < |patterns| && AlwaysMatched(patterns[n], w)
    requires Clear(w, MARKER) && !Occurs(MARKER, w)
    ensures !Occurs(Passes(patterns, r).text, w)
    decreases |patterns|
  {
    if n == 0 {
      PassClears(patterns[0], false, MARKER, r.text, w);
      PassesKeepClear(patterns[1..], Pass(patterns[0], false, r), w);
    } else {
      PassesClear(patterns[1..], n - 1, Pass(patterns[0], false, r), w);
    }
  }

  // ---------------------------------------------------------------- the general net

  /** Letters and digits. */
  ghost predicate AllAlphanumeric(w: string) {
    forall i :: 0 <= i < |w| ==> 'A' <= w[i] <= 'Z' || 'a' <= w[i] <= 'z' || '0' <= w[i] <= '9'
  }

  /** Letters, digits, underscore and dash. */
  ghost predicate AllTokens(w: string) {
    forall i :: 0 <= i < |w| ==>
      'A' <= w[i] <= 'Z' || 'a' <= w[i] <= 'z' || '0' <= w[i] <= '9' || w[i] == '_' || w[i] == '-'
  }

  ghost predicate IsHex(w: string) {
    forall i :: 0 <= i < |w| ==> '0' <= w[i] <= '9' || 'a' <= w[i] <= 'f'
  }

  /** Forty token characters that are not all lowercase hex. */
  ghost predicate Opaque(w: string) {
    |w| == 40 && AllTokens(w) && !IsHex(w)
  }

  lemma {:induction false} RunAtLeast(s: string, i: nat, w: string, class_: Class)
    requires i <= |s| && At(s, i, w)
    requires forall k :: 0 <= k < |w| ==> In(w[k], class_)
    ensures RunLength(s, i, class_) >= |w|
    decreases |w|
  {
    if w != "" {
      assert s[i] == w[0] && s[i + 1..i + |w|] == w[1..];
      RunAtLeast(s, i + 1, w[1..], class_);
    }
  }

  lemma {:induction false} RunIsMaximal(s: string, i: nat, class_: Class)
    requires i <= |s|
    ensures var n := RunLength(s, i, class_);
            && (forall k :: i <= k < i + n ==> In(s[k], class_))
            && (i + n < |s| ==> !In(s[i + n], class_))
    decreases |s| - i
  {
    if i < |s| && In(s[i], class_) {
      RunIsMaximal(s, i + 1, class_);
    }
  }

  lemma {:induction false} RunTail(s: string, i: nat, k: nat, class_: Class)
    requires i <= |s| && k <= RunLength(s, i, class_)
    ensures RunLength(s, i + k, class_) == RunLength(s, i, class_) - k
    decreases k
  {
    if k > 0 {
      RunTail(s, i + 1, k - 1, class_);
    }
  }

  /** A match of the general net is a whole run: no token character follows it. */
  lemma GeneralMatch(s: string, i: nat)
    requires i <= |s|
    ensures var n := MatchLength(GENERAL_TOKEN, s, i);
            && n == (if RunLength(s, i, Token) >= 40 then RunLength(s, i, Token) else 0)
            && AllTokens(s[i..i + n])
            && (n > 0 && i + n < |s| ==> !In(s[i + n], Token))
  {
    RunIsMaximal(s, i, Token);
    assert At(s, i, "");
  }

  /** An opaque stretch cannot start within a step's own text. */
  lemma OpaqueNotHere(s: string, i: nat, w: string, k: int)
    requires i < |s| && Opaque(w)
    requires var e := Scan(GENERAL_TOKEN, true, MARKER, s, i); 0 <= k < |e.text|
    ensures var e := Scan(GENERAL_TOKEN, true, MARKER, s, i);
            !At(e.text + Replace(GENERAL_TOKEN, true, MARKER, s, e.next).text, k, w)
  {
    var e := Scan(GENERAL_TOKEN, true, MARKER, s, i);
    var rest := Replace(GENERAL_TOKEN, true, MARKER, s, e.next).text;
    GeneralMatch(s, i);
    if At(e.text + rest, k, w) {
      if e.hit {
        OpaqueNotInMarker(rest, w, k);
      } else {
        OpaqueClearsMarker(w);
        assert w[0..] == w;
        CopiedSource(GENERAL_TOKEN, true, MARKER, s, i, e.next, w, 0, k);
        CopiedRunIsHex(s, i, k, w);
      }
    }
  }

  lemma OpaqueClearsMarker(w: string)
    requires Opaque(w)
    ensures Clear(w, MARKER) && !Occurs(MARKER, w)
  {
    assert MARKER[0] == '\0' == MARKER[|MARKER| - 1] && |MARKER| == 10;
    ClearOfEnds(w, MARKER);
  }

  lemma OpaqueNotInMarker(rest: string, w: string, k: int)
    requires Opaque(w) && 0 <= k < |MARKER|
    ensures !At(MARKER + rest, k, w)
  {
    if At(MARKER + rest, k, w) {
      OpaqueClearsMarker(w);
      if k == 0 {
        assert w[0..] == w;
        NotAtReplacement(MARKER, rest, w, 0);
      } else {
        InsideReplacement(MARKER, rest, w, k);
      }
    }
  }

  lemma CopiedRunIsHex(s: string, i: nat, k: int, w: string)
    requires i < |s| && |w| == 40 && AllTokens(w)
    requires var e := Scan(GENERAL_TOKEN, true, MARKER, s, i); !e.hit && 0 <= k < |e.text|
    requires At(s, i + k, w)
    ensures IsHex(w)
  {
    var n := MatchLength(GENERAL_TOKEN, s, i);
    GeneralMatch(s, i);
    RunAtLeast(s, i + k, w, Token);
    if n > 0 {
      RunTail(s, i, k, Token);
      assert IsHex(s[i..i + n]);
      forall x | 0 <= x < 40 ensures w[x] == s[i..i + n][k + x] {
        assert w[x] == s[i + k..i + k + 40][x];
      }
    }
  }

  lemma {:induction false} GeneralClears(s: string, i: nat, w: string, k: int)
    requires i <= |s| && Opaque(w)
    ensures !At(Replace(GENERAL_TOKEN, true, MARKER, s, i).text, k, w)
    decreases |s| - i
  {
    if i < |s| && k >= 0 {
      var e := Scan(GENERAL_TOKEN, true, MARKER, s, i);
      var rest := Replace(GENERAL_TOKEN, true, MARKER, s, e.next).text;
      if At(e.text + rest, k, w) {
        if k < |e.text| {
          OpaqueNotHere(s, i, w, k);
        } else {
          Beyond(e.text, rest, w, k);
          GeneralClears(s, e.next, w, k - |e.text|);
        }
      }
    }
  }

  // ---------------------------------------------------------------- clean text

  ghost predicate NoSecret(secrets: seq<string>, s: string) {
    forall v :: v in secrets ==> !Occurs(s, v)
  }

  /** Nowhere does `prefix` stand before `least` letters and digits, nor, with `dashes`, underscores and dashes. */
  ghost predicate KeyFree(s: string, prefix: string, least: nat, dashes: bool) {
    forall w :: |w| == least && (if dashes then AllTokens(w) else AllAlphanumeric(w)) ==> !Occurs(s, prefix + w)
  }

  /** No key of a known shape stands anywhere: the five, in so many words. */
  ghost predicate NoShape(s: string) {
    && KeyFree(s, "sk-ant-", 6, true)
    && KeyFree(s, "sk-proj-", 6, true)
    && KeyFree(s, "sk-", 20, false)
    && KeyFree(s, "plr_cnry_", 1, false)
    && KeyFree(s, "prm_", 16, false)
  }

  ghost predicate NothingMatches(s: string) {
    forall p, i: nat :: p in SHAPE_PATTERNS && i <= |s| ==> MatchLength(p, s, i) == 0
  }

  /** Every stretch of forty or more token characters is lowercase hex. */
  ghost predicate LongRunsAreHex(s: string) {
    forall i, j :: 0 <= i <= j <= |s| && j - i >= 40 && AllTokens(s[i..j]) ==> IsHex(s[i..j])
  }

  ghost predicate Clean(secrets: seq<string>, s: string) {
    NoSecret(secrets, s) && NoShape(s) && LongRunsAreHex(s)
  }

  /** A secret the redaction text itself cannot spell, wholly or across an edge. */
  ghost predicate SafeSecret(v: string, count: nat) {
    '\0' !in v && Clear(v, Stamp(count)) && !Occurs(Stamp(count), v)
  }

  lemma LongRunsFromWindows(s: string)
    requires forall w :: Opaque(w) ==> !Occurs(s, w)
    ensures LongRunsAreHex(s)
  {
    forall i, j | 0 <= i <= j <= |s| && j - i >= 40 && AllTokens(s[i..j]) ensures IsHex(s[i..j]) {
      forall q | 0 <= q < j - i ensures '0' <= s[i..j][q] <= '9' || 'a' <= s[i..j][q] <= 'f' {
        var from := i + Min(q, j - i - 40);
        var w := s[from..from + 40];
        forall x | 0 <= x < 40 ensures In(w[x], Token) {
          assert w[x] == s[i..j][from - i + x];
        }
        assert At(s, from, w);
        assert Occurs(s, w);
        assert IsHex(w);
        assert w[q - (from - i)] == s[i..j][q];
      }
    }
  }

  /** The stamp's characters: brackets, a colon, the eight capitals, and decimal digits. */
  lemma StampCharacters(count: nat)
    ensures forall c :: c in Stamp(count) ==> c in "[REDACTED:]" || '0' <= c <= '9'
    ensures Stamp(count)[0] == '[' && Stamp(count)[|Stamp(count)| - 1] == ']'
    ensures Stamp(count)[1..9] == MARKER[1..9] && |Stamp(count)| > 10
  {
  }

  lemma InsideMarker(w: string, i: int)
    requires '\0' !in w && w != "" && At(MARKER, i, w)
    ensures 1 <= i && i + |w| <= 9
  {
    assert w[0] == MARKER[i] && w[|w| - 1] == MARKER[i + |w| - 1];
    assert MARKER[0] == '\0' && MARKER[9] == '\0';
  }

  lemma SameSlice(a: string, b: string, i: int, w: string)
    requires |a| >= 9 && |b| >= 9 && a[1..9] == b[1..9]
    requires At(a, i, w) && 1 <= i && i + |w| <= 9
    ensures At(b, i, w)
  {
    forall x | 0 <= x < |w| ensures b[i + x] == w[x] {
      assert a[1..9][i + x - 1] == b[1..9][i + x - 1];
      assert a[i..i + |w|][x] == a[i + x];
    }
  }

  lemma NotInMarker(w: string, count: nat)
    requires '\0' !in w && w != "" && !Occurs(Stamp(count), w)
    ensures !Occurs(MARKER, w)
  {
    StampCharacters(count);
    forall i ensures !At(MARKER, i, w) {
      if At(MARKER, i, w) {
        InsideMarker(w, i);
        SameSlice(MARKER, Stamp(count), i, w);
      }
    }
  }

  /** Text that one of the named passes always matches, and the redaction text cannot spell, is gone for good. */
  lemma NamedIsGone(secrets: seq<string>, line: string, n: nat, w: string)
    requires var patterns := Exacts(secrets) + SHAPE_PATTERNS; n < |patterns| && AlwaysMatched(patterns[n], w)
    requires SafeSecret(w, Scrubbed(secrets, line).count)
    ensures !Occurs(Scrubbed(secrets, line).text, w)
  {
    var patterns, count := Exacts(secrets) + SHAPE_PATTERNS, Scrubbed(secrets, line).count;
    NotInMarker(w, count);
    assert MARKER[0] == '\0' == MARKER[|MARKER| - 1];
    ClearOfEnds(w, MARKER);
    PassesClear(patterns, n, Redacted(line, 0), w);
    var named := Passes(patterns, Redacted(line, 0));
    PassClears(GENERAL_TOKEN, true, MARKER, named.text, w);
    StampCharacters(count);
    PassClears(Exact(MARKER), false, Stamp(count), Pass(GENERAL_TOKEN, true, named).text, w);
  }

  lemma SecretIsGone(secrets: seq<string>, line: string, v: string)
    requires v in secrets && SafeSecret(v, Scrubbed(secrets, line).count)
    ensures !Occurs(Scrubbed(secrets, line).text, v)
  {
    var n :| 0 <= n < |secrets| && secrets[n] == v;
    assert (Exacts(secrets) + SHAPE_PATTERNS)[n] == Exact(v);
    NamedIsGone(secrets, line, n, v);
  }

  /** The shortest word a shape matches: its prefix and the least run. */
  lemma ShapeAlwaysMatched(p: Pattern, w: string)
    requires p.Shape? && |w| == |p.prefix| + p.least > 0
    requires p.prefix <= w && forall k :: |p.prefix| <= k < |w| ==> In(w[k], p.class_)
    ensures AlwaysMatched(p, w)
  {
    forall s: string, j: nat | At(s, j, w) ensures MatchLength(p, s, j) > 0 {
      assert s[j..j + |p.prefix|] == w[..|p.prefix|];
      assert At(s, j + |p.prefix|, w[|p.prefix|..]);
      RunAtLeast(s, j + |p.prefix|, w[|p.prefix|..], p.class_);
    }
  }

  lemma ShapeIsGone(secrets: seq<string>, line: string, n: nat, i: nat)
    requires n < |SHAPE_PATTERNS| && i <= |Scrubbed(secrets, line).text|
    ensures MatchLength(SHAPE_PATTERNS[n], Scrubbed(secrets, line).text, i) == 0
  {
    var p, text := SHAPE_PATTERNS[n], Scrubbed(secrets, line).text;
    if MatchLength(p, text, i) > 0 {
      ShapePrefix(n);
      var w := LeastWord(p, text, i);
      ShapeAlwaysMatched(p, w);
      WordIsSafe(w, Scrubbed(secrets, line).count);
      assert (Exacts(secrets) + SHAPE_PATTERNS)[|secrets| + n] == p;
      NamedIsGone(secrets, line, |secrets| + n, w);
    }
  }

  /** Where a shape matches, its least word stands. */
  lemma LeastWord(p: Pattern, s: string, i: nat) returns (w: string)
    requires i <= |s| && p.Shape? && p.prefix != "" && AllTokens(p.prefix)
    requires MatchLength(p, s, i) > 0
    ensures |w| == |p.prefix| + p.least && p.prefix <= w && At(s, i, w)
    ensures forall k :: |p.prefix| <= k < |w| ==> In(w[k], p.class_)
    ensures AllTokens(w) && w[0] == p.prefix[0]
  {
    RunIsMaximal(s, i + |p.prefix|, p.class_);
    w := s[i..i + |p.prefix| + p.least];
    assert w[..|p.prefix|] == s[i..i + |p.prefix|];
    forall k | |p.prefix| <= k < |w| ensures In(w[k], p.class_) {
      assert w[k] == s[i + k];
    }
    forall k | 0 <= k < |w| ensures In(w[k], Token) {
      assert k < |p.prefix| ==> w[k] == p.prefix[k];
    }
  }

  lemma FirstCharacter(s: string, i: int, w: string)
    requires w != "" && At(s, i, w)
    ensures w[0] in s
  {
    assert s[i] == w[0];
  }

  /** The letters a shape begins with are no part of the stamp. */
  lemma WordIsSafe(w: string, count: nat)
    requires w != "" && AllTokens(w) && (w[0] == 's' || w[0] == 'p')
    ensures SafeSecret(w, count)
  {
    StampCharacters(count);
    ClearOfEnds(w, Stamp(count));
    forall i ensures !At(Stamp(count), i, w) {
      if At(Stamp(count), i, w) {
        FirstCharacter(Stamp(count), i, w);
      }
    }
  }

  lemma ShapePrefix(n: nat)
    requires n < |SHAPE_PATTERNS|
    ensures var prefix := SHAPE_PATTERNS[n].prefix;
            prefix != "" && AllTokens(prefix) && (prefix[0] == 's' || prefix[0] == 'p') && SHAPE_PATTERNS[n].least > 0
  {
  }

  lemma OpaqueIsGone(secrets: seq<string>, line: string, w: string)
    requires Opaque(w)
    ensures !Occurs(Scrubbed(secrets, line).text, w)
  {
    var named := Passes(Exacts(secrets) + SHAPE_PATTERNS, Redacted(line, 0));
    var r := Pass(GENERAL_TOKEN, true, named);
    forall k ensures !At(r.text, k, w) {
      GeneralClears(named.text, 0, w, k);
    }
    StampCharacters(r.count);
    OpaqueNotInStamp(w, r.count);
    ClearOfEnds(w, Stamp(r.count));
    PassClears(Exact(MARKER), false, Stamp(r.count), r.text, w);
  }

  /** Position 9 of the stamp is the colon; only digits and the closing bracket follow it. */
  lemma OpaqueNotInStamp(w: string, count: nat)
    requires Opaque(w)
    ensures !Occurs(Stamp(count), w)
  {
    forall i ensures !At(Stamp(count), i, w) {
      if At(Stamp(count), i, w) {
        TokensInStamp(w, count, i);
      }
    }
  }

  lemma TokensInStamp(w: string, count: nat, i: int)
    requires |w| == 40 && AllTokens(w) && At(Stamp(count), i, w)
    ensures IsHex(w)
  {
    var stamp := Stamp(count);
    forall x | 0 <= x < 40 ensures w[x] == stamp[i + x] {
    }
    assert i > 9 by { assert stamp[9] == ':'; }
  }

  /** Where no key stands of this shape, and nowhere else, does its pattern match nowhere. */
  lemma ShapeMatchesKeys(p: Pattern, s: string)
    requires p.Shape? && p.prefix != "" && AllTokens(p.prefix) && p.least > 0
    ensures (forall i: nat :: i <= |s| ==> MatchLength(p, s, i) == 0)
       <==> KeyFree(s, p.prefix, p.least, p.class_ == Token)
  {
    if forall i: nat :: i <= |s| ==> MatchLength(p, s, i) == 0 {
      forall w | |w| == p.least && (if p.class_ == Token then AllTokens(w) else AllAlphanumeric(w))
        ensures !Occurs(s, p.prefix + w)
      {
        KeyIsMatched(p, s, w);
      }
    } else {
      var i: nat :| i <= |s| && MatchLength(p, s, i) != 0;
      var word := LeastWord(p, s, i);
      var w := word[|p.prefix|..];
      assert word == p.prefix + w && forall k :: 0 <= k < |w| ==> In(w[k], p.class_) && w[k] == word[|p.prefix| + k];
      assert Occurs(s, p.prefix + w);
    }
  }

  lemma KeyIsMatched(p: Pattern, s: string, w: string)
    requires p.Shape? && p.prefix != "" && |w| == p.least
    requires if p.class_ == Token then AllTokens(w) else AllAlphanumeric(w)
    ensures Occurs(s, p.prefix + w) ==> exists i: nat :: i <= |s| && MatchLength(p, s, i) > 0
  {
    var word := p.prefix + w;
    forall k | |p.prefix| <= k < |word| ensures In(word[k], p.class_) { assert word[k] == w[k - |p.prefix|]; }
    ShapeAlwaysMatched(p, word);
    if Occurs(s, word) {
      var i :| At(s, i, word);
      assert MatchLength(p, s, i) > 0;
    }
  }

  lemma NothingMatchesIsKeyFree(s: string)
    ensures NothingMatches(s) <==> forall n :: 0 <= n < |SHAPE_PATTERNS| ==>
              var p := SHAPE_PATTERNS[n]; p.Shape? && KeyFree(s, p.prefix, p.least, p.class_ == Token)
  {
    forall n: nat | n < |SHAPE_PATTERNS|
      ensures SHAPE_PATTERNS[n] in SHAPE_PATTERNS && SHAPE_PATTERNS[n].Shape?
      ensures (forall i: nat :: i <= |s| ==> MatchLength(SHAPE_PATTERNS[n], s, i) == 0)
         <==> KeyFree(s, SHAPE_PATTERNS[n].prefix, SHAPE_PATTERNS[n].least, SHAPE_PATTERNS[n].class_ == Token)
    {
      ShapePrefix(n);
      ShapeMatchesKeys(SHAPE_PATTERNS[n], s);
    }
    if NothingMatches(s) {
      forall n: nat, i: nat | n < |SHAPE_PATTERNS| && i <= |s| ensures MatchLength(SHAPE_PATTERNS[n], s, i) == 0 {
        assert SHAPE_PATTERNS[n] in SHAPE_PATTERNS;
      }
    }
  }

  lemma FivePatterns()
    ensures |SHAPE_PATTERNS| == 5
    ensures SHAPE_PATTERNS[0] == Shape("sk-ant-", Token, 6) && SHAPE_PATTERNS[1] == Shape("sk-proj-", Token, 6)
    ensures SHAPE_PATTERNS[2] == Shape("sk-", Alnum, 20) && SHAPE_PATTERNS[3] == Shape("plr_cnry_", Alnum, 1)
    ensures SHAPE_PATTERNS[4] == Shape("prm_", Alnum, 16)
  {
  }

  lemma NothingMatchesIsNoShape(s: string)
    ensures NothingMatches(s) <==> NoShape(s)
  {
    NothingMatchesIsKeyFree(s);
    FivePatterns();
  }

  /** The three promises, over every line and every set of secrets: a secret the stamp cannot spell, wholly or across
   *  an edge, is gone, no key
   *  shape is left, and every long run of token characters is lowercase hex. */
  lemma {:induction false} ScrubbedIsClean(secrets: seq<string>, line: string)
    ensures var r := Scrubbed(secrets, line);
            && (forall v :: v in secrets && SafeSecret(v, r.count) ==> !Occurs(r.text, v))
            && NoShape(r.text)
            && LongRunsAreHex(r.text)
  {
    var r := Scrubbed(secrets, line);
    forall v | v in secrets && SafeSecret(v, r.count) ensures !Occurs(r.text, v) {
      SecretIsGone(secrets, line, v);
    }
    forall p, i: nat | p in SHAPE_PATTERNS && i <= |r.text| ensures MatchLength(p, r.text, i) == 0 {
      var n :| 0 <= n < |SHAPE_PATTERNS| && SHAPE_PATTERNS[n] == p;
      ShapeIsGone(secrets, line, n, i);
    }
    NothingMatchesIsNoShape(r.text);
    forall w | Opaque(w) ensures !Occurs(r.text, w) {
      OpaqueIsGone(secrets, line, w);
    }
    LongRunsFromWindows(r.text);
  }

  // ---------------------------------------------------------------- what is left alone

  ghost predicate NeverMatches(p: Pattern, s: string, i: nat) {
    forall j: nat :: i <= j <= |s| ==> MatchLength(p, s, j) == 0
  }

  lemma PlainScan(p: Pattern, subst: string, s: string, i: nat)
    requires i < |s|
    ensures var e := Scan(p, false, subst, s, i);
            (e.hit <==> MatchLength(p, s, i) > 0) && (!e.hit ==> e.next == i + 1 && e.text == [s[i]])
  {
  }

  /** A pass that redacted nothing left the text as it was, which happens exactly when nothing matched. */
  lemma {:induction false} PassUntouched(p: Pattern, subst: string, s: string, i: nat)
    requires i <= |s| && MatchLength(p, s, |s|) == 0
    ensures Replace(p, false, subst, s, i).count == 0 <==> NeverMatches(p, s, i)
    ensures NeverMatches(p, s, i) ==> Replace(p, false, subst, s, i).text == s[i..]
    decreases |s| - i
  {
    if i < |s| {
      PlainScan(p, subst, s, i);
      PassUntouched(p, subst, s, Scan(p, false, subst, s, i).next);
      NeverMatchesStep(p, s, i);
    }
  }

  lemma NeverMatchesStep(p: Pattern, s: string, i: nat)
    requires i < |s|
    ensures NeverMatches(p, s, i) <==> MatchLength(p, s, i) == 0 && NeverMatches(p, s, i + 1)
  {
  }

  lemma {:induction false} PassesUntouched(patterns: seq<Pattern>, r: Redacted)
    requires forall p, s: string :: p in patterns ==> MatchLength(p, s, |s|) == 0
    ensures Passes(patterns, r).count >= r.count
    ensures Passes(patterns, r).count == r.count <==> forall p :: p in patterns ==> NeverMatches(p, r.text, 0)
    ensures Passes(patterns, r).count == r.count ==> Passes(patterns, r) == r
    decreases |patterns|
  {
    if patterns != [] {
      var p := patterns[0];
      assert p in patterns;
      PassUntouched(p, MARKER, r.text, 0);
      PassesUntouched(patterns[1..], Pass(p, false, r));
      assert forall q :: q in patterns <==> q == p || q in patterns[1..];
      if NeverMatches(p, r.text, 0) {
        assert Pass(p, false, r) == r;
      }
    }
  }

  lemma HexRunIsKept(s: string, i: nat)
    requires i < |s| && LongRunsAreHex(s)
    ensures !Scan(GENERAL_TOKEN, true, MARKER, s, i).hit
  {
    GeneralMatch(s, i);
    var n := MatchLength(GENERAL_TOKEN, s, i);
    assert n > 0 ==> IsHex(s[i..i + n]);
  }

  lemma {:induction false} ZeroCountIsIdentity(p: Pattern, keepHex: bool, subst: string, s: string, i: nat)
    requires i <= |s| && Replace(p, keepHex, subst, s, i).count == 0
    ensures Replace(p, keepHex, subst, s, i).text == s[i..]
    decreases |s| - i
  {
    if i < |s| {
      var next := Scan(p, keepHex, subst, s, i).next;
      ZeroCountIsIdentity(p, keepHex, subst, s, next);
      CutAt(s, i, next);
    }
  }

  lemma CutAt(s: string, i: nat, next: nat)
    requires i <= next <= |s|
    ensures s[i..] == s[i..next] + s[next..]
  {
  }

  lemma {:induction false} HexRunsAreKept(s: string, i: nat)
    requires i <= |s| && LongRunsAreHex(s)
    ensures Replace(GENERAL_TOKEN, true, MARKER, s, i).count == 0
    decreases |s| - i
  {
    if i < |s| {
      HexRunIsKept(s, i);
      HexRunsAreKept(s, Scan(GENERAL_TOKEN, true, MARKER, s, i).next);
    }
  }

  lemma GeneralUntouched(s: string)
    ensures Replace(GENERAL_TOKEN, true, MARKER, s, 0).count == 0 ==>
            Replace(GENERAL_TOKEN, true, MARKER, s, 0).text == s
    ensures LongRunsAreHex(s) ==> Replace(GENERAL_TOKEN, true, MARKER, s, 0).count == 0
  {
    if Replace(GENERAL_TOKEN, true, MARKER, s, 0).count == 0 {
      ZeroCountIsIdentity(GENERAL_TOKEN, true, MARKER, s, 0);
    }
    if LongRunsAreHex(s) {
      HexRunsAreKept(s, 0);
    }
  }

  lemma NamedUntouched(secrets: seq<string>, line: string)
    requires "" !in secrets
    ensures var named := Passes(Exacts(secrets) + SHAPE_PATTERNS, Redacted(line, 0));
            && (named.count == 0 <==> NoSecret(secrets, line) && NothingMatches(line))
            && (named.count == 0 ==> named.text == line)
  {
    var patterns := Exacts(secrets) + SHAPE_PATTERNS;
    forall p, s: string | p in patterns ensures MatchLength(p, s, |s|) == 0 {
      if p.Exact? { assert p.value in secrets; }
    }
    PassesUntouched(patterns, Redacted(line, 0));
    NeverMatchesIsNoNamed(secrets, line);
  }

  /** Scrubbing redacts something exactly when the line was not clean, and otherwise returns it unchanged: ordinary
   *  text and lowercase-hex hashes pass through. */
  lemma CountIsZeroIffClean(secrets: seq<string>, line: string)
    requires "" !in secrets
    ensures Scrubbed(secrets, line).count == 0 <==> Clean(secrets, line)
    ensures Clean(secrets, line) ==> Scrubbed(secrets, line).text == line
  {
    var named := Passes(Exacts(secrets) + SHAPE_PATTERNS, Redacted(line, 0));
    NamedUntouched(secrets, line);
    NothingMatchesIsNoShape(line);
    GeneralUntouched(named.text);
    ScrubbedIsClean(secrets, line);
  }

  lemma NeverMatchesIsNoNamed(secrets: seq<string>, line: string)
    requires "" !in secrets
    ensures (forall p :: p in Exacts(secrets) + SHAPE_PATTERNS ==> NeverMatches(p, line, 0)) <==>
            NoSecret(secrets, line) && NothingMatches(line)
  {
    var patterns := Exacts(secrets) + SHAPE_PATTERNS;
    if forall p :: p in patterns ==> NeverMatches(p, line, 0) {
      forall v | v in secrets ensures !Occurs(line, v) {
        var n :| 0 <= n < |secrets| && secrets[n] == v;
        assert patterns[n] == Exact(v);
        assert NeverMatches(Exact(v), line, 0);
        forall i ensures !At(line, i, v) {
          assert 0 <= i <= |line| ==> MatchLength(Exact(v), line, i) == 0;
        }
      }
      forall p, i: nat | p in SHAPE_PATTERNS && i <= |line| ensures MatchLength(p, line, i) == 0 {
        assert p in patterns && NeverMatches(p, line, 0);
      }
    }
    if NoSecret(secrets, line) && NothingMatches(line) {
      forall p | p in patterns ensures NeverMatches(p, line, 0) {
        if p.Exact? { assert p.value in secrets; } else { assert p in SHAPE_PATTERNS; }
      }
    }
  }

  // ---------------------------------------------------------------- a pass cuts matches and keeps the rest

  /** `kept` and `cut` in turn. */
  function Woven(kept: seq<string>, cut: seq<string>): string
    requires |kept| == |cut| + 1
  {
    if cut == [] then kept[0] else kept[0] + cut[0] + Woven(kept[1..], cut[1..])
  }

  function Copies(subst: string, n: nat): seq<string> {
    seq(n, _ => subst)
  }

  /** What a pattern is there to take: the literal, or the prefix and at least so many of its characters. */
  ghost predicate Taken(p: Pattern, keepHex: bool, cut: string) {
    && (match p
        case Exact(v) => cut == v
        case Shape(prefix, class_, least) =>
          && |cut| >= |prefix| + least && prefix <= cut
          && (if class_ == Token then AllTokens(cut[|prefix|..]) else AllAlphanumeric(cut[|prefix|..])))
    && (keepHex ==> !IsHex(cut))
  }

  /** A key goes whole: what is kept behind it does not go on with it. */
  ghost predicate Ends(p: Pattern, kept: string) {
    p.Shape? && kept != "" ==> !(if p.class_ == Token then AllTokens(kept[..1]) else AllAlphanumeric(kept[..1]))
  }

  lemma SliceOfSlice(s: string, i: nat, n: nat, k: nat)
    requires k <= n && i + n <= |s|
    ensures s[i..i + n][..k] == s[i..i + k] && s[i..i + n][k..] == s[i + k..i + n]
  {
  }

  lemma CutIsTaken(p: Pattern, keepHex: bool, subst: string, s: string, i: nat)
    requires i < |s| && Scan(p, keepHex, subst, s, i).hit
    ensures Taken(p, keepHex, s[i..Scan(p, keepHex, subst, s, i).next])
    ensures Ends(p, s[Scan(p, keepHex, subst, s, i).next..])
  {
    var n := MatchLength(p, s, i);
    if p.Shape? {
      RunIsMaximal(s, i + |p.prefix|, p.class_);
      SliceOfSlice(s, i, n, |p.prefix|);
      var run := s[i..i + n][|p.prefix|..];
      forall k | 0 <= k < |run| ensures In(run[k], p.class_) { assert run[k] == s[i + |p.prefix| + k]; }
    }
  }

  /** One pass takes `cut`, counts it, puts the replacement in its place, and keeps everything else as it was. */
  ghost predicate Rewoven(p: Pattern, keepHex: bool, subst: string, s: string, text: string, count: nat,
      kept: seq<string>, cut: seq<string>) {
    && |cut| == count && |kept| == count + 1
    && s == Woven(kept, cut) && text == Woven(kept, Copies(subst, count))
    && forall j :: 0 <= j < count ==> Taken(p, keepHex, cut[j]) && Ends(p, kept[j + 1])
  }

  lemma RewovenHit(p: Pattern, keepHex: bool, subst: string, c: string, s: string, text: string, count: nat,
      kept: seq<string>, cut: seq<string>)
    requires Rewoven(p, keepHex, subst, s, text, count, kept, cut) && Taken(p, keepHex, c) && Ends(p, s)
    ensures Rewoven(p, keepHex, subst, c + s, subst + text, count + 1, [""] + kept, [c] + cut)
  {
    WovenFirst("", c, kept, cut);
    WovenFirst("", subst, kept, Copies(subst, count));
    assert Copies(subst, count + 1) == [subst] + Copies(subst, count);
    WovenStarts(kept, cut);
    if kept[0] != "" { assert s[..1] == kept[0][..1]; }
    assert "" + c == c && "" + subst == subst;
  }

  lemma RewovenKept(p: Pattern, keepHex: bool, subst: string, t: string, s: string, text: string, count: nat,
      kept: seq<string>, cut: seq<string>)
    requires Rewoven(p, keepHex, subst, s, text, count, kept, cut)
    ensures Rewoven(p, keepHex, subst, t + s, t + text, count, [t + kept[0]] + kept[1..], cut)
  {
    WovenLonger(t, kept, cut);
    WovenLonger(t, kept, Copies(subst, count));
  }

  lemma WovenStarts(kept: seq<string>, cut: seq<string>)
    requires |kept| == |cut| + 1
    ensures kept[0] <= Woven(kept, cut)
  {
  }

  lemma {:induction false} ReplaceWeaves(p: Pattern, keepHex: bool, subst: string, s: string, i: nat)
    returns (kept: seq<string>, cut: seq<string>)
    requires i <= |s|
    ensures var r := Replace(p, keepHex, subst, s, i); Rewoven(p, keepHex, subst, s[i..], r.text, r.count, kept, cut)
    decreases |s| - i
  {
    if i == |s| {
      kept, cut := [""], [];
      assert Copies(subst, 0) == [];
      return;
    }
    var e := Scan(p, keepHex, subst, s, i);
    var rest := Replace(p, keepHex, subst, s, e.next);
    kept, cut := ReplaceWeaves(p, keepHex, subst, s, e.next);
    CutAt(s, i, e.next);
    if e.hit {
      CutIsTaken(p, keepHex, subst, s, i);
      RewovenHit(p, keepHex, subst, s[i..e.next], s[e.next..], rest.text, rest.count, kept, cut);
      kept, cut := [""] + kept, [s[i..e.next]] + cut;
    } else {
      RewovenKept(p, keepHex, subst, e.text, s[e.next..], rest.text, rest.count, kept, cut);
      kept := [e.text + kept[0]] + kept[1..];
    }
  }

  /** What a pass does to a line, and to the count. */
  lemma PassKeepsTheRest(p: Pattern, keepHex: bool, r: Redacted) returns (kept: seq<string>, cut: seq<string>)
    ensures Rewoven(p, keepHex, MARKER, r.text, Pass(p, keepHex, r).text, |cut|, kept, cut)
    ensures Pass(p, keepHex, r).count == r.count + |cut|
  {
    kept, cut := ReplaceWeaves(p, keepHex, MARKER, r.text, 0);
    assert r.text[0..] == r.text;
  }

  /** And the last step to the marked line: each marker becomes a stamp. */
  lemma StampingKeepsTheRest(secrets: seq<string>, line: string) returns (kept: seq<string>, cut: seq<string>)
    ensures var count := Scrubbed(secrets, line).count;
      count > 0 ==> Rewoven(Exact(MARKER), false, Stamp(count), BeforeStamp(secrets, line).text,
                            Scrubbed(secrets, line).text, |cut|, kept, cut)
    ensures Scrubbed(secrets, line).count == 0 ==> Scrubbed(secrets, line).text == BeforeStamp(secrets, line).text
  {
    var r := BeforeStamp(secrets, line);
    kept, cut := ReplaceWeaves(Exact(MARKER), false, Stamp(r.count), r.text, 0);
    assert r.text[0..] == r.text;
  }

  lemma WovenFirst(k: string, c: string, kept: seq<string>, cut: seq<string>)
    requires |kept| == |cut| + 1
    ensures Woven([k] + kept, [c] + cut) == k + c + Woven(kept, cut)
  {
    assert ([k] + kept)[1..] == kept && ([c] + cut)[1..] == cut;
  }

  lemma WovenLonger(t: string, kept: seq<string>, cut: seq<string>)
    requires |kept| == |cut| + 1
    ensures Woven([t + kept[0]] + kept[1..], cut) == t + Woven(kept, cut)
  {
    var longer := [t + kept[0]] + kept[1..];
    assert longer[1..] == kept[1..];
    if cut != [] { Reassociate(t, kept[0], cut[0], Woven(kept[1..], cut[1..])); }
  }

  lemma Reassociate(a: string, b: string, c: string, d: string)
    ensures a + b + c + d == a + (b + c + d)
  {
  }

  /** NUL characters of a text; the marker holds two. */
  function Nuls(s: string): nat {
    if s == "" then 0 else Nuls(s[..|s| - 1]) + (if s[|s| - 1] == '\0' then 1 else 0)
  }

  lemma {:induction false} NulsConcat(a: string, b: string)
    ensures Nuls(a + b) == Nuls(a) + Nuls(b)
  {
    if b == "" {
      assert a + b == a;
    } else {
      NulsConcat(a, b[..|b| - 1]);
      assert (a + b)[..|a + b| - 1] == a + b[..|b| - 1];
    }
  }

  lemma {:induction false} NoNuls(s: string)
    requires '\0' !in s
    ensures Nuls(s) == 0
  {
    if s != "" { NoNuls(s[..|s| - 1]); }
  }

  lemma MarkerNuls()
    ensures Nuls(MARKER) == 2
  {
    var middle := "REDACTED";
    NoNuls(middle);
    assert MARKER == "\0" + middle + "\0";
    NulsConcat("\0", middle);
    NulsConcat("\0" + middle, "\0");
    assert Nuls("\0") == 1 by { assert "\0"[..0] == ""; }
  }

  lemma {:induction false} WovenNuls(kept: seq<string>, cut: seq<string>)
    requires |kept| == |cut| + 1 && forall j :: 0 <= j < |cut| ==> '\0' !in cut[j]
    ensures Nuls(Woven(kept, Copies(MARKER, |cut|))) == Nuls(Woven(kept, cut)) + 2 * |cut|
    decreases |cut|
  {
    if cut != [] {
      var n := |cut| - 1;
      assert Copies(MARKER, |cut|)[1..] == Copies(MARKER, n);
      WovenNuls(kept[1..], cut[1..]);
      MarkerNuls();
      NoNuls(cut[0]);
      NulsConcat(kept[0], MARKER);
      NulsConcat(kept[0] + MARKER, Woven(kept[1..], Copies(MARKER, n)));
      NulsConcat(kept[0], cut[0]);
      NulsConcat(kept[0] + cut[0], Woven(kept[1..], cut[1..]));
    }
  }

  predicate NulFree(p: Pattern) {
    match p
    case Exact(v) => '\0' !in v
    case Shape(prefix, _, _) => '\0' !in prefix
  }

  lemma PassNuls(p: Pattern, keepHex: bool, r: Redacted)
    requires NulFree(p)
    ensures var after := Pass(p, keepHex, r);
      after.count >= r.count && Nuls(after.text) == Nuls(r.text) + 2 * (after.count - r.count)
  {
    var kept, cut := PassKeepsTheRest(p, keepHex, r);
    forall j | 0 <= j < |cut| ensures '\0' !in cut[j] { TakenIsNulFree(p, keepHex, cut[j]); }
    WovenNuls(kept, cut);
  }

  lemma TakenIsNulFree(p: Pattern, keepHex: bool, cut: string)
    requires NulFree(p) && Taken(p, keepHex, cut)
    ensures '\0' !in cut
  {
    if p.Shape? { assert cut == p.prefix + cut[|p.prefix|..]; }
  }

  lemma {:induction false} PassesNuls(patterns: seq<Pattern>, r: Redacted)
    requires forall p :: p in patterns ==> NulFree(p)
    ensures var after := Passes(patterns, r);
      after.count >= r.count && Nuls(after.text) == Nuls(r.text) + 2 * (after.count - r.count)
    decreases |patterns|
  {
    if patterns != [] {
      PassNuls(patterns[0], false, r);
      PassesNuls(patterns[1..], Pass(patterns[0], false, r));
    }
  }

  /** The count is the number of things taken: a line and secrets without NUL are marked by two for each. */
  lemma CountIsHalfTheNuls(secrets: seq<string>, line: string)
    requires '\0' !in line && forall v :: v in secrets ==> '\0' !in v
    ensures Nuls(BeforeStamp(secrets, line).text) == 2 * Scrubbed(secrets, line).count
  {
    var patterns := Exacts(secrets) + SHAPE_PATTERNS;
    FivePatterns();
    forall p | p in patterns ensures NulFree(p) {
      if p.Exact? { assert p.value in secrets; }
    }
    NoNuls(line);
    PassesNuls(patterns, Redacted(line, 0));
    PassNuls(GENERAL_TOKEN, true, Passes(patterns, Redacted(line, 0)));
  }

  /** The number a string of digits reads as. */
  function ValueOf(digits: string): nat
    requires forall i :: 0 <= i < |digits| ==> '0' <= digits[i] <= '9'
  {
    if digits == "" then 0 else 10 * ValueOf(digits[..|digits| - 1]) + (digits[|digits| - 1] - '0') as nat
  }

  lemma {:induction false} DecimalReads(n: nat)
    ensures ValueOf(Decimal(n)) == n && (n > 0 ==> Decimal(n)[0] != '0')
  {
    var digit := ['0' + (n % 10) as char];
    assert digit[..0] == "";
    if n >= 10 {
      DecimalReads(n / 10);
      assert (Decimal(n / 10) + digit)[..|Decimal(n / 10)|] == Decimal(n / 10);
    }
  }

  // ---------------------------------------------------------------- the stamp is always there

  /** Text inside text inside text. */
  lemma OccursWithin(a: string, b: string, c: string)
    requires Occurs(a, b) && Occurs(b, c)
    ensures Occurs(a, c)
  {
    var i :| At(a, i, b);
    var j :| At(b, j, c);
    forall x | 0 <= x < |c| ensures a[i + j + x] == c[x] {
      assert a[i..i + |b|][j + x] == b[j + x] && b[j..j + |c|][x] == b[j + x];
    }
    assert At(a, i + j, c);
  }

  lemma OccursAfter(head: string, rest: string, w: string)
    requires Occurs(rest, w)
    ensures Occurs(head + rest, w)
  {
    assert At(head + rest, |head|, rest);
    OccursWithin(head + rest, rest, w);
  }

  lemma {:induction false} HitLeavesReplacement(p: Pattern, keepHex: bool, subst: string, s: string, i: nat)
    requires i <= |s| && Replace(p, keepHex, subst, s, i).count > 0
    ensures Occurs(Replace(p, keepHex, subst, s, i).text, subst)
    decreases |s| - i
  {
    var e := Scan(p, keepHex, subst, s, i);
    var rest := Replace(p, keepHex, subst, s, e.next);
    if e.hit {
      assert At(subst + rest.text, 0, subst);
    } else {
      HitLeavesReplacement(p, keepHex, subst, s, e.next);
      OccursAfter(e.text, rest.text, subst);
    }
  }

  /** Once something was redacted a marker stays, whatever later passes redact. */
  ghost predicate Marked(r: Redacted) {
    r.count > 0 ==> Occurs(r.text, MARKER)
  }

  lemma PassMarks(p: Pattern, keepHex: bool, r: Redacted)
    requires Marked(r)
    ensures Marked(Pass(p, keepHex, r))
  {
    if Replace(p, keepHex, MARKER, r.text, 0).count > 0 {
      HitLeavesReplacement(p, keepHex, MARKER, r.text, 0);
    } else {
      ZeroCountIsIdentity(p, keepHex, MARKER, r.text, 0);
      assert r.text[0..] == r.text;
    }
  }

  lemma {:induction false} PassesMark(patterns: seq<Pattern>, r: Redacted)
    requires Marked(r)
    ensures Marked(Passes(patterns, r))
    decreases |patterns|
  {
    if patterns != [] {
      PassMarks(patterns[0], false, r);
      PassesMark(patterns[1..], Pass(patterns[0], false, r));
    }
  }

  /** Every line something was redacted from carries the stamp with the count. */
  lemma RedactionIsStamped(secrets: seq<string>, line: string)
    requires Scrubbed(secrets, line).count > 0
    ensures Occurs(Scrubbed(secrets, line).text, Stamp(Scrubbed(secrets, line).count))
    ensures exists digits :: (forall i :: 0 <= i < |digits| ==> '0' <= digits[i] <= '9')
              && ValueOf(digits) == Scrubbed(secrets, line).count
              && Occurs(Scrubbed(secrets, line).text, "[REDACTED:" + digits + "]")
  {
    var named := Passes(Exacts(secrets) + SHAPE_PATTERNS, Redacted(line, 0));
    var r := Pass(GENERAL_TOKEN, true, named);
    PassesMark(Exacts(secrets) + SHAPE_PATTERNS, Redacted(line, 0));
    PassMarks(GENERAL_TOKEN, true, named);
    var i :| At(r.text, i, MARKER);
    PassUntouched(Exact(MARKER), Stamp(r.count), r.text, 0);
    assert MatchLength(Exact(MARKER), r.text, i) > 0;
    HitLeavesReplacement(Exact(MARKER), false, Stamp(r.count), r.text, 0);
    DecimalReads(r.count);
  }

  /** The stamp can spell `v` only whole. */
  ghost predicate Plain(v: string, count: nat) {
    '\0' !in v && Clear(v, Stamp(count))
  }

  /** Exactly which secret survives, among those without NUL that cannot straddle an edge of the stamp: one the stamp
   *  spells, in every line anything was redacted from. */
  lemma SecretSurvivesIffStampSpellsIt(secrets: seq<string>, line: string, v: string)
    requires "" !in secrets && v in secrets && Plain(v, Scrubbed(secrets, line).count)
    ensures var r := Scrubbed(secrets, line); Occurs(r.text, v) <==> r.count > 0 && Occurs(Stamp(r.count), v)
  {
    var r := Scrubbed(secrets, line);
    if r.count == 0 {
      CountIsZeroIffClean(secrets, line);
    } else if Occurs(Stamp(r.count), v) {
      RedactionIsStamped(secrets, line);
      OccursWithin(r.text, Stamp(r.count), v);
    } else {
      ScrubbedIsClean(secrets, line);
    }
  }

  /** Scrubbing a scrubbed line changes nothing if and only if no secret stands in it; and where no secret holds NUL
   *  or can straddle an edge of the stamp, that is when nothing was redacted or the stamp spells none of them. */
  lemma ScrubbingTwiceIsScrubbingOnce(secrets: seq<string>, line: string)
    requires "" !in secrets
    ensures var r := Scrubbed(secrets, line);
      && (Scrubbed(secrets, r.text) == Redacted(r.text, 0) <==> NoSecret(secrets, r.text))
      && ((forall v :: v in secrets ==> Plain(v, r.count)) ==>
            (NoSecret(secrets, r.text) <==> r.count == 0 || forall v :: v in secrets ==> !Occurs(Stamp(r.count), v)))
  {
    var r := Scrubbed(secrets, line);
    ScrubbedIsClean(secrets, line);
    CountIsZeroIffClean(secrets, r.text);
    if forall v :: v in secrets ==> Plain(v, r.count) {
      forall v | v in secrets ensures Occurs(r.text, v) <==> r.count > 0 && Occurs(Stamp(r.count), v) {
        SecretSurvivesIffStampSpellsIt(secrets, line, v);
      }
    }
  }

  /** A character no stamp holds. */
  predicate Foreign(c: char) {
    c != '\0' && c !in "[REDACTED:]" && !('0' <= c <= '9')
  }

  lemma ForeignEnds(v: string, count: nat)
    requires v != "" && Foreign(v[0]) && Foreign(v[|v| - 1]) && !Occurs(v, Stamp(count))
    ensures Clear(v, Stamp(count)) && !Occurs(Stamp(count), v)
  {
    var stamp := Stamp(count);
    StampCharacters(count);
    forall n | 0 < n < |v| && n <= |stamp| ensures !Meets(v, stamp, n) {
      assert v[..n][0] == v[0] && stamp[|stamp| - n..][0] in stamp;
      assert v[|v| - n..][n - 1] == v[|v| - 1] && stamp[..n][n - 1] in stamp;
    }
    forall i ensures !At(stamp, i, v) {
      if At(stamp, i, v) { FirstCharacter(stamp, i, v); }
    }
  }

  /** So a secret that begins and ends with a character no stamp holds, a URL with a bracketed host for one, never
   *  survives, unless it was itself written around a stamp. */
  lemma ForeignEndsAreGone(secrets: seq<string>, line: string, v: string)
    requires v in secrets && v != "" && '\0' !in v && Foreign(v[0]) && Foreign(v[|v| - 1])
    requires !Occurs(v, Stamp(Scrubbed(secrets, line).count))
    ensures !Occurs(Scrubbed(secrets, line).text, v)
  {
    ForeignEnds(v, Scrubbed(secrets, line).count);
    ScrubbedIsClean(secrets, line);
  }

  // ---------------------------------------------------------------- a bracketed secret, spelt across an edge

  /** A literal at the head of a text that does not otherwise begin it. */
  lemma LeadingHit(v: string, t: string, subst: string)
    requires v != "" && v[0] !in t
    ensures Replace(Exact(v), false, subst, v + t, 0) == Redacted(subst + t, 1)
  {
    var s := v + t;
    assert At(s, 0, v);
    forall j: nat | |v| <= j <= |s| ensures MatchLength(Exact(v), s, j) == 0 {
      if j + |v| <= |s| {
        assert s[j] in t by { assert s[j] == t[j - |v|]; }
        assert s[j..j + |v|][0] == s[j];
      }
    }
    PassUntouched(Exact(v), subst, s, |v|);
    assert s[|v|..] == t;
  }

  lemma AbsentCharacter(c: char, s: string, w: string, i: int)
    requires c in w && c !in s
    ensures !At(s, i, w)
  {
  }

  lemma ShapesNeedADash()
    ensures forall p :: p in SHAPE_PATTERNS ==> p.Shape? && ('-' in p.prefix || '_' in p.prefix)
  {
    assert "sk-ant-"[2] == '-' && "sk-proj-"[2] == '-' && "sk-"[2] == '-' && "plr_cnry_"[3] == '_' && "prm_"[3] == '_';
  }

  /** Nothing but spaces, and few. */
  predicate Gap(t: string) {
    0 < |t| < 20 && forall i :: 0 <= i < |t| ==> t[i] == ' '
  }

  lemma MarkedGap(t: string)
    requires Gap(t)
    ensures '-' !in MARKER + t && '_' !in MARKER + t && ']' !in MARKER + t && LongRunsAreHex(MARKER + t)
  {
    var m := MARKER + t;
    assert |MARKER| == 10;
    forall i | 0 <= i < |m| ensures m[i] != '-' && m[i] != '_' && m[i] != ']' {
      if i >= 10 { assert m[i] == t[i - 10]; } else { assert m[i] == MARKER[i]; }
    }
  }

  lemma LaterPassesMissMarkedGap(t: string)
    requires Gap(t)
    ensures Passes([Exact("]" + t)] + SHAPE_PATTERNS, Redacted(MARKER + t, 1)) == Redacted(MARKER + t, 1)
  {
    var patterns, m := [Exact("]" + t)] + SHAPE_PATTERNS, MARKER + t;
    MarkedGap(t);
    ShapesNeedADash();
    forall p | p in patterns ensures NeverMatches(p, m, 0) && forall s: string :: MatchLength(p, s, |s|) == 0 {
      if p.Exact? {
        assert p == Exact("]" + t) && ("]" + t)[0] == ']';
        forall j: nat | j <= |m| ensures MatchLength(p, m, j) == 0 { AbsentCharacter(']', m, "]" + t, j); }
      } else {
        var c := if '-' in p.prefix then '-' else '_';
        forall j: nat | j <= |m| ensures MatchLength(p, m, j) == 0 { AbsentCharacter(c, m, p.prefix, j); }
      }
    }
    PassesUntouched(patterns, Redacted(m, 1));
  }

  lemma NamedPassesOnGap(w: string, t: string)
    requires Gap(t) && w != "" && w[0] != ' '
    ensures Passes(Exacts([w, "]" + t]) + SHAPE_PATTERNS, Redacted(w + t, 0)) == Redacted(MARKER + t, 1)
  {
    var patterns := Exacts([w, "]" + t]) + SHAPE_PATTERNS;
    assert Exacts([w, "]" + t]) == [Exact(w), Exact("]" + t)];
    assert patterns[0] == Exact(w) && patterns[1..] == [Exact("]" + t)] + SHAPE_PATTERNS;
    LeadingHit(w, t, MARKER);
    LaterPassesMissMarkedGap(t);
  }

  lemma GeneralPassOnGap(t: string)
    requires Gap(t)
    ensures Pass(GENERAL_TOKEN, true, Redacted(MARKER + t, 1)) == Redacted(MARKER + t, 1)
  {
    MarkedGap(t);
    GeneralUntouched(MARKER + t);
  }

  lemma StampOnGap(t: string)
    requires Gap(t)
    ensures Replace(Exact(MARKER), false, Stamp(1), MARKER + t, 0) == Redacted(Stamp(1) + t, 1)
    ensures Occurs(Stamp(1) + t, "]" + t)
  {
    LeadingHit(MARKER, t, Stamp(1));
    StampEndsInBracket(1);
    assert At(Stamp(1) + t, |Stamp(1)| - 1, "]" + t);
  }

  /** With `w` and a closing bracket followed by spaces both configured, the stamp put in place of `w` spells the
   *  other one together with the text behind it, which held neither bracket nor that secret. */
  lemma BracketedSecretIsSpelt(w: string, t: string)
    requires Gap(t) && w != "" && w[0] != ' '
    ensures var r := Scrubbed([w, "]" + t], w + t);
      r == Redacted(Stamp(1) + t, 1) && Occurs(r.text, "]" + t)
  {
    NamedPassesOnGap(w, t);
    GeneralPassOnGap(t);
    StampOnGap(t);
  }

  lemma StampEndsInBracket(count: nat)
    ensures Stamp(count) != "" && Stamp(count)[|Stamp(count)| - 1] == ']'
  {
  }
}

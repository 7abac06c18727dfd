/**
 * OAuth grant families: apps/api/src/oauth.ts. Every exported call is one step; a secret is a number never drawn
 * before, and its hash finds its row. S256 is one-to-one and not every stored challenge need be its image.
 */
module OAuth {
  import opened Prelude

  const ACCESS_TTL: nat := 3600
  const REFRESH_TTL: nat := 2592000
  const CODE_TTL: nat := 300

  datatype Challenge = S256(verifier: string) | NotAnS256(text: string)

  /** What a code is minted for, and every token of its family keeps. */
  datatype Bind = Bind(client: string, member: string, principal: string, credential: string, scope: Option<string>)

  datatype Code = Code(bind: Bind, challenge: Challenge, redirect: string, expires: nat, consumed: bool)

  datatype Kind = Access | Refresh

  datatype Token = Token(kind: Kind, family: nat, bind: Bind, expires: nat, revoked: bool)

  datatype Credential = Credential(revoked: bool, expires: Option<nat>)

  /** `origin` is history: the code each family was issued from. `next` is the first secret not yet drawn. */
  datatype Sys = Sys(
    now: nat, next: nat, codes: map<nat, Code>, tokens: map<nat, Token>,
    credentials: map<string, Credential>, members: map<string, string>, origin: map<nat, nat>)

  const EMPTY := Sys(0, 0, map[], map[], map[], map[], map[])

  datatype Step =
    | CreateAuthCode(bind: Bind, challenge: Challenge, redirect: string)
    | ExchangeCode(code: nat, verifier: string, client: string, redirect: string)
    | ExchangeRefresh(token: nat, client: string)
    | RevokeToken(token: nat)
    | AddCredential(id: string, expires: Option<nat>)
    | RevokeCredential(id: string)
    | BindMember(member: string, principal: string)
    | Advance(seconds: nat)

  // ---------------------------------------------------------------- the calls

  /** `issueTokens`: one access and one refresh token, in one INSERT. */
  function Issued(s: Sys, family: nat, bind: Bind): Sys {
    s.(tokens := s.tokens[s.next := Token(Access, family, bind, s.now + ACCESS_TTL, false)]
                         [s.next + 1 := Token(Refresh, family, bind, s.now + REFRESH_TTL, false)],
       next := s.next + 2)
  }

  function Severed(tokens: map<nat, Token>, family: nat): map<nat, Token> {
    map t | t in tokens :: if tokens[t].family == family then tokens[t].(revoked := true) else tokens[t]
  }

  function DoCreateCode(s: Sys, bind: Bind, challenge: Challenge, redirect: string): Sys {
    s.(codes := s.codes[s.next := Code(bind, challenge, redirect, s.now + CODE_TTL, false)], next := s.next + 1)
  }

  predicate Consumable(s: Sys, code: nat) {
    code in s.codes && !s.codes[code].consumed && s.codes[code].expires > s.now
  }

  predicate Matches(c: Code, verifier: string, client: string, redirect: string) {
    c.bind.client == client && c.redirect == redirect && S256(verifier) == c.challenge
  }

  function Burnt(s: Sys, code: nat): Sys
    requires code in s.codes
  {
    s.(codes := s.codes[code := s.codes[code].(consumed := true)])
  }

  function Opened(s: Sys, code: nat): Sys {
    s.(origin := s.origin[s.next := code], next := s.next + 1)
  }

  /** The consuming UPDATE comes first, so a mismatch burns the code too. */
  function DoExchangeCode(s: Sys, code: nat, verifier: string, client: string, redirect: string): Sys {
    if !Consumable(s, code) then s
    else if !Matches(s.codes[code], verifier, client, redirect) then Burnt(s, code)
    else Issued(Opened(Burnt(s, code), code), s.next, s.codes[code].bind)
  }

  predicate Rotatable(s: Sys, token: nat, client: string) {
    token in s.tokens && s.tokens[token].kind == Refresh && s.tokens[token].bind.client == client
    && !s.tokens[token].revoked && s.tokens[token].expires > s.now
  }

  predicate Replayed(s: Sys, token: nat) {
    token in s.tokens && s.tokens[token].kind == Refresh && s.tokens[token].revoked
  }

  function Rotated(s: Sys, token: nat): Sys
    requires token in s.tokens
  {
    s.(tokens := s.tokens[token := s.tokens[token].(revoked := true)])
  }

  function DoExchangeRefresh(s: Sys, token: nat, client: string): Sys {
    if Rotatable(s, token, client) then Issued(Rotated(s, token), s.tokens[token].family, s.tokens[token].bind)
    else if Replayed(s, token) then s.(tokens := Severed(s.tokens, s.tokens[token].family))
    else s
  }

  function DoRevokeToken(s: Sys, token: nat): Sys {
    if token in s.tokens then s.(tokens := Severed(s.tokens, s.tokens[token].family)) else s
  }

  function Apply(s: Sys, step: Step): Sys {
    match step
    case CreateAuthCode(bind, challenge, redirect) => DoCreateCode(s, bind, challenge, redirect)
    case ExchangeCode(code, verifier, client, redirect) => DoExchangeCode(s, code, verifier, client, redirect)
    case ExchangeRefresh(token, client) => DoExchangeRefresh(s, token, client)
    case RevokeToken(token) => DoRevokeToken(s, token)
    case AddCredential(id, expires) =>
      if id in s.credentials then s else s.(credentials := s.credentials[id := Credential(false, expires)])
    case RevokeCredential(id) =>
      if id in s.credentials then s.(credentials := s.credentials[id := s.credentials[id].(revoked := true)]) else s
    case BindMember(member, principal) => s.(members := s.members[member := principal])
    case Advance(seconds) => s.(now := s.now + seconds)
  }

  function Run(s: Sys, steps: seq<Step>): Sys
    decreases |steps|
  {
    if steps == [] then s else Run(Apply(s, steps[0]), steps[1..])
  }

  datatype Auth = Auth(member: string, principal: string, client: string, scope: Option<string>)

  predicate CredentialLive(s: Sys, id: string) {
    id in s.credentials && !s.credentials[id].revoked
    && (s.credentials[id].expires.None? || s.credentials[id].expires.value > s.now)
  }

  predicate TokenLive(s: Sys, token: nat, kind: Kind) {
    token in s.tokens && s.tokens[token].kind == kind && !s.tokens[token].revoked && s.tokens[token].expires > s.now
  }

  /** `verifyOAuthToken`: the token, the credential that granted it and the member must all still stand, and the
   *  principal is the member's present one. */
  function Verify(s: Sys, token: nat): Option<Auth> {
    if TokenLive(s, token, Access) && CredentialLive(s, s.tokens[token].bind.credential)
        && s.tokens[token].bind.member in s.members
    then
      var bind := s.tokens[token].bind;
      Some(Auth(bind.member, s.members[bind.member], bind.client, bind.scope))
    else None
  }

  // ---------------------------------------------------------------- what every run keeps

  /** Secrets are drawn once. */
  ghost predicate Fresh(s: Sys) {
    (forall c :: c in s.codes ==> c < s.next) && (forall t :: t in s.tokens ==> t < s.next)
    && (forall f :: f in s.origin ==> f < s.next)
  }

  /** One code, one family; and a family's tokens carry what its code was minted for. */
  ghost predicate Lineage(s: Sys) {
    && (forall f :: f in s.origin ==> s.origin[f] in s.codes && s.codes[s.origin[f]].consumed)
    && (forall f, g :: f in s.origin && g in s.origin && s.origin[f] == s.origin[g] ==> f == g)
    && (forall t :: t in s.tokens ==>
          s.tokens[t].family in s.origin && s.tokens[t].bind == s.codes[s.origin[s.tokens[t].family]].bind)
  }

  /** A refresh token not yet rotated out or severed. */
  predicate Current(s: Sys, t: nat) {
    t in s.tokens && s.tokens[t].kind == Refresh && !s.tokens[t].revoked
  }

  ghost predicate OneCurrent(s: Sys) {
    forall t, u :: Current(s, t) && Current(s, u) && s.tokens[t].family == s.tokens[u].family ==> t == u
  }

  ghost predicate Inv(s: Sys) {
    Fresh(s) && Lineage(s) && OneCurrent(s)
  }

  lemma BurnKeeps(s: Sys, code: nat)
    requires Inv(s) && code in s.codes
    ensures Inv(Burnt(s, code))
  {
  }

  lemma OpenKeeps(s: Sys, code: nat)
    requires Inv(s) && code in s.codes && s.codes[code].consumed && forall f :: f in s.origin ==> s.origin[f] != code
    ensures Inv(Opened(s, code))
    ensures forall t :: t in s.tokens ==> s.tokens[t].family != s.next
  {
  }

  lemma RotateKeeps(s: Sys, token: nat)
    requires Inv(s) && Current(s, token)
    ensures Inv(Rotated(s, token))
    ensures forall t :: Current(Rotated(s, token), t) ==> s.tokens[t].family != s.tokens[token].family
  {
    forall t | Current(Rotated(s, token), t) ensures t != token && Current(s, t) {}
  }

  lemma IssueLineage(s: Sys, family: nat, bind: Bind)
    requires Fresh(s) && Lineage(s) && family in s.origin && bind == s.codes[s.origin[family]].bind
    ensures Fresh(Issued(s, family, bind)) && Lineage(Issued(s, family, bind))
  {
  }

  lemma IssueOneCurrent(s: Sys, family: nat, bind: Bind)
    requires Fresh(s) && OneCurrent(s) && forall t :: Current(s, t) ==> s.tokens[t].family != family
    ensures OneCurrent(Issued(s, family, bind))
  {
    var issued := Issued(s, family, bind);
    forall t | Current(issued, t) ensures t == s.next + 1 || Current(s, t) {}
  }

  lemma SeverLineage(s: Sys, family: nat)
    requires Fresh(s) && Lineage(s)
    ensures Fresh(s.(tokens := Severed(s.tokens, family))) && Lineage(s.(tokens := Severed(s.tokens, family)))
  {
  }

  lemma SeverOneCurrent(s: Sys, family: nat)
    requires OneCurrent(s)
    ensures OneCurrent(s.(tokens := Severed(s.tokens, family)))
  {
    var severed := s.(tokens := Severed(s.tokens, family));
    forall t | Current(severed, t) ensures Current(s, t) && s.tokens[t].family == severed.tokens[t].family {}
  }

  lemma SeverKeeps(s: Sys, family: nat)
    requires Inv(s)
    ensures Inv(s.(tokens := Severed(s.tokens, family)))
  {
    SeverLineage(s, family);
    SeverOneCurrent(s, family);
  }

  lemma {:induction false} ExchangeCodeKeeps(s: Sys, code: nat, verifier: string, client: string, redirect: string)
    requires Inv(s)
    ensures Inv(DoExchangeCode(s, code, verifier, client, redirect))
  {
    if Consumable(s, code) {
      BurnKeeps(s, code);
      if Matches(s.codes[code], verifier, client, redirect) {
        NoFamilyYet(s, code);
        OpenKeeps(Burnt(s, code), code);
        IssueLineage(Opened(Burnt(s, code), code), s.next, s.codes[code].bind);
        IssueOneCurrent(Opened(Burnt(s, code), code), s.next, s.codes[code].bind);
      }
    }
  }

  lemma NoFamilyYet(s: Sys, code: nat)
    requires Lineage(s) && code in s.codes && !s.codes[code].consumed
    ensures forall f :: f in s.origin ==> s.origin[f] != code
  {
  }

  lemma {:induction false} ExchangeRefreshKeeps(s: Sys, token: nat, client: string)
    requires Inv(s)
    ensures Inv(DoExchangeRefresh(s, token, client))
  {
    if Rotatable(s, token, client) {
      RotateKeeps(s, token);
      IssueLineage(Rotated(s, token), s.tokens[token].family, s.tokens[token].bind);
      IssueOneCurrent(Rotated(s, token), s.tokens[token].family, s.tokens[token].bind);
    } else if Replayed(s, token) {
      SeverKeeps(s, s.tokens[token].family);
    }
  }

  lemma CreateCodeKeeps(s: Sys, bind: Bind, challenge: Challenge, redirect: string)
    requires Inv(s)
    ensures Inv(DoCreateCode(s, bind, challenge, redirect))
  {
  }

  /** Credentials, members and the clock are no part of the invariant. */
  lemma OtherKeeps(s: Sys, t: Sys)
    requires Inv(s) && t == s.(now := t.now, credentials := t.credentials, members := t.members)
    ensures Inv(t)
  {
  }

  lemma {:induction false} StepKeeps(s: Sys, step: Step)
    requires Inv(s)
    ensures Inv(Apply(s, step))
  {
    match step
    case CreateAuthCode(bind, challenge, redirect) => CreateCodeKeeps(s, bind, challenge, redirect);
    case ExchangeCode(code, verifier, client, redirect) => ExchangeCodeKeeps(s, code, verifier, client, redirect);
    case ExchangeRefresh(token, client) => ExchangeRefreshKeeps(s, token, client);
    case RevokeToken(token) => if token in s.tokens { SeverKeeps(s, s.tokens[token].family); }
    case _ => OtherKeeps(s, Apply(s, step));
  }

  lemma {:induction false} RunKeeps(s: Sys, steps: seq<Step>)
    requires Inv(s)
    ensures Inv(Run(s, steps))
    decreases |steps|
  {
    if steps != [] {
      StepKeeps(s, steps[0]);
      RunKeeps(Apply(s, steps[0]), steps[1..]);
    }
  }

  /** In every run a code yields one family at most, a family never has two live refresh tokens, and every token is
   *  bound to what the code was minted for. */
  lemma OneFamilyPerCodeOneRefreshPerFamily(steps: seq<Step>)
    ensures var s := Run(EMPTY, steps);
      && (forall f, g :: f in s.origin && g in s.origin && s.origin[f] == s.origin[g] ==> f == g)
      && (forall t, u ::
            TokenLive(s, t, Refresh) && TokenLive(s, u, Refresh) && s.tokens[t].family == s.tokens[u].family ==> t == u)
      && (forall t :: t in s.tokens ==>
            s.tokens[t].family in s.origin && s.origin[s.tokens[t].family] in s.codes
            && s.tokens[t].bind == s.codes[s.origin[s.tokens[t].family]].bind)
  {
    RunKeeps(EMPTY, steps);
    var s := Run(EMPTY, steps);
    forall t | TokenLive(s, t, Refresh) ensures Current(s, t) {}
  }

  // ---------------------------------------------------------------- a severed family stays severed

  /** Issued once, and no token of it is live. */
  ghost predicate Dead(s: Sys, family: nat) {
    && family in s.origin
    && forall t :: t in s.tokens && s.tokens[t].family == family ==> s.tokens[t].revoked
  }

  /** No call changes what a token is, or takes a revocation back. */
  ghost predicate Evolves(before: map<nat, Token>, after: map<nat, Token>) {
    forall t :: t in before ==>
      && t in after && after[t].kind == before[t].kind && after[t].family == before[t].family
      && after[t].bind == before[t].bind && after[t].expires == before[t].expires
      && (before[t].revoked ==> after[t].revoked)
  }

  lemma IssuedEvolves(s: Sys, family: nat, bind: Bind)
    requires Fresh(s)
    ensures Evolves(s.tokens, Issued(s, family, bind).tokens)
  {
  }

  lemma SeveredEvolves(tokens: map<nat, Token>, family: nat)
    ensures Evolves(tokens, Severed(tokens, family))
  {
  }

  lemma RefreshEvolves(s: Sys, token: nat, client: string)
    requires Fresh(s)
    ensures Evolves(s.tokens, DoExchangeRefresh(s, token, client).tokens)
  {
    if Rotatable(s, token, client) {
      IssuedEvolves(Rotated(s, token), s.tokens[token].family, s.tokens[token].bind);
    } else if Replayed(s, token) {
      SeveredEvolves(s.tokens, s.tokens[token].family);
    }
  }

  lemma CodeEvolves(s: Sys, code: nat, verifier: string, client: string, redirect: string)
    requires Fresh(s)
    ensures Evolves(s.tokens, DoExchangeCode(s, code, verifier, client, redirect).tokens)
  {
    if Consumable(s, code) && Matches(s.codes[code], verifier, client, redirect) {
      IssuedEvolves(Opened(Burnt(s, code), code), s.next, s.codes[code].bind);
    }
  }

  lemma StepEvolves(s: Sys, step: Step)
    requires Fresh(s)
    ensures Evolves(s.tokens, Apply(s, step).tokens)
  {
    match step
    case ExchangeCode(code, verifier, client, redirect) => CodeEvolves(s, code, verifier, client, redirect);
    case ExchangeRefresh(token, client) => RefreshEvolves(s, token, client);
    case RevokeToken(token) => if token in s.tokens { SeveredEvolves(s.tokens, s.tokens[token].family); }
    case _ => assert Apply(s, step).tokens == s.tokens;
  }

  /** A new token is of a family opened just then, or of one that had a live refresh token. */
  lemma NewTokensAreLive(s: Sys, step: Step, t: nat)
    requires Fresh(s) && t !in s.tokens && t in Apply(s, step).tokens
    ensures var family := Apply(s, step).tokens[t].family;
      family == s.next || exists u :: Current(s, u) && s.tokens[u].family == family
  {
    match step
    case ExchangeCode(code, verifier, client, redirect) =>
      if Consumable(s, code) && Matches(s.codes[code], verifier, client, redirect) {
        IssuedNew(Opened(Burnt(s, code), code), s.next, s.codes[code].bind, t);
      }
    case ExchangeRefresh(token, client) =>
      if Rotatable(s, token, client) {
        assert Current(s, token);
        IssuedNew(Rotated(s, token), s.tokens[token].family, s.tokens[token].bind, t);
      }
    case _ =>
  }

  lemma IssuedNew(s: Sys, family: nat, bind: Bind, t: nat)
    requires t !in s.tokens && t in Issued(s, family, bind).tokens
    ensures Issued(s, family, bind).tokens[t].family == family
  {
  }

  lemma DeadStep(s: Sys, family: nat, step: Step)
    requires Inv(s) && Dead(s, family)
    ensures Dead(Apply(s, step), family)
  {
    var after := Apply(s, step);
    StepEvolves(s, step);
    OriginGrows(s, step);
    forall t | t in after.tokens && after.tokens[t].family == family ensures after.tokens[t].revoked {
      if t !in s.tokens { NewTokensAreLive(s, step, t); }
    }
  }

  lemma OriginGrows(s: Sys, step: Step)
    ensures forall f :: f in s.origin ==> f in Apply(s, step).origin
  {
  }

  lemma {:induction false} DeadRun(s: Sys, family: nat, steps: seq<Step>)
    requires Inv(s) && Dead(s, family)
    ensures Dead(Run(s, steps), family)
    decreases |steps|
  {
    if steps != [] {
      DeadStep(s, family, steps[0]);
      StepKeeps(s, steps[0]);
      DeadRun(Apply(s, steps[0]), family, steps[1..]);
    }
  }

  /** No token of the family authenticates, renews, or ever will: whatever is called later and however time goes. */
  ghost predicate DeadForever(s: Sys, family: nat) {
    forall steps: seq<Step>, t: nat ::
      var later := Run(s, steps);
      t in later.tokens && later.tokens[t].family == family ==>
        Verify(later, t) == None && forall client :: !Rotatable(later, t, client)
  }

  lemma DeadIsForever(s: Sys, family: nat)
    requires Inv(s) && Dead(s, family)
    ensures DeadForever(s, family)
  {
    forall steps: seq<Step> ensures Dead(Run(s, steps), family) { DeadRun(s, family, steps); }
  }

  lemma SeveringKills(s: Sys, token: nat, step: Step)
    requires Inv(s) && token in s.tokens
    requires step == RevokeToken(token) || (step.ExchangeRefresh? && step.token == token && Replayed(s, token))
    ensures Dead(Apply(s, step), s.tokens[token].family)
  {
    assert Apply(s, step) == s.(tokens := Severed(s.tokens, s.tokens[token].family));
  }

  /** Revoking either token of a family, or replaying a rotated or severed refresh token under any client id, ends
   *  the family for good. */
  lemma RevokeOrReplayEndsTheFamily(s: Sys, token: nat, step: Step)
    requires Inv(s) && token in s.tokens
    requires step == RevokeToken(token) || (step.ExchangeRefresh? && step.token == token && Replayed(s, token))
    ensures DeadForever(Apply(s, step), s.tokens[token].family)
  {
    StepKeeps(s, step);
    SeveringKills(s, token, step);
    DeadIsForever(Apply(s, step), s.tokens[token].family);
  }

  /** A rotated refresh token is known and revoked ever after. */
  lemma {:induction false} StaysReplayed(s: Sys, token: nat, steps: seq<Step>)
    requires Inv(s) && Replayed(s, token)
    ensures Replayed(Run(s, steps), token) && Run(s, steps).tokens[token].family == s.tokens[token].family
    decreases |steps|
  {
    if steps != [] {
      ReplayedStep(s, token, steps[0]);
      StepKeeps(s, steps[0]);
      StaysReplayed(Apply(s, steps[0]), token, steps[1..]);
    }
  }

  lemma ReplayedStep(s: Sys, token: nat, step: Step)
    requires Fresh(s) && Replayed(s, token)
    ensures Replayed(Apply(s, step), token) && Apply(s, step).tokens[token].family == s.tokens[token].family
  {
    StepEvolves(s, step);
  }

  lemma RotationReplays(s: Sys, token: nat, client: string)
    requires Inv(s) && Rotatable(s, token, client)
    ensures Replayed(DoExchangeRefresh(s, token, client), token)
    ensures DoExchangeRefresh(s, token, client).tokens[token].family == s.tokens[token].family
  {
  }

  /** Rotation with reuse detection: once a refresh token has been exchanged, presenting it again at any later time
   *  fails and takes the whole family with it, newest tokens included, for good. */
  lemma ReplayAfterRotationEndsTheFamily(s: Sys, token: nat, client: string, steps: seq<Step>, presenter: string)
    requires Inv(s) && Rotatable(s, token, client)
    ensures var later := Run(DoExchangeRefresh(s, token, client), steps);
      && !Rotatable(later, token, presenter)
      && DeadForever(DoExchangeRefresh(later, token, presenter), s.tokens[token].family)
  {
    var rotated := DoExchangeRefresh(s, token, client);
    ExchangeRefreshKeeps(s, token, client);
    RunKeeps(rotated, steps);
    RotationReplays(s, token, client);
    StaysReplayed(rotated, token, steps);
    RevokeOrReplayEndsTheFamily(Run(rotated, steps), token, ExchangeRefresh(token, presenter));
  }

  lemma ExpiryStep(s: Sys, token: nat, step: Step)
    requires Fresh(s) && token in s.tokens
    ensures token in Apply(s, step).tokens && Apply(s, step).tokens[token].expires == s.tokens[token].expires
  {
    StepEvolves(s, step);
  }

  /** No call prolongs a token: an hour after it was issued an access token is dead, thirty days after it a refresh
   *  token is, whatever happened to the family. */
  lemma {:induction false} TokensLapse(s: Sys, token: nat, steps: seq<Step>)
    requires Inv(s) && token in s.tokens
    ensures var later := Run(s, steps);
      && token in later.tokens && later.tokens[token].expires == s.tokens[token].expires
      && (later.now >= s.tokens[token].expires ==>
          Verify(later, token) == None && forall client :: !Rotatable(later, token, client))
    decreases |steps|
  {
    if steps != [] {
      ExpiryStep(s, token, steps[0]);
      StepKeeps(s, steps[0]);
      TokensLapse(Apply(s, steps[0]), token, steps[1..]);
    }
  }

  // ---------------------------------------------------------------- single use, and the granting credential

  /** A code presented in time, matching or not, is never exchanged again. */
  lemma CodeIsSingleUse(s: Sys, code: nat, verifier: string, client: string, redirect: string, steps: seq<Step>)
    requires Inv(s) && Consumable(s, code)
    ensures !Consumable(Run(DoExchangeCode(s, code, verifier, client, redirect), steps), code)
  {
    ExchangeCodeKeeps(s, code, verifier, client, redirect);
    StaysConsumed(DoExchangeCode(s, code, verifier, client, redirect), code, steps);
  }

  lemma {:induction false} StaysConsumed(s: Sys, code: nat, steps: seq<Step>)
    requires Inv(s) && code in s.codes && s.codes[code].consumed
    ensures !Consumable(Run(s, steps), code)
    decreases |steps|
  {
    if steps != [] {
      ConsumedStep(s, code, steps[0]);
      StepKeeps(s, steps[0]);
      StaysConsumed(Apply(s, steps[0]), code, steps[1..]);
    }
  }

  lemma ConsumedStep(s: Sys, code: nat, step: Step)
    requires Fresh(s) && code in s.codes && s.codes[code].consumed
    ensures code in Apply(s, step).codes && Apply(s, step).codes[code].consumed
  {
    if step.ExchangeCode? || step.CreateAuthCode? { CodesGrow(s, step, code); }
        else { assert Apply(s, step).codes == s.codes; }
  }

  lemma CodesGrow(s: Sys, step: Step, code: nat)
    requires Fresh(s) && code in s.codes && s.codes[code].consumed && (step.ExchangeCode? || step.CreateAuthCode?)
    ensures code in Apply(s, step).codes && Apply(s, step).codes[code].consumed
  {
  }

  lemma {:induction false} CredentialStaysRevoked(s: Sys, id: string, steps: seq<Step>)
    requires id in s.credentials && s.credentials[id].revoked
    ensures id in Run(s, steps).credentials && Run(s, steps).credentials[id].revoked
    decreases |steps|
  {
    if steps != [] { CredentialStaysRevoked(Apply(s, steps[0]), id, steps[1..]); }
  }

  /** Revoking a credential cascades: no token it granted, of any family, then or later, authenticates again. */
  lemma RevokedCredentialCascades(s: Sys, id: string, steps: seq<Step>, token: nat)
    requires id in s.credentials
    ensures var later := Run(Apply(s, RevokeCredential(id)), steps);
      token in later.tokens && later.tokens[token].bind.credential == id ==> Verify(later, token) == None
  {
    CredentialStaysRevoked(Apply(s, RevokeCredential(id)), id, steps);
  }

  // ---------------------------------------------------------------- what a grant takes

  /** One access token for an hour and one refresh token for thirty days, of one family and for one purpose. */
  function WithGrant(tokens: map<nat, Token>, secret: nat, family: nat, now: nat, bind: Bind): map<nat, Token> {
    tokens[secret := Token(Access, family, bind, now + 3600, false)]
          [secret + 1 := Token(Refresh, family, bind, now + 2592000, false)]
  }

  /** The caller may have the code's grant. */
  predicate Entitled(s: Sys, code: nat, verifier: string, client: string, redirect: string) {
    && code in s.codes && !s.codes[code].consumed && s.now < s.codes[code].expires
    && s.codes[code].challenge == S256(verifier)
    && s.codes[code].bind.client == client && s.codes[code].redirect == redirect
  }

  /** An exchange grants if and only if the code is known, not yet presented and in time, and the caller is the client
   *  it was minted for, names its redirect, and holds the preimage of its challenge; else no token changes. In time, it
   *  burns the code either way. */
  lemma ExchangeTakesAPreimage(s: Sys, code: nat, verifier: string, client: string, redirect: string)
    requires Fresh(s)
    ensures var after := Apply(s, ExchangeCode(code, verifier, client, redirect));
      && (after.tokens != s.tokens <==> Entitled(s, code, verifier, client, redirect))
      && (after.tokens != s.tokens ==>
            after.tokens == WithGrant(s.tokens, s.next + 1, s.next, s.now, s.codes[code].bind))
      && after.codes == if code in s.codes && s.now < s.codes[code].expires
                        then s.codes[code := s.codes[code].(consumed := true)] else s.codes
  {
    if Entitled(s, code, verifier, client, redirect) {
      assert s.next + 1 !in s.tokens;
      assert s.next + 1 in WithGrant(s.tokens, s.next + 1, s.next, s.now, s.codes[code].bind);
    } else if code in s.codes && s.codes[code].consumed {
      assert s.codes[code := s.codes[code].(consumed := true)] == s.codes;
    }
  }

  /** The family's exchange is among the calls made: its caller was the code's client, named its redirect and presented
   *  a preimage of its challenge. */
  ghost predicate Presented(s: Sys, done: seq<Step>, family: nat)
    requires family in s.origin
  {
    var code := s.origin[family];
    && code in s.codes
    && exists i, verifier ::
         && 0 <= i < |done|
         && done[i] == ExchangeCode(code, verifier, s.codes[code].bind.client, s.codes[code].redirect)
         && s.codes[code].challenge == S256(verifier)
  }

  ghost predicate AllPresented(s: Sys, done: seq<Step>) {
    forall family :: family in s.origin ==> Presented(s, done, family)
  }

  lemma OtherCodesStay(s: Sys, step: Step)
    requires !step.ExchangeCode? && !step.CreateAuthCode?
    ensures Apply(s, step).codes == s.codes && Apply(s, step).origin == s.origin
  {
  }

  /** Calls never change what a code was minted for. */
  lemma CodeStays(s: Sys, step: Step, code: nat)
    requires Fresh(s) && code in s.codes
    ensures code in Apply(s, step).codes
    ensures Apply(s, step).codes[code] == s.codes[code].(consumed := Apply(s, step).codes[code].consumed)
  {
    if !step.ExchangeCode? && !step.CreateAuthCode? { OtherCodesStay(s, step); }
  }

  lemma OnlyAnExchangeOpens(s: Sys, step: Step, family: nat)
    requires family in Apply(s, step).origin
    ensures family in s.origin ==> family != s.next ==> Apply(s, step).origin[family] == s.origin[family]
    ensures family !in s.origin ==>
              && step.ExchangeCode? && Apply(s, step).origin[family] == step.code
              && Entitled(s, step.code, step.verifier, step.client, step.redirect)
  {
    if !step.ExchangeCode? && !step.CreateAuthCode? { OtherCodesStay(s, step); }
  }

  lemma PresentedStays(s: Sys, done: seq<Step>, step: Step, family: nat)
    requires Fresh(s) && family in s.origin && Presented(s, done, family)
    requires family in Apply(s, step).origin && Apply(s, step).origin[family] == s.origin[family]
    ensures Presented(Apply(s, step), done + [step], family)
  {
    var code := s.origin[family];
    CodeStays(s, step, code);
    var i, verifier :| 0 <= i < |done|
      && done[i] == ExchangeCode(code, verifier, s.codes[code].bind.client, s.codes[code].redirect)
      && s.codes[code].challenge == S256(verifier);
    assert (done + [step])[i] == done[i];
  }

  lemma PresentedStep(s: Sys, done: seq<Step>, step: Step)
    requires Inv(s) && AllPresented(s, done)
    ensures AllPresented(Apply(s, step), done + [step])
  {
    forall family | family in Apply(s, step).origin ensures Presented(Apply(s, step), done + [step], family) {
      OnlyAnExchangeOpens(s, step, family);
      if family in s.origin { PresentedStays(s, done, step, family); } else { NewlyPresented(s, done, step, family); }
    }
  }

  lemma NewlyPresented(s: Sys, done: seq<Step>, step: Step, family: nat)
    requires Fresh(s) && step.ExchangeCode? && Entitled(s, step.code, step.verifier, step.client, step.redirect)
    requires family in Apply(s, step).origin && Apply(s, step).origin[family] == step.code
    ensures Presented(Apply(s, step), done + [step], family)
  {
    CodeStays(s, step, step.code);
    assert (done + [step])[|done|] == step;
  }

  lemma {:induction false} PresentedRun(s: Sys, done: seq<Step>, steps: seq<Step>)
    requires Inv(s) && AllPresented(s, done)
    ensures AllPresented(Run(s, steps), done + steps)
    decreases |steps|
  {
    if steps == [] {
      assert done + steps == done;
    } else {
      PresentedStep(s, done, steps[0]);
      StepKeeps(s, steps[0]);
      PresentedRun(Apply(s, steps[0]), done + [steps[0]], steps[1..]);
      assert done + [steps[0]] + steps[1..] == done + steps;
    }
  }

  /** Over every run, every token descends from an exchange in which the code's own client presented a preimage of the
   *  code's challenge. */
  lemma EveryTokenHasAPreimage(steps: seq<Step>, token: nat)
    requires token in Run(EMPTY, steps).tokens
    ensures var s := Run(EMPTY, steps);
      s.tokens[token].family in s.origin && Presented(s, steps, s.tokens[token].family)
  {
    RunKeeps(EMPTY, steps);
    PresentedRun(EMPTY, [], steps);
    assert [] + steps == steps;
  }

  /** A code can be exchanged for five minutes, and not a second longer. */
  lemma CodeLastsFiveMinutes(s: Sys, bind: Bind, challenge: Challenge, redirect: string, seconds: nat)
    ensures var minted := Apply(s, CreateAuthCode(bind, challenge, redirect));
      Consumable(Apply(minted, Advance(seconds)), s.next) <==> seconds < 300
  {
  }

  /** A refresh grants if and only if it presents a refresh token of the caller's, unrevoked and in time; a revoked one
   *  severs its family; anything else changes nothing. */
  lemma RefreshTakesALiveToken(s: Sys, token: nat, client: string)
    requires Fresh(s)
    ensures var after := Apply(s, ExchangeRefresh(token, client));
      if token !in s.tokens || s.tokens[token].kind == Access then after == s
      else
        var t := s.tokens[token];
        if t.revoked then
          && after.tokens.Keys == s.tokens.Keys
          && forall x :: x in s.tokens ==>
               after.tokens[x] == s.tokens[x].(revoked := s.tokens[x].revoked || s.tokens[x].family == t.family)
        else if s.now < t.expires && t.bind.client == client then
          after.tokens == WithGrant(s.tokens[token := t.(revoked := true)], s.next, t.family, s.now, t.bind)
        else after == s
  {
  }

  lemma {:induction false} RunConcat(s: Sys, a: seq<Step>, b: seq<Step>)
    ensures Run(s, a + b) == Run(Run(s, a), b)
    decreases |a|
  {
    if a == [] {
      assert a + b == b;
    } else {
      assert (a + b)[1..] == a[1..] + b;
      RunConcat(Apply(s, a[0]), a[1..], b);
    }
  }

  lemma RunTwo(s: Sys, a: Step, b: Step)
    ensures Run(s, [a, b]) == Apply(Apply(s, a), b)
  {
    assert [a, b][1..] == [b] && [b][1..] == [];
    assert Run(Apply(s, a), [b]) == Run(Apply(Apply(s, a), b), []);
  }

  /** A member with a live credential who mints a code and presents its preimage. */
  function Grant(bind: Bind, verifier: string, redirect: string): seq<Step> {
    [AddCredential(bind.credential, None), BindMember(bind.member, bind.principal)]
    + [CreateAuthCode(bind, S256(verifier), redirect), ExchangeCode(0, verifier, bind.client, redirect)]
  }

  /** From an empty store such a grant authenticates the member for an hour, and no longer. */
  lemma GrantAuthenticatesForAnHour(bind: Bind, verifier: string, redirect: string, seconds: nat)
    ensures var granted := Run(EMPTY, Grant(bind, verifier, redirect));
      Verify(Apply(granted, Advance(seconds)), 2)
      == if seconds < 3600 then Some(Auth(bind.member, bind.principal, bind.client, bind.scope)) else None
  {
    RunConcat(EMPTY, [AddCredential(bind.credential, None), BindMember(bind.member, bind.principal)],
        [CreateAuthCode(bind, S256(verifier), redirect), ExchangeCode(0, verifier, bind.client, redirect)]);
    RunTwo(EMPTY, AddCredential(bind.credential, None), BindMember(bind.member, bind.principal));
    var known := Apply(Apply(EMPTY, AddCredential(bind.credential, None)), BindMember(bind.member, bind.principal));
    var minted := Apply(known, CreateAuthCode(bind, S256(verifier), redirect));
    RunTwo(known, CreateAuthCode(bind, S256(verifier), redirect), ExchangeCode(0, verifier, bind.client, redirect));
    ExchangeTakesAPreimage(minted, 0, verifier, bind.client, redirect);
  }

  // ---------------------------------------------------------------- the calls on the stored rows

  datatype Exchange = Granted(access: nat, refresh: nat, expiresIn: nat, scope: Option<string>) | InvalidGrant

  class OAuthStore {
    var now: nat
    var next: nat
    var codes: map<nat, Code>
    var tokens: map<nat, Token>
    var credentials: map<string, Credential>
    var members: map<string, string>
    ghost var origin: map<nat, nat>

    constructor ()
      ensures State() == EMPTY
    {
      now, next, codes, tokens, credentials, members, origin := 0, 0, map[], map[], map[], map[], map[];
    }

    ghost function State(): Sys
      reads this
    {
      Sys(now, next, codes, tokens, credentials, members, origin)
    }

    method CreateAuthCode(bind: Bind, challenge: Challenge, redirect: string) returns (code: nat)
      modifies this
      ensures State() == Apply(old(State()), Step.CreateAuthCode(bind, challenge, redirect))
      ensures codes == old(codes)[code := Code(bind, challenge, redirect, now + 300, false)]
      ensures Inv(old(State())) ==> code !in old(codes)
    {
      code, next := next, next + 1;
      codes := codes[code := Code(bind, challenge, redirect, now + CODE_TTL, false)];
    }

    method ExchangeCode(code: nat, verifier: string, client: string, redirect: string) returns (r: Exchange)
      modifies this
      ensures State() == Apply(old(State()), Step.ExchangeCode(code, verifier, client, redirect))
      ensures r.Granted? <==>
                old(&& code in codes && !codes[code].consumed && codes[code].expires > now
                    && codes[code].bind.client == client && codes[code].redirect == redirect
                    && codes[code].challenge == S256(verifier))
      ensures r.Granted? ==>
                && TokenLive(State(), r.access, Access) && TokenLive(State(), r.refresh, Refresh)
                && tokens[r.access].family == tokens[r.refresh].family
                && tokens[r.access].bind == tokens[r.refresh].bind == old(codes[code].bind)
                && tokens[r.access].expires == now + 3600 && tokens[r.refresh].expires == now + 2592000
                && r.expiresIn == 3600 && r.scope == old(codes[code].bind.scope)
    {
      if !(code in codes && !codes[code].consumed && codes[code].expires > now) { return InvalidGrant; }
      var c := codes[code];
      codes := codes[code := c.(consumed := true)];
      if c.bind.client != client { return InvalidGrant; }
      if c.redirect != redirect { return InvalidGrant; }
      if S256(verifier) != c.challenge { return InvalidGrant; }
      var family := next;
      origin, next := origin[family := code], next + 1;
      r := IssueTokens(family, c.bind);
    }

    method IssueTokens(family: nat, bind: Bind) returns (r: Exchange)
      modifies this
      ensures State() == Issued(old(State()), family, bind)
      ensures r == Granted(old(next), old(next) + 1, ACCESS_TTL, bind.scope)
    {
      var access, refresh := next, next + 1;
      next := next + 2;
      tokens := tokens[access := Token(Access, family, bind, now + ACCESS_TTL, false)];
      tokens := tokens[refresh := Token(Refresh, family, bind, now + REFRESH_TTL, false)];
      return Granted(access, refresh, ACCESS_TTL, bind.scope);
    }

    method ExchangeRefresh(token: nat, client: string) returns (r: Exchange)
      modifies this
      ensures State() == Apply(old(State()), Step.ExchangeRefresh(token, client))
      ensures r.Granted? <==>
                old(&& token in tokens && tokens[token].kind == Refresh && !tokens[token].revoked
                    && tokens[token].expires > now && tokens[token].bind.client == client)
      ensures r.Granted? ==>
                && TokenLive(State(), r.access, Access) && TokenLive(State(), r.refresh, Refresh)
                && tokens[r.refresh].family == tokens[r.access].family == old(tokens[token].family)
                && (Inv(old(State())) ==> tokens[token].revoked)
      ensures old(token in tokens && tokens[token].kind == Refresh && tokens[token].revoked) ==>
                forall t :: t in tokens && tokens[t].family == old(tokens[token].family) ==> tokens[t].revoked
    {
      if token in tokens && tokens[token].kind == Refresh && tokens[token].bind.client == client
         && !tokens[token].revoked && tokens[token].expires > now {
        var t := tokens[token];
        tokens := tokens[token := t.(revoked := true)];
        r := IssueTokens(t.family, t.bind);
        return;
      }
      if token in tokens && tokens[token].kind == Refresh
          && tokens[token].revoked { RevokeFamily(tokens[token].family); }
      return InvalidGrant;
    }

    method RevokeFamily(family: nat)
      modifies this`tokens
      ensures tokens == Severed(old(tokens), family)
    {
      tokens := map t | t in tokens :: if tokens[t].family == family then tokens[t].(revoked := true) else tokens[t];
    }

    method RevokeOAuthToken(token: nat)
      modifies this`tokens
      ensures State() == Apply(old(State()), RevokeToken(token))
      ensures token in tokens ==> forall t :: t in tokens && tokens[t].family == tokens[token].family ==>
              tokens[t].revoked
      ensures token !in tokens ==> tokens == old(tokens)
    {
      if token in tokens { RevokeFamily(tokens[token].family); }
    }

    /** An answer names a live token's member and client, and the principal that member has now. */
    method VerifyOAuthToken(token: nat) returns (auth: Option<Auth>)
      ensures auth == Verify(State(), token)
      ensures auth.Some? <==>
                && token in tokens && tokens[token].kind == Access && !tokens[token].revoked
                && tokens[token].expires > now
                && var bind := tokens[token].bind;
                   && bind.member in members && bind.credential in credentials && !credentials[bind.credential].revoked
                   && (credentials[bind.credential].expires.None? || credentials[bind.credential].expires.value > now)
      ensures auth.Some? ==>
                var bind := tokens[token].bind;
                auth.value == Auth(bind.member, members[bind.member], bind.client, bind.scope)
    {
      if token !in tokens { return None; }
      var t := tokens[token];
      if t.kind != Access || t.revoked || t.expires <= now { return None; }
      if t.bind.credential !in credentials || t.bind.member !in members { return None; }
      var credential := credentials[t.bind.credential];
      if credential.revoked || (credential.expires.Some? && credential.expires.value <= now) { return None; }
      return Some(Auth(t.bind.member, members[t.bind.member], t.bind.client, t.bind.scope));
    }
  }
}

/** The promises of the OAuth grant store, over every run. */
module OAuthTheorems {
  import opened Basics
  import opened OAuthGrants
  import opened OAuthSafety

  // The log only grows ------------------------------------------------------------------

  ghost predicate ConsentGrows(c: Consent, c': Consent) {
    && (forall t :: t in c.asked ==> t in c'.asked && c'.asked[t] == c.asked[t])
    && (forall k :: k in c.approved ==> k in c'.approved && c'.approved[k] == c.approved[k])
    && c.answered <= c'.answered
  }

  /** The part of the log that tokens are issued from. */
  ghost predicate TokensGrow(log: Log, log': Log) {
    && (forall f :: f in log.granted ==> f in log'.granted && log'.granted[f] == log.granted[f])
    && (forall c :: c in log.exchanged ==> c in log'.exchanged && log'.exchanged[c] == log.exchanged[c])
    && (forall r :: r in log.owner ==> r in log'.owner && log'.owner[r] == log.owner[r])
    && log.rotated <= log'.rotated && log.revoked <= log'.revoked
  }

  ghost predicate Grows(log: Log, log': Log) {
    && TokensGrow(log, log')
    && ConsentGrows(log.consent, log'.consent)
  }

  /** Tokens are issued to an exchange or a rotation, from the keys it drew. */
  lemma IssuesWhatWasDrawn(g: Grants, e: Event, now: int)
    ensures
      var r := Step(g, e, now).1;
      r.TokensIssued? ==> (e.Rotate? || (e.Exchange? && e.drawn.Some?)) && e.pair == Some(r.pair)
  {
    hide Cleanup, RevokeFamily, ExchangedGrants, RotatedGrants;
  }

  /** Tickets and codes are the keys that were drawn for them. */
  lemma AnswersWhatWasDrawn(g: Grants, e: Event, now: int)
    ensures
      var r := Step(g, e, now).1;
      && (r.TicketShown? ==> e.BeginApproval? && e.drawn == Some(r.ticket))
      && (r.CodeGranted? ==> e.Approve? && e.drawn == Some(r.code))
  {
    hide Cleanup, RevokeFamily, ExchangedGrants, RotatedGrants;
  }

  /** A code is exchanged only the first time. */
  lemma ExchangesNewCodes(w: World, e: Event, now: int)
    requires Inv(w.grants, w.log, w.clock) && now >= w.clock && e.Exchange?
    ensures Step(w.grants, e, now).1.TokensIssued? ==> e.code !in w.log.exchanged
  {
    hide Inv, Cleanup, RevokeFamily, ExchangedGrants;
    CleanupKeepsInv(w.grants, w.log, w.clock, now);
    SpentIsExchanged(Cleanup(w.grants, now), w.log, now, e.code);
  }

  /** A refresh token is rotated only the first time. */
  lemma RotatesNewTokens(w: World, e: Event, now: int)
    requires Inv(w.grants, w.log, w.clock) && now >= w.clock && e.Rotate?
    ensures Step(w.grants, e, now).1.TokensIssued? ==> e.token !in w.log.rotated && e.token in w.log.owner
  {
    hide Inv, Cleanup, RevokeFamily, RotatedGrants;
    CleanupKeepsInv(w.grants, w.log, w.clock, now);
    UsedIsRotated(Cleanup(w.grants, now), w.log, now, e.token);
  }

  lemma UsedIsRotated(g: Grants, log: Log, now: int, token: Key)
    requires Inv(g, log, now)
    ensures token in g.refresh ==>
      && token in log.owner && log.owner[token] == g.refresh[token].family
      && (g.refresh[token].used <==> token in log.rotated)
  {}

  lemma DrawnKeys(w: World)
    requires Inv(w.grants, w.log, w.clock)
    ensures w.log.granted.Keys <= w.log.drawn && w.log.owner.Keys <= w.log.drawn
    ensures w.log.consent.asked.Keys <= w.log.drawn && w.log.consent.approved.Keys <= w.log.drawn
  {}

  lemma FreshKeys(w: World, e: Event, now: int)
    requires Inv(w.grants, w.log, w.clock) && Possible(w, e, now)
    ensures e.Exchange? && e.drawn.Some? ==> e.drawn.value !in w.log.granted
    ensures (e.Exchange? || e.Rotate?) && e.pair.Some? ==> e.pair.value.refresh !in w.log.owner
    ensures e.BeginApproval? && e.drawn.Some? ==> e.drawn.value !in w.log.consent.asked
    ensures e.Approve? && e.drawn.Some? ==> e.drawn.value !in w.log.consent.approved
  {
    assert (e.BeginApproval? || e.Approve?) && e.drawn.Some? ==> e.drawn.value in Draws(e);
    DrawnKeys(w);
    assert e.Exchange? && e.drawn.Some? ==> e.drawn.value in Draws(e);
    assert (e.Exchange? || e.Rotate?) && e.pair.Some? ==> e.pair.value.refresh in Draws(e);
  }

  lemma ConsentStepGrows(w: World, e: Event, now: int)
    requires Inv(w.grants, w.log, w.clock) && Possible(w, e, now)
    ensures ConsentGrows(w.log.consent, Next(w, e, now).log.consent)
  {
    hide Inv, Step, Possible, Draws, Named, Consents;
    AnswersWhatWasDrawn(w.grants, e, now);
    FreshKeys(w, e, now);
  }

  lemma ExchangeGrows(log: Log, e: Event, r: Response, now: int)
    requires e.Exchange?
    requires r.TokensIssued? ==> e.drawn.Some? && e.drawn.value !in log.granted && e.code !in log.exchanged
    requires r.TokensIssued? ==> r.pair.refresh !in log.owner
    ensures TokensGrow(log, LogEvent(log, e, r, now))
  {}

  lemma OthersGrow(log: Log, e: Event, r: Response, now: int)
    requires !e.Exchange? && (r.TokensIssued? && e.Rotate? ==> r.pair.refresh !in log.owner)
    ensures TokensGrow(log, LogEvent(log, e, r, now))
  {
    hide Named, Consents;
  }

  lemma StepGrows(w: World, e: Event, now: int)
    requires Inv(w.grants, w.log, w.clock) && Possible(w, e, now)
    ensures Grows(w.log, Next(w, e, now).log)
  {
    hide Inv, Step, Possible, Draws, LogEvent, ConsentGrows;
    ConsentStepGrows(w, e, now);
    IssuesWhatWasDrawn(w.grants, e, now);
    FreshKeys(w, e, now);
    var r := Step(w.grants, e, now).1;
    if e.Exchange? {
      ClockForward(w, e, now);
      ExchangesNewCodes(w, e, now);
      ExchangeGrows(w.log, e, r, now);
    } else {
      OthersGrow(w.log, e, r, now);
    }
  }

  lemma ClockForward(w: World, e: Event, now: int)
    requires Possible(w, e, now)
    ensures now >= w.clock
  {}

  lemma {:induction false} RunGrows(calls: seq<Call>, ws: seq<World>, i: nat, j: nat)
    requires IsRun(calls, ws) && i <= j <= |calls|
    ensures Grows(ws[i].log, ws[j].log)
    decreases j
  {
    hide Inv, Step, LogEvent;
    if i == j {
    } else {
      RunGrows(calls, ws, i, j - 1);
      ReachesRequest(calls, ws, j - 1);
      StepGrows(ws[j - 1], calls[j - 1].event, calls[j - 1].now);
    }
  }

  lemma ReachesRequest(calls: seq<Call>, ws: seq<World>, i: nat)
    requires IsRun(calls, ws) && i < |calls|
    ensures Possible(ws[i], calls[i].event, calls[i].now) && Inv(ws[i].grants, ws[i].log, ws[i].clock)
    ensures ws[i + 1] == Next(ws[i], calls[i].event, calls[i].now) && calls[i].now >= ws[i].clock
  {
    hide Inv, Step, LogEvent;
    EveryRunKeepsInv(calls, ws, i);
    assert Next(ws[i], calls[i].event, calls[i].now) == ws[i + 1];
  }

  // Bearer tokens ----------------------------------------------------------------------------

  predicate Lives(log: Log, family: Key, now: int) {
    family in log.granted && family !in log.revoked && now < log.granted[family].at + 2592000
  }

  /** A grant issued the token less than an hour ago, and its family has neither
      expired nor been revoked since. */
  predicate Accepts(log: Log, token: Key, now: int) {
    token in log.issued && now < log.issued[token].at + 3600 && Lives(log, log.issued[token].family, now)
  }

  lemma LiveFamiliesAreLogged(g: Grants, log: Log, now: int, family: Key)
    requires Inv(Cleanup(g, now), log, now)
    ensures family in Cleanup(g, now).families <==> Lives(log, family, now)
  {}

  lemma LiveAccessIsLogged(g: Grants, log: Log, now: int, token: Key)
    requires Inv(Cleanup(g, now), log, now)
    ensures
      var c := Cleanup(g, now);
      token in c.access <==>
        token in log.issued && log.issued[token].family in c.families && now < log.issued[token].at + ACCESS_LIFETIME
    ensures
      var c := Cleanup(g, now);
      token in c.access ==>
        && now < c.access[token].expires && c.access[token].family in c.families
        && now < c.families[c.access[token].family].expires
  {}

  /** `ValidateBearer` agrees with the log of requests and responses. */
  lemma BearerAgreesWithLog(w: World, token: Key, length: nat, now: int)
    requires Reachable(w) && now >= w.clock
    ensures ValidateStep(w.grants, token, length, now).1
      == Answer(0 < length <= 256 && Accepts(w.log, token, now))
  {
    hide Inv, Cleanup, Reachable;
    ReachableKeepsInv(w);
    CleanupKeepsInv(w.grants, w.log, w.clock, now);
    LiveAccessIsLogged(w.grants, w.log, now, token);
    if token in w.log.issued {
      LiveFamiliesAreLogged(w.grants, w.log, now, w.log.issued[token].family);
    }
  }

  // Cleanups are unobservable ------------------------------------------------------------------

  /** The grants after some requests. */
  function Serve(calls: seq<Call>): Grants {
    if calls == [] then NoGrants
    else Step(Serve(calls[..|calls| - 1]), calls[|calls| - 1].event, calls[|calls| - 1].now).0
  }

  /** The requests but for those that validate a bearer token, which only clean up. */
  function WithoutChecks(calls: seq<Call>): seq<Call> {
    if calls == [] then []
    else
      WithoutChecks(calls[..|calls| - 1])
      + if calls[|calls| - 1].event.Validate? then [] else [calls[|calls| - 1]]
  }

  predicate Ordered(calls: seq<Call>) {
    forall i :: 0 < i < |calls| ==> calls[i - 1].now <= calls[i].now
  }

  /** No later request can tell two such states apart. */
  predicate Alike(g: Grants, h: Grants, now: int) { Cleanup(g, now) == Cleanup(h, now) }

  lemma AlikeLater(g: Grants, h: Grants, earlier: int, now: int)
    requires Alike(g, h, earlier) && earlier <= now
    ensures Alike(g, h, now)
  {
    CleanupAbsorbs(g, earlier, now);
    CleanupAbsorbs(h, earlier, now);
  }

  lemma StepsAlike(g: Grants, h: Grants, e: Event, now: int)
    requires Alike(g, h, now)
    ensures Step(g, e, now).1 == Step(h, e, now).1
    ensures Alike(Step(g, e, now).0, Step(h, e, now).0, now)
  {
    hide Cleanup, RevokeFamily, ExchangedGrants, RotatedGrants;
  }

  lemma CheckIsAlike(g: Grants, e: Event, now: int)
    requires e.Validate?
    ensures Alike(Step(g, e, now).0, g, now)
  {
    CleanupAbsorbs(g, now, now);
  }

  lemma {:induction false} ChecksLeaveAlike(calls: seq<Call>, now: int)
    requires Ordered(calls) && (calls != [] ==> calls[|calls| - 1].now <= now)
    ensures Alike(Serve(calls), Serve(WithoutChecks(calls)), now)
  {
    hide Cleanup, Step;
    if calls == [] {
    } else {
      var rest := calls[..|calls| - 1];
      var last := calls[|calls| - 1];
      var kept := WithoutChecks(rest);
      ChecksLeaveAlike(rest, last.now);
      if last.event.Validate? {
        CheckIsAlike(Serve(rest), last.event, last.now);
        assert WithoutChecks(calls) == kept;
      } else {
        StepsAlike(Serve(rest), Serve(kept), last.event, last.now);
        assert (kept + [last])[..|kept|] == kept;
      }
      AlikeLater(Serve(calls), Serve(WithoutChecks(calls)), last.now, now);
    }
  }

  /** Checking bearer tokens, with the cleanup it does, changes no later answer. */
  lemma ChecksAreUnobservable(calls: seq<Call>, e: Event, now: int)
    requires Ordered(calls) && (calls != [] ==> calls[|calls| - 1].now <= now)
    ensures Step(Serve(calls), e, now).1 == Step(Serve(WithoutChecks(calls)), e, now).1
  {
    ChecksLeaveAlike(calls, now);
    StepsAlike(Serve(calls), Serve(WithoutChecks(calls)), e, now);
  }

  /** And neither would a cleanup at any earlier time. */
  lemma EarlierCleanupIsUnobservable(g: Grants, earlier: int, e: Event, now: int)
    requires earlier <= now
    ensures Step(Cleanup(g, earlier), e, now).1 == Step(g, e, now).1
    ensures Alike(Step(Cleanup(g, earlier), e, now).0, Step(g, e, now).0, now)
  {
    CleanupAbsorbs(g, earlier, now);
    StepsAlike(Cleanup(g, earlier), g, e, now);
  }

  // Families -----------------------------------------------------------------------------------

  /** A live family has exactly one unused refresh token; its client and expiry
      are those of the exchange that opened it. */
  lemma FamiliesHaveOneUnusedToken(w: World, family: Key)
    requires Reachable(w) && family in w.grants.families
    ensures exists token ::
      && token in w.grants.refresh && w.grants.refresh[token] == Refresh(family, false)
      && forall other :: other in w.grants.refresh && w.grants.refresh[other] == Refresh(family, false) ==>
           other == token
    ensures
      && family in w.log.granted
      && w.grants.families[family]
        == Family(w.log.granted[family].claim.client, w.log.granted[family].at + REFRESH_LIFETIME)
  {
    ReachableKeepsInv(w);
    var token := w.log.current[family];
    assert w.grants.refresh[token] == Refresh(family, false);
  }

  lemma FamilyIsLogged(g: Grants, log: Log, clock: int, family: Key)
    requires Inv(g, log, clock)
    ensures family in g.families ==>
      && family in log.granted
      && g.families[family] == Family(log.granted[family].claim.client, Expiry(log.granted[family]))
  {}

  // Credentials that work once --------------------------------------------------------------------

  /** The answer to request `i` of a run. */
  function Answered(calls: seq<Call>, ws: seq<World>, i: nat): Response
    requires i < |calls| && |ws| == |calls| + 1
  {
    Step(ws[i].grants, calls[i].event, calls[i].now).1
  }

  lemma SpentIsLogged(w: World, e: Event, now: int)
    requires Inv(w.grants, w.log, w.clock) && now >= w.clock && Step(w.grants, e, now).1.TokensIssued?
    ensures e.Exchange? ==> e.code in Next(w, e, now).log.exchanged
    ensures e.Rotate? ==> e.token in Next(w, e, now).log.rotated
  {
    hide Inv, Step, LogPair;
    IssuesWhatWasDrawn(w.grants, e, now);
    if e.Rotate? {
      RotatesNewTokens(w, e, now);
    }
  }

  /** An authorization code yields tokens at most once (RFC 6749, section 4.1.2). */
  lemma CodesAreExchangedOnce(calls: seq<Call>, ws: seq<World>, i: nat, j: nat)
    requires IsRun(calls, ws) && i < j < |calls|
    requires calls[i].event.Exchange? && calls[j].event.Exchange? && calls[i].event.code == calls[j].event.code
    ensures !(Answered(calls, ws, i).TokensIssued? && Answered(calls, ws, j).TokensIssued?)
  {
    hide Inv, Next, Step, Possible;
    ReachesRequest(calls, ws, i);
    ReachesRequest(calls, ws, j);
    if Answered(calls, ws, i).TokensIssued? {
      SpentIsLogged(ws[i], calls[i].event, calls[i].now);
      RunGrows(calls, ws, i + 1, j);
      ExchangesNewCodes(ws[j], calls[j].event, calls[j].now);
    }
  }

  /** So does a refresh token (RFC 6749, section 10.4). */
  lemma RefreshTokensRotateOnce(calls: seq<Call>, ws: seq<World>, i: nat, j: nat)
    requires IsRun(calls, ws) && i < j < |calls|
    requires calls[i].event.Rotate? && calls[j].event.Rotate? && calls[i].event.token == calls[j].event.token
    ensures !(Answered(calls, ws, i).TokensIssued? && Answered(calls, ws, j).TokensIssued?)
  {
    hide Inv, Next, Step, Possible;
    ReachesRequest(calls, ws, i);
    ReachesRequest(calls, ws, j);
    if Answered(calls, ws, i).TokensIssued? {
      SpentIsLogged(ws[i], calls[i].event, calls[i].now);
      RunGrows(calls, ws, i + 1, j);
      RotatesNewTokens(ws[j], calls[j].event, calls[j].now);
    }
  }

  // Replays ----------------------------------------------------------------------------------------

  /** A code is reported used exactly if it was exchanged before, was granted
      less than five minutes ago, and is presented with the bindings and the proof
      of what was approved. */
  lemma CodeReplayIsDetectedExactly(w: World, e: Event, now: int)
    requires Reachable(w) && now >= w.clock && e.Exchange?
    ensures
      Step(w.grants, e, now).1.AlreadyUsed? <==>
        && e.code in w.log.exchanged && e.code in w.log.consent.approved
        && now < w.log.consent.approved[e.code].at + 300
        && var request := w.log.consent.approved[e.code].request;
           && e.claim.client == request.client && e.claim.redirect == request.redirect
           && e.claim.resource == request.resource && e.claim.proof == Some(request.challenge)
  {
    hide Inv, RevokeFamily, ExchangedGrants, Cleanup, Reachable;
    ReachableKeepsInv(w);
    CleanupKeepsInv(w.grants, w.log, w.clock, now);
    SpentIsExchanged(Cleanup(w.grants, now), w.log, now, e.code);
    OnlyLiveCodes(w.grants, now, e.code);
  }

  lemma OnlyLiveCodes(g: Grants, now: int, code: Key)
    ensures code in Cleanup(g, now).codes ==> now < Cleanup(g, now).codes[code].expires
  {}

  /** A refresh token is reported used exactly if it was rotated before, its
      family lives, and the family's client presents it. */
  lemma RefreshReplayIsDetectedExactly(w: World, e: Event, now: int)
    requires Reachable(w) && now >= w.clock && e.Rotate?
    ensures
      Step(w.grants, e, now).1.AlreadyUsed? <==>
        && e.token in w.log.rotated && e.token in w.log.owner
        && Lives(w.log, w.log.owner[e.token], now)
        && w.log.granted[w.log.owner[e.token]].claim.client == e.client
  {
    hide Cleanup, Inv, RevokeFamily, RotatedGrants, Reachable;
    ReachableKeepsInv(w);
    CleanupKeepsInv(w.grants, w.log, w.clock, now);
    TokensOfLiveFamilies(w.grants, w.log, now, e.token);
    if e.token in w.log.owner {
      LiveFamiliesAreLogged(w.grants, w.log, now, w.log.owner[e.token]);
    }
  }

  lemma TokensOfLiveFamilies(g: Grants, log: Log, now: int, token: Key)
    requires Inv(Cleanup(g, now), log, now)
    ensures
      var c := Cleanup(g, now);
      && (token in c.refresh <==> token in log.owner && log.owner[token] in c.families)
      && (token in c.refresh ==>
            && c.refresh[token].family == log.owner[token]
            && (c.refresh[token].used <==> token in log.rotated)
            && log.owner[token] in log.granted
            && c.families[log.owner[token]]
                 == Family(log.granted[log.owner[token]].claim.client, Expiry(log.granted[log.owner[token]]))
            && now < c.families[log.owner[token]].expires)
  {}

  /** The family that the replayed credential belongs to. */
  function ReplayedFamily(log: Log, e: Event): Option<Key> {
    if e.Exchange? && e.code in log.exchanged then Some(log.exchanged[e.code])
    else if e.Rotate? && e.token in log.owner then Some(log.owner[e.token])
    else None
  }

  /** Nothing is left of the family. */
  ghost predicate Gone(g: Grants, family: Key) {
    && family !in g.families
    && (forall t :: t in g.access ==> g.access[t].family != family)
    && (forall t :: t in g.refresh ==> g.refresh[t].family != family)
  }

  lemma RevokedIsGone(g: Grants, log: Log, clock: int, family: Key)
    requires Inv(g, log, clock) && family in log.revoked
    ensures Gone(g, family)
  {}

  lemma ReplayIsLogged(w: World, e: Event, now: int)
    requires Reachable(w) && now >= w.clock && Step(w.grants, e, now).1.AlreadyUsed?
    ensures ReplayedFamily(w.log, e).Some?
    ensures ReplayedFamily(w.log, e).value in Next(w, e, now).log.revoked
  {
    if e.Exchange? {
      CodeReplayIsDetectedExactly(w, e, now);
    } else if e.Rotate? {
      RefreshReplayIsDetectedExactly(w, e, now);
    }
  }

  lemma RunReaches(calls: seq<Call>, ws: seq<World>, i: nat)
    requires IsRun(calls, ws) && i <= |calls|
    ensures Reachable(ws[i])
  {
    hide Next, Possible;
    forall k | 0 <= k < i
      ensures Possible(ws[k], calls[k].event, calls[k].now) && Next(ws[k], calls[k].event, calls[k].now) == ws[k + 1]
    {
      assert Next(ws[k], calls[k].event, calls[k].now) == ws[k + 1];
    }
    assert IsRun(calls[..i], ws[..i + 1]) && ws[..i + 1][|calls[..i]|] == ws[i];
  }

  /** A replay removes every token of its family, for good. */
  lemma ReplaysEndTheFamily(calls: seq<Call>, ws: seq<World>, i: nat, j: nat)
    requires IsRun(calls, ws) && i < j <= |calls| && Answered(calls, ws, i).AlreadyUsed?
    ensures
      var family := ReplayedFamily(ws[i].log, calls[i].event);
      family.Some? && Gone(ws[j].grants, family.value)
  {
    hide Inv, Next, Step, Possible, ReplayedFamily, Gone;
    RunReaches(calls, ws, i);
    ReachesRequest(calls, ws, i);
    ReplayIsLogged(ws[i], calls[i].event, calls[i].now);
    RunGrows(calls, ws, i + 1, j);
    EveryRunKeepsInv(calls, ws, j);
    RevokedIsGone(ws[j].grants, ws[j].log, ws[j].clock, ReplayedFamily(ws[i].log, calls[i].event).value);
  }

  // Answers --------------------------------------------------------------------------------------------

  /** The tickets that still wait for an answer. */
  function OpenTickets(c: Consent, now: int): set<Key> {
    set t | t in c.asked && t !in c.answered && now < c.asked[t].at + 600
  }

  function UnexpiredCodes(c: Consent, now: int): set<Key> {
    set k | k in c.approved && now < c.approved[k].at + 300
  }

  function LivingFamilies(log: Log, now: int): set<Key> {
    set f | f in log.granted && Lives(log, f, now)
  }

  function LivingTokens(log: Log, now: int): set<Key> {
    set r | r in log.owner && Lives(log, log.owner[r], now)
  }

  /** The code was granted less than five minutes ago and is presented with the
      bindings and the proof of what was approved (RFC 6749, section 4.1.3; RFC
      7636, section 4.6). */
  predicate MayExchange(c: Consent, code: Key, claim: Claim, now: int) {
    && code in c.approved && now < c.approved[code].at + 300
    && var request := c.approved[code].request;
       && claim.client == request.client && claim.redirect == request.redirect
       && claim.resource == request.resource && claim.proof == Some(request.challenge)
  }

  /** The family of the refresh token lives, and its own client presents the token
      (RFC 6749, section 10.4). */
  predicate MayRotate(log: Log, token: Key, client: ClientId, now: int) {
    && token in log.owner && Lives(log, log.owner[token], now)
    && log.granted[log.owner[token]].claim.client == client
  }

  /** What the requests and responses so far determine of the next response. */
  function LoggedAnswer(log: Log, e: Event, now: int): Response {
    match e
    case BeginApproval(_, _, drawn) =>
      if drawn.None? then ServerError
      else if |OpenTickets(log.consent, now)| >= 2048 then Unavailable
      else TicketShown(drawn.value)
    case Deny(ticket, cookie) =>
      if Consents(log.consent, ticket, cookie, true, now) then AccessDenied else InvalidRequest
    case Approve(ticket, cookie, owner, drawn) =>
      if !Consents(log.consent, ticket, cookie, true, now) then InvalidRequest
      else if !owner then WrongOwner
      else if |UnexpiredCodes(log.consent, now)| >= 2048 then Unavailable
      else if drawn.None? then ServerError
      else CodeGranted(drawn.value)
    case Exchange(code, claim, drawn, pair) =>
      if !MayExchange(log.consent, code, claim, now) then InvalidGrant
      else if code in log.exchanged then AlreadyUsed
      else if |LivingFamilies(log, now)| >= 4096 || |LivingTokens(log, now)| >= 16384
      then Unavailable
      else if drawn.None? || pair.None? then ServerError
      else TokensIssued(pair.value)
    case Rotate(token, client, pair) =>
      if !MayRotate(log, token, client, now) then InvalidGrant
      else if token in log.rotated then AlreadyUsed
      else if |LivingTokens(log, now)| >= 16384 then Unavailable
      else if pair.None? then ServerError
      else TokensIssued(pair.value)
    case Revoke(_, _) => Revoked
    case Validate(token, length) => Answer(0 < length <= 256 && Accepts(log, token, now))
  }

  lemma TicketsLeft(g: Grants, log: Log, now: int)
    requires Inv(Cleanup(g, now), log, now)
    ensures Cleanup(g, now).tickets.Keys == OpenTickets(log.consent, now)
    ensures Cleanup(g, now).codes.Keys == UnexpiredCodes(log.consent, now)
  {
    hide FamiliesOk, AccessOk, RefreshOk, ConsentOk, ApprovedBefore, GrantsOk, PairsOk, DrawnOk, Bounded, Consents;
    var c := Cleanup(g, now);
    assert forall t :: t in c.tickets <==> t in OpenTickets(log.consent, now);
    assert forall k :: k in c.codes <==> k in UnexpiredCodes(log.consent, now);
  }

  lemma FamiliesLeft(g: Grants, log: Log, now: int)
    requires Inv(Cleanup(g, now), log, now)
    ensures Cleanup(g, now).families.Keys == LivingFamilies(log, now)
    ensures Cleanup(g, now).refresh.Keys == LivingTokens(log, now)
  {
    hide Inv, Cleanup, Lives;
    forall f
      ensures f in Cleanup(g, now).families <==> Lives(log, f, now)
      ensures Lives(log, f, now) ==> f in log.granted
    {
      LiveFamiliesAreLogged(g, log, now, f);
      LivesIsGranted(log, f, now);
    }
    assert forall f :: f in Cleanup(g, now).families <==> f in LivingFamilies(log, now);
    forall r
      ensures r in Cleanup(g, now).refresh <==> r in log.owner && log.owner[r] in Cleanup(g, now).families
    {
      TokensOfLiveFamilies(g, log, now, r);
    }
    assert forall r :: r in Cleanup(g, now).refresh <==> r in LivingTokens(log, now);
  }

  lemma LivesIsGranted(log: Log, f: Key, now: int)
    ensures Lives(log, f, now) ==> f in log.granted
  {}

  lemma ConsentAnswers(g: Grants, log: Log, e: Event, now: int)
    requires Inv(Cleanup(g, now), log, now) && (e.BeginApproval? || e.Deny? || e.Approve?)
    ensures Step(g, e, now).1 == LoggedAnswer(log, e, now)
  {
    hide Inv, Cleanup, OpenTickets, UnexpiredCodes;
    TicketsLeft(g, log, now);
    if !e.BeginApproval? {
      TicketsAgree(Cleanup(g, now), log, now, e.ticket, e.cookie);
    }
  }

  lemma ExchangeAnswers(g: Grants, log: Log, e: Event, now: int)
    requires Inv(Cleanup(g, now), log, now) && e.Exchange?
    ensures Step(g, e, now).1 == LoggedAnswer(log, e, now)
  {
    hide Inv, Cleanup, LivingFamilies, LivingTokens, RevokeFamily, ExchangedGrants;
    FamiliesLeft(g, log, now);
    SpentIsExchanged(Cleanup(g, now), log, now, e.code);
    OnlyLiveCodes(g, now, e.code);
  }

  lemma RotateAnswers(g: Grants, log: Log, e: Event, now: int)
    requires Inv(Cleanup(g, now), log, now) && e.Rotate?
    ensures Step(g, e, now).1 == LoggedAnswer(log, e, now)
  {
    hide Inv, Cleanup, LivingFamilies, LivingTokens, RevokeFamily, RotatedGrants;
    FamiliesLeft(g, log, now);
    TokensOfLiveFamilies(g, log, now, e.token);
    if e.token in log.owner {
      LiveFamiliesAreLogged(g, log, now, log.owner[e.token]);
    }
  }

  /** Every answer of the server is the one that the requests and responses before
      it determine: the lazily swept maps are no more than a memory of those. */
  lemma AnswersAgreeWithLog(w: World, e: Event, now: int)
    requires Reachable(w) && now >= w.clock
    ensures Step(w.grants, e, now).1 == LoggedAnswer(w.log, e, now)
  {
    hide Inv, Cleanup, Reachable, ValidateStep, ExchangeStep, RotateStep, MayExchange, MayRotate, Accepts, Consents;
    ReachableKeepsInv(w);
    CleanupKeepsInv(w.grants, w.log, w.clock, now);
    match e
    case BeginApproval(_, _, _) => ConsentAnswers(w.grants, w.log, e, now);
    case Deny(_, _) => ConsentAnswers(w.grants, w.log, e, now);
    case Approve(_, _, _, _) => ConsentAnswers(w.grants, w.log, e, now);
    case Exchange(_, _, _, _) => ExchangeAnswers(w.grants, w.log, e, now);
    case Rotate(_, _, _) => RotateAnswers(w.grants, w.log, e, now);
    case Revoke(_, _) =>
    case Validate(token, length) => BearerAgreesWithLog(w, token, length, now);
  }

  // Bounds --------------------------------------------------------------------------------------------

  /** Each access token of `tokens` has a refresh token of its own. */
  lemma {:induction false} PartnersCount(tokens: set<Key>, issued: map<Key, Issued>, partners: set<Key>)
    requires forall a :: a in tokens ==> a in issued && issued[a].partner in partners
    requires forall a, b :: a in tokens && b in tokens && issued[a].partner == issued[b].partner ==> a == b
    ensures |tokens| <= |partners|
  {
    if tokens == {} {
    } else {
      var a := SomeElement(tokens);
      PartnersCount(tokens - {a}, issued, partners - {issued[a].partner});
    }
  }

  function AccessOf(g: Grants, family: Key): set<Key> {
    set t | t in g.access && g.access[t].family == family
  }

  function RefreshOf(g: Grants, family: Key): set<Key> {
    set t | t in g.refresh && g.refresh[t].family == family
  }

  lemma AccessHasPartner(g: Grants, log: Log, clock: int)
    requires Inv(g, log, clock)
    ensures forall a :: a in g.access ==>
      && a in log.issued && log.issued[a].partner in g.refresh
      && g.refresh[log.issued[a].partner].family == g.access[a].family
    ensures forall a, b :: a in g.access && b in g.access && log.issued[a].partner == log.issued[b].partner ==> a == b
  {}

  /** The map of access tokens has no limit of its own; it never holds more than
      the map of refresh tokens, in all or per family. */
  lemma StoreIsBounded(w: World, family: Key)
    requires Reachable(w)
    ensures
      var g := w.grants;
      && |g.access.Keys| <= |g.refresh.Keys| <= REFRESH_LIMIT
      && |AccessOf(g, family)| <= |RefreshOf(g, family)|
      && |g.families.Keys| <= FAMILY_LIMIT
      && |g.tickets.Keys| <= PENDING_LIMIT && |g.codes.Keys| <= PENDING_LIMIT
  {
    hide Inv, Reachable;
    ReachableKeepsInv(w);
    BoundsOf(w.grants, w.log, w.clock);
    AccessHasPartner(w.grants, w.log, w.clock);
    PartnersCount(w.grants.access.Keys, w.log.issued, w.grants.refresh.Keys);
    PartnersCount(AccessOf(w.grants, family), w.log.issued, RefreshOf(w.grants, family));
  }
}

/** Where the tokens of the OAuth server come from: the owner's consent, the
    exchange of the code that it granted, and the rotations since. */
module OAuthConsent {
  import opened Basics
  import opened OAuthGrants
  import opened OAuthSafety
  import opened OAuthTheorems

  // Codes and families -----------------------------------------------------------------------

  /** A ticket yields at most one code. */
  lemma TicketsGrantOneCode(calls: seq<Call>, ws: seq<World>, i: nat, j: nat)
    requires IsRun(calls, ws) && i < j < |calls|
    requires calls[i].event.Approve? && calls[j].event.Approve? && calls[i].event.ticket == calls[j].event.ticket
    ensures !(Answered(calls, ws, i).CodeGranted? && Answered(calls, ws, j).CodeGranted?)
  {
    hide Inv, Next, Step, Possible, Consents;
    ReachesRequest(calls, ws, i);
    ReachesRequest(calls, ws, j);
    RunReaches(calls, ws, i);
    RunReaches(calls, ws, j);
    if Answered(calls, ws, i).CodeGranted? {
      CodesNeedConsent(ws[i], calls[i].event, calls[i].now);
      RunGrows(calls, ws, i + 1, j);
      CodesNeedConsent(ws[j], calls[j].event, calls[j].now);
      AnsweredIsClosed(ws[j].log.consent, calls[j].event, calls[j].now);
    }
  }

  lemma AnsweredIsClosed(c: Consent, e: Event, now: int)
    requires e.Approve? && e.ticket in c.answered
    ensures !Consents(c, e.ticket, e.cookie, e.owner, now)
  {}

  /** A code is granted to the owner's consent only; and a consent fails only
      for want of room or of randomness. */
  lemma CodesNeedConsent(w: World, e: Event, now: int)
    requires Reachable(w) && now >= w.clock && e.Approve?
    ensures
      var r := Step(w.grants, e, now).1;
      && (r.CodeGranted? ==> Consents(w.log.consent, e.ticket, e.cookie, e.owner, now))
      && (Consents(w.log.consent, e.ticket, e.cookie, e.owner, now) ==>
            r.CodeGranted? || r.Unavailable? || r.ServerError?)
    ensures Step(w.grants, e, now).1.CodeGranted? ==> e.ticket in Next(w, e, now).log.consent.answered
  {
    hide Inv, Cleanup, RevokeFamily, ExchangedGrants, RotatedGrants, BeginApprovalStep, DenyStep, ExchangeStep,
         RotateStep, RevokeStep, ValidateStep, LogPair, Reachable;
    ReachableKeepsInv(w);
    CleanupKeepsInv(w.grants, w.log, w.clock, now);
    TicketsAgree(Cleanup(w.grants, now), w.log, now, e.ticket, e.cookie);
  }

  lemma LogsTicket(w: World, e: Event, now: int, ticket: Key)
    requires ticket in Next(w, e, now).log.consent.asked && ticket !in w.log.consent.asked
    ensures e.BeginApproval? && Step(w.grants, e, now).1 == TicketShown(ticket)
    ensures Next(w, e, now).log.consent.asked[ticket] == Asked(e.request, e.cookie, now)
  {
    hide Step, Consents;
    AnswersWhatWasDrawn(w.grants, e, now);
  }

  lemma LogsCode(w: World, e: Event, now: int, code: Key)
    requires code in Next(w, e, now).log.consent.approved && code !in w.log.consent.approved
    ensures e.Approve? && Step(w.grants, e, now).1 == CodeGranted(code)
    ensures Consents(w.log.consent, e.ticket, e.cookie, e.owner, now)
    ensures Next(w, e, now).log.consent.approved[code]
      == Approval(e.ticket, w.log.consent.asked[e.ticket].request, now)
  {
    hide Step;
    AnswersWhatWasDrawn(w.grants, e, now);
  }

  lemma LogsFamily(w: World, e: Event, now: int, family: Key)
    requires family in Next(w, e, now).log.granted && family !in w.log.granted
    ensures e.Exchange? && Step(w.grants, e, now).1.TokensIssued? && e.drawn == Some(family)
    ensures Next(w, e, now).log.granted[family] == Grant(e.code, e.claim, now)
  {
    hide Step, Consents;
    IssuesWhatWasDrawn(w.grants, e, now);
  }

  /** Who asked: the request that showed the ticket. */
  lemma {:induction false} TicketWasShown(calls: seq<Call>, ws: seq<World>, j: nat, ticket: Key) returns (h: nat)
    requires IsRun(calls, ws) && j <= |calls| && ticket in ws[j].log.consent.asked
    ensures h < j && calls[h].event.BeginApproval? && Answered(calls, ws, h) == TicketShown(ticket)
    ensures ws[j].log.consent.asked[ticket] == Asked(calls[h].event.request, calls[h].event.cookie, calls[h].now)
    decreases j
  {
    hide Inv, Next, Step, Possible, Consents;
    assert j > 0;
    ReachesRequest(calls, ws, j - 1);
    if ticket in ws[j - 1].log.consent.asked {
      h := TicketWasShown(calls, ws, j - 1, ticket);
      RunGrows(calls, ws, j - 1, j);
    } else {
      h := j - 1;
      LogsTicket(ws[h], calls[h].event, calls[h].now, ticket);
    }
  }

  /** Who consented: the request that granted the code. */
  lemma {:induction false} CodeWasGranted(calls: seq<Call>, ws: seq<World>, j: nat, code: Key) returns (i: nat)
    requires IsRun(calls, ws) && j <= |calls| && code in ws[j].log.consent.approved
    ensures i < j && calls[i].event.Approve? && Answered(calls, ws, i) == CodeGranted(code)
    ensures
      var e := calls[i].event;
      && Consents(ws[i].log.consent, e.ticket, e.cookie, e.owner, calls[i].now)
      && ws[j].log.consent.approved[code]
           == Approval(e.ticket, ws[i].log.consent.asked[e.ticket].request, calls[i].now)
    decreases j
  {
    hide Inv, Next, Step, Possible, Consents;
    assert j > 0;
    ReachesRequest(calls, ws, j - 1);
    if code in ws[j - 1].log.consent.approved {
      i := CodeWasGranted(calls, ws, j - 1, code);
      RunGrows(calls, ws, j - 1, j);
    } else {
      i := j - 1;
      LogsCode(ws[i], calls[i].event, calls[i].now, code);
    }
  }

  /** Who opened the family: the exchange that drew it. */
  lemma {:induction false} FamilyWasOpened(calls: seq<Call>, ws: seq<World>, j: nat, family: Key) returns (k: nat)
    requires IsRun(calls, ws) && j <= |calls| && family in ws[j].log.granted
    ensures k < j && calls[k].event.Exchange? && Answered(calls, ws, k).TokensIssued?
    ensures calls[k].event.drawn == Some(family)
    decreases j
  {
    hide Inv, Next, Step, Possible, Consents;
    assert j > 0;
    ReachesRequest(calls, ws, j - 1);
    if family in ws[j - 1].log.granted {
      k := FamilyWasOpened(calls, ws, j - 1, family);
    } else {
      k := j - 1;
      LogsFamily(ws[k], calls[k].event, calls[k].now, family);
    }
  }

  /** An exchange yields tokens only for a code that was granted less than five
      minutes ago, and on proof of what was approved. */
  lemma ExchangesNeedApproval(w: World, e: Event, now: int)
    requires Inv(w.grants, w.log, w.clock) && now >= w.clock && e.Exchange?
    requires Step(w.grants, e, now).1.TokensIssued?
    ensures e.code in w.log.consent.approved
    ensures now < w.log.consent.approved[e.code].at + CODE_LIFETIME
    ensures Proves(w.log.consent.approved[e.code].request, e.claim)
  {
    hide Inv, Cleanup, RevokeFamily, ExchangedGrants;
    CleanupKeepsInv(w.grants, w.log, w.clock, now);
    SpentIsExchanged(Cleanup(w.grants, now), w.log, now, e.code);
  }

  /** The three requests behind a family: a client asked; in the same browser,
      within ten minutes, the owner consented with the owner key; and within five
      minutes the client that asked, with its redirect, resource and proof,
      exchanged the code. */
  ghost predicate ConsentChain(calls: seq<Call>, ws: seq<World>, h: nat, i: nat, k: nat, family: Key)
    requires |ws| == |calls| + 1
  {
    && h < i < k < |calls|
    && calls[h].event.BeginApproval? && calls[i].event.Approve? && calls[k].event.Exchange?
    && var ask, yes, use := calls[h], calls[i], calls[k];
    && Answered(calls, ws, h) == TicketShown(yes.event.ticket)
    && yes.event.owner && yes.event.cookie == ask.event.cookie && yes.now < ask.now + TICKET_LIFETIME
    && Answered(calls, ws, i) == CodeGranted(use.event.code)
    && use.now < yes.now + CODE_LIFETIME
    && use.event.claim.client == ask.event.request.client && use.event.claim.redirect == ask.event.request.redirect
    && use.event.claim.resource == ask.event.request.resource
    && use.event.claim.proof == Some(ask.event.request.challenge)
    && use.event.drawn == Some(family) && Answered(calls, ws, k).TokensIssued?
  }

  /** Behind an exchange that yields tokens there is consent. */
  lemma ExchangeHasConsent(calls: seq<Call>, ws: seq<World>, k: nat) returns (h: nat, i: nat)
    requires IsRun(calls, ws) && k < |calls| && calls[k].event.Exchange? && Answered(calls, ws, k).TokensIssued?
    ensures calls[k].event.drawn.Some? && ConsentChain(calls, ws, h, i, k, calls[k].event.drawn.value)
  {
    hide Inv, Next, Step, Possible;
    ReachesRequest(calls, ws, k);
    IssuesWhatWasDrawn(ws[k].grants, calls[k].event, calls[k].now);
    ExchangesNeedApproval(ws[k], calls[k].event, calls[k].now);
    i := CodeWasGranted(calls, ws, k, calls[k].event.code);
    h := TicketWasShown(calls, ws, i, calls[i].event.ticket);
  }

  /** Every family was consented to. */
  lemma FamiliesWereConsentedTo(calls: seq<Call>, ws: seq<World>, j: nat, family: Key)
    requires IsRun(calls, ws) && j <= |calls| && family in ws[j].log.granted
    ensures exists h: nat, i: nat, k: nat :: k < j && ConsentChain(calls, ws, h, i, k, family)
  {
    hide Inv, Next, Step, Possible, ConsentChain;
    var k := FamilyWasOpened(calls, ws, j, family);
    var h, i := ExchangeHasConsent(calls, ws, k);
  }

  // Tokens -------------------------------------------------------------------------------------

  /** An issue of tokens: to an exchange for the family it drew, to a rotation for
      the family of the token that it presents. */
  ghost predicate IssuesFor(w: World, e: Event, family: Key) {
    if e.Exchange? then e.drawn == Some(family)
    else e.Rotate? && e.token in w.log.owner && w.log.owner[e.token] == family
  }

  lemma IssueIsLogged(w: World, e: Event, now: int)
    requires Inv(w.grants, w.log, w.clock) && now >= w.clock && Step(w.grants, e, now).1.TokensIssued?
    ensures
      var pair := Step(w.grants, e, now).1.pair;
      var log := Next(w, e, now).log;
      && pair.refresh in log.owner && IssuesFor(w, e, log.owner[pair.refresh])
      && pair.access in log.issued
      && log.issued[pair.access] == Issued(log.owner[pair.refresh], now, pair.refresh)
    ensures e.Exchange? ==>
      && e.drawn.Some? && e.drawn.value in Next(w, e, now).log.granted
      && Next(w, e, now).log.granted[e.drawn.value] == Grant(e.code, e.claim, now)
  {
    hide Inv, Step;
    IssuesWhatWasDrawn(w.grants, e, now);
    if e.Rotate? {
      RotatesNewTokens(w, e, now);
    }
  }

  /** Tokens enter the log when they are issued. */
  lemma LogsTokens(w: World, e: Event, now: int)
    ensures
      var r := Step(w.grants, e, now).1;
      var log := Next(w, e, now).log;
      && (forall t :: t in log.owner && t !in w.log.owner ==> r.TokensIssued? && t == r.pair.refresh)
      && (forall t :: t in log.issued && (t in w.log.issued ==> log.issued[t] != w.log.issued[t]) ==>
            r.TokensIssued? && t == r.pair.access)
  {
    hide Step, Named, Consents;
  }

  /** Who got the refresh token. */
  lemma {:induction false} RefreshWasIssued(calls: seq<Call>, ws: seq<World>, j: nat, token: Key) returns (k: nat)
    requires IsRun(calls, ws) && j <= |calls| && token in ws[j].log.owner
    ensures k < j && Answered(calls, ws, k).TokensIssued? && Answered(calls, ws, k).pair.refresh == token
    decreases j
  {
    hide Inv, Next, Step, Possible;
    assert j > 0 by { EmptyAtFirst(calls, ws); }
    ReachesRequest(calls, ws, j - 1);
    if token in ws[j - 1].log.owner {
      k := RefreshWasIssued(calls, ws, j - 1, token);
    } else {
      k := j - 1;
      LogsTokens(ws[k], calls[k].event, calls[k].now);
    }
  }

  lemma EmptyAtFirst(calls: seq<Call>, ws: seq<World>)
    requires IsRun(calls, ws)
    ensures ws[0].log.owner == map[] && ws[0].log.issued == map[]
  {}

  /** Who got the access token. */
  lemma {:induction false} AccessWasIssued(calls: seq<Call>, ws: seq<World>, j: nat, token: Key) returns (k: nat)
    requires IsRun(calls, ws) && j <= |calls| && token in ws[j].log.issued
    ensures k < j && Answered(calls, ws, k).TokensIssued? && Answered(calls, ws, k).pair.access == token
    ensures token in ws[k + 1].log.issued && ws[k + 1].log.issued[token] == ws[j].log.issued[token]
    decreases j
  {
    hide Inv, Next, Step, Possible;
    assert j > 0 by { EmptyAtFirst(calls, ws); }
    ReachesRequest(calls, ws, j - 1);
    if token in ws[j - 1].log.issued && ws[j - 1].log.issued[token] == ws[j].log.issued[token] {
      k := AccessWasIssued(calls, ws, j - 1, token);
    } else {
      k := j - 1;
      LogsTokens(ws[k], calls[k].event, calls[k].now);
    }
  }

  /** Requests that were all answered with tokens, where each but the first
      presents, for the client, the refresh token that the one before was given. */
  ghost predicate Succession(calls: seq<Call>, ws: seq<World>, ks: seq<nat>, client: ClientId)
    requires |ws| == |calls| + 1
  {
    && (forall n :: 0 <= n < |ks| ==> ks[n] < |calls| && Answered(calls, ws, ks[n]).TokensIssued?)
    && (forall n :: 0 < n < |ks| ==>
          && ks[n - 1] < ks[n] && calls[ks[n]].event.Rotate? && calls[ks[n]].event.client == client
          && calls[ks[n]].event.token == Answered(calls, ws, ks[n - 1]).pair.refresh)
  }

  lemma SuccessionExtends(calls: seq<Call>, ws: seq<World>, ks: seq<nat>, client: ClientId, k: nat)
    requires |ws| == |calls| + 1 && Succession(calls, ws, ks, client) && ks != []
    requires ks[|ks| - 1] < k < |calls| && Answered(calls, ws, k).TokensIssued?
    requires calls[k].event.Rotate? && calls[k].event.client == client
    requires calls[k].event.token == Answered(calls, ws, ks[|ks| - 1]).pair.refresh
    ensures Succession(calls, ws, ks + [k], client)
  {
    hide Answered;
  }

  /** Only the client that a family was granted to gets tokens for its refresh tokens. */
  lemma RotatesForItsClient(w: World, e: Event, now: int)
    requires Reachable(w) && now >= w.clock && e.Rotate? && Step(w.grants, e, now).1.TokensIssued?
    ensures e.token in w.log.owner && w.log.owner[e.token] in w.log.granted
    ensures w.log.granted[w.log.owner[e.token]].claim.client == e.client
  {
    hide Step, Reachable;
    AnswersAgreeWithLog(w, e, now);
  }

  /** Nothing extends a family or moves it to another client, and no other client
      gets tokens for its refresh tokens. */
  lemma FamiliesAreFixed(calls: seq<Call>, ws: seq<World>, i: nat, j: nat, family: Key)
    requires IsRun(calls, ws) && i <= j <= |calls| && family in ws[i].grants.families
    ensures family in ws[j].grants.families ==> ws[j].grants.families[family] == ws[i].grants.families[family]
    ensures j < |calls| && calls[j].event.Rotate? && Answered(calls, ws, j).TokensIssued?
            && IssuesFor(ws[j], calls[j].event, family) ==>
      calls[j].event.client == ws[i].grants.families[family].client
  {
    hide Inv, Next, Step, Possible;
    EveryRunKeepsInv(calls, ws, i);
    EveryRunKeepsInv(calls, ws, j);
    FamilyIsLogged(ws[i].grants, ws[i].log, ws[i].clock, family);
    FamilyIsLogged(ws[j].grants, ws[j].log, ws[j].clock, family);
    RunGrows(calls, ws, i, j);
    if j < |calls| && calls[j].event.Rotate? && Answered(calls, ws, j).TokensIssued? {
      ReachesRequest(calls, ws, j);
      RunReaches(calls, ws, j);
      RotatesForItsClient(ws[j], calls[j].event, calls[j].now);
    }
  }

  /** The exchange and the rotations that led to an issue of tokens. */
  lemma {:induction false} IssueHasSuccession(calls: seq<Call>, ws: seq<World>, k: nat) returns (ks: seq<nat>)
    requires IsRun(calls, ws) && k < |calls| && Answered(calls, ws, k).TokensIssued?
    ensures ks != [] && ks[|ks| - 1] == k && ks[0] <= k
    ensures calls[ks[0]].event.Exchange? && Answered(calls, ws, ks[0]).TokensIssued?
    ensures Succession(calls, ws, ks, calls[ks[0]].event.claim.client)
    ensures
      var log := ws[k + 1].log;
      var refresh := Answered(calls, ws, k).pair.refresh;
      && refresh in log.owner && log.owner[refresh] in log.granted
      && calls[ks[0]].event.drawn == Some(log.owner[refresh])
      && log.granted[log.owner[refresh]].claim == calls[ks[0]].event.claim
    decreases k
  {
    hide Inv, Next, Step, Possible, Succession;
    var e, now := calls[k].event, calls[k].now;
    ReachesRequest(calls, ws, k);
    IssueIsLogged(ws[k], e, now);
    if e.Exchange? {
      ks := [k];
      OneIsSuccession(calls, ws, k, e.claim.client);
    } else {
      RunReaches(calls, ws, k);
      RotatesForItsClient(ws[k], e, now);
      var before := RefreshWasIssued(calls, ws, k, e.token);
      ks := IssueHasSuccession(calls, ws, before);
      RunGrows(calls, ws, before + 1, k);
      RunGrows(calls, ws, k, k + 1);
      SuccessionExtends(calls, ws, ks, calls[ks[0]].event.claim.client, k);
      ks := ks + [k];
    }
  }

  lemma OneIsSuccession(calls: seq<Call>, ws: seq<World>, k: nat, client: ClientId)
    requires |ws| == |calls| + 1 && k < |calls| && Answered(calls, ws, k).TokensIssued?
    ensures Succession(calls, ws, [k], client)
  {
    assert forall n :: 0 <= n < |[k]| ==> [k][n] == k;
  }

  /** All the requests behind a bearer token: the client asked, the owner consented,
      the client exchanged the code, and the client alone rotated what it was given,
      less than an hour ago for the last time, when it got this token. */
  ghost predicate TokenChain(calls: seq<Call>, ws: seq<World>, h: nat, i: nat, ks: seq<nat>,
                             family: Key, token: Key, now: int)
    requires |ws| == |calls| + 1
  {
    && ks != [] && ConsentChain(calls, ws, h, i, ks[0], family)
    && Succession(calls, ws, ks, calls[h].event.request.client)
    && Answered(calls, ws, ks[|ks| - 1]).pair.access == token
    && now < calls[ks[|ks| - 1]].now + ACCESS_LIFETIME
  }

  /** A bearer token is accepted only if the owner consented to its family and the
      client of that consent alone asked for the token. */
  lemma AcceptedTokensWereConsentedTo(calls: seq<Call>, ws: seq<World>, j: nat, token: Key, length: nat, now: int)
    requires IsRun(calls, ws) && j <= |calls| && now >= ws[j].clock
    requires ValidateStep(ws[j].grants, token, length, now).1 == Answer(true)
    ensures token in ws[j].log.issued
    ensures exists h: nat, i: nat, ks: seq<nat> ::
      TokenChain(calls, ws, h, i, ks, ws[j].log.issued[token].family, token, now)
  {
    hide Inv, Next, Step, ValidateStep, Possible, Succession;
    RunReaches(calls, ws, j);
    BearerAgreesWithLog(ws[j], token, length, now);
    var k := AccessWasIssued(calls, ws, j, token);
    ReachesRequest(calls, ws, k);
    IssueIsLogged(ws[k], calls[k].event, calls[k].now);
    var ks := IssueHasSuccession(calls, ws, k);
    var h, i := ExchangeHasConsent(calls, ws, ks[0]);
    assert TokenChain(calls, ws, h, i, ks, ws[j].log.issued[token].family, token, now);
  }
}

/** What every request to the OAuth server keeps. */
module OAuthSafety {
  import opened Basics
  import opened OAuthGrants

  // Runs and their log ----------------------------------------------------------------

  /** A request for approval that was shown to the owner's browser. */
  datatype Asked = Asked(request: Authorization, cookie: Key, at: int)

  /** The code that the owner granted on a ticket. */
  datatype Approval = Approval(ticket: Key, request: Authorization, at: int)

  /** What the owner was asked, granted, and has answered either way. */
  datatype Consent = Consent(asked: map<Key, Asked>, approved: map<Key, Approval>, answered: set<Key>)

  datatype Grant = Grant(code: Key, claim: Claim, at: int)
  datatype Issued = Issued(family: Key, at: int, partner: Key)

  /** History, told from the requests and their responses alone: the consent; the
      families granted, each with the code and the claim it was granted for; per
      access token its family, the time it was issued and the refresh token issued
      with it; per refresh token its family; per family its last refresh token;
      the codes and refresh tokens that were spent; the families that were
      revoked; every key drawn from the random source. */
  datatype Log = Log(
    consent: Consent,
    granted: map<Key, Grant>,
    issued: map<Key, Issued>,
    owner: map<Key, Key>,
    current: map<Key, Key>,
    exchanged: map<Key, Key>,
    rotated: set<Key>,
    revoked: set<Key>,
    drawn: set<Key>)

  const NoLog := Log(Consent(map[], map[], {}), map[], map[], map[], map[], map[], {}, {}, {})

  function LogPair(log: Log, family: Key, pair: Pair, now: int): Log {
    log.(issued := log.issued[pair.access := Issued(family, now, pair.refresh)],
         owner := log.owner[pair.refresh := family],
         current := log.current[family := pair.refresh])
  }

  /** The family of a token that is revoked at time `now`: refresh tokens stand
      for it as long as it lives, access tokens until they expire. */
  function Named(log: Log, token: Key, now: int): Option<Key> {
    if token in log.owner then Some(log.owner[token])
    else if token in log.issued && now < log.issued[token].at + ACCESS_LIFETIME then Some(log.issued[token].family)
    else None
  }

  /** The owner, with the owner key, says yes to a request shown to this browser
      less than ten minutes ago and not answered yet. */
  predicate Consents(c: Consent, ticket: Key, cookie: Key, owner: bool, now: int) {
    && owner && ticket in c.asked && ticket !in c.answered
    && c.asked[ticket].cookie == cookie && now < c.asked[ticket].at + 600
  }

  function LogEvent(log: Log, e: Event, r: Response, now: int): Log {
    match e
    case BeginApproval(request, cookie, _) =>
      if !r.TicketShown? then log
      else log.(consent := log.consent.(asked := log.consent.asked[r.ticket := Asked(request, cookie, now)]))
    case Deny(ticket, _) =>
      if !r.AccessDenied? then log
      else log.(consent := log.consent.(answered := log.consent.answered + {ticket}))
    case Approve(ticket, cookie, owner, _) =>
      if !r.CodeGranted? || !Consents(log.consent, ticket, cookie, owner, now) then log
      else
        var approval := Approval(ticket, log.consent.asked[ticket].request, now);
        log.(consent := log.consent.(approved := log.consent.approved[r.code := approval],
                                     answered := log.consent.answered + {ticket}))
    case Exchange(code, claim, Some(family), _) =>
      if r.TokensIssued?
      then LogPair(log, family, r.pair, now)
             .(granted := log.granted[family := Grant(code, claim, now)], exchanged := log.exchanged[code := family])
      else if r.AlreadyUsed? && code in log.exchanged then log.(revoked := log.revoked + {log.exchanged[code]})
      else log
    case Exchange(code, _, None, _) =>
      if r.AlreadyUsed? && code in log.exchanged then log.(revoked := log.revoked + {log.exchanged[code]}) else log
    case Rotate(token, _, _) =>
      if token !in log.owner then log
      else if r.TokensIssued?
      then LogPair(log, log.owner[token], r.pair, now).(rotated := log.rotated + {token})
      else if r.AlreadyUsed? then log.(revoked := log.revoked + {log.owner[token]})
      else log
    case Revoke(token, client) =>
      var family := Named(log, token, now);
      if family.Some? && family.value in log.granted && log.granted[family.value].claim.client == client
      then log.(revoked := log.revoked + {family.value})
      else log
    case _ => log
  }

  function AsSet(o: Option<Key>): set<Key> { if o.Some? then {o.value} else {} }

  function PairSet(o: Option<Pair>): set<Key> { if o.Some? then {o.value.access, o.value.refresh} else {} }

  function Draws(e: Event): set<Key> {
    match e
    case BeginApproval(_, _, drawn) => AsSet(drawn)
    case Approve(_, _, _, drawn) => AsSet(drawn)
    case Exchange(_, _, drawn, pair) => AsSet(drawn) + PairSet(pair)
    case Rotate(_, _, pair) => PairSet(pair)
    case _ => {}
  }

  predicate Distinct(e: Event) {
    match e
    case Exchange(_, _, Some(f), Some(p)) => f != p.access && f != p.refresh && p.access != p.refresh
    case Rotate(_, _, Some(p)) => p.access != p.refresh
    case _ => true
  }

  datatype World = World(grants: Grants, log: Log, clock: int)

  const NewWorld := World(NoGrants, NoLog, 0)

  /** The clock does not go back, and keys that are drawn are new. */
  predicate Possible(w: World, e: Event, now: int) {
    now >= w.clock && Draws(e) !! w.log.drawn && Distinct(e)
  }

  function Next(w: World, e: Event, now: int): World {
    var (g, r) := Step(w.grants, e, now);
    World(g, LogEvent(w.log, e, r, now).(drawn := w.log.drawn + Draws(e)), now)
  }

  datatype Call = Call(event: Event, now: int)

  /** The requests of a run and the worlds it passes through. */
  ghost predicate IsRun(calls: seq<Call>, ws: seq<World>) {
    && |ws| == |calls| + 1 && ws[0] == NewWorld
    && forall i {:trigger Next(ws[i], calls[i].event, calls[i].now)} :: 0 <= i < |calls| ==>
         Possible(ws[i], calls[i].event, calls[i].now) && Next(ws[i], calls[i].event, calls[i].now) == ws[i + 1]
  }

  ghost predicate Reachable(w: World) {
    exists calls, ws :: IsRun(calls, ws) && ws[|calls|] == w
  }

  // The invariant -------------------------------------------------------------------------

  function Expiry(o: Grant): int { o.at + REFRESH_LIFETIME }

  /** A family is in the map with its first client and expiry; until it expires
      or is revoked it stays there. */
  ghost predicate FamiliesOk(families: Families, log: Log, clock: int) {
    && (forall f :: f in families ==>
          && f in log.granted && f !in log.revoked
          && families[f] == Family(log.granted[f].claim.client, Expiry(log.granted[f])))
    && (forall f :: f in log.granted && f !in log.revoked && clock < Expiry(log.granted[f]) ==> f in families)
  }

  ghost predicate AccessOk(access: Accesses, families: Families, issued: map<Key, Issued>, clock: int) {
    && (forall a :: a in access ==>
          && a in issued && access[a] == Access(issued[a].family, issued[a].at + ACCESS_LIFETIME)
          && issued[a].family in families)
    && (forall a :: a in issued && issued[a].family in families && clock < issued[a].at + ACCESS_LIFETIME ==>
          a in access)
  }

  /** The refresh tokens of the families are all there; all but the last of each
      family are used. */
  ghost predicate RefreshOk(refresh: Refreshes, families: Families,
                            owner: map<Key, Key>, current: map<Key, Key>, rotated: set<Key>)
  {
    && (forall r :: r in refresh ==> r in owner && refresh[r].family == owner[r] && owner[r] in families)
    && (forall r :: r in owner && owner[r] in families ==> r in refresh)
    && (forall f :: f in families ==> f in current && current[f] in owner && owner[current[f]] == f)
    && (forall r :: r in refresh ==>
          && (refresh[r].used <==> r in rotated)
          && (refresh[r].used <==> r != current[refresh[r].family]))
  }

  /** A ticket is what was asked; until it is answered or expires it stays there. */
  ghost predicate TicketsOk(tickets: Tickets, c: Consent, clock: int) {
    && (forall t :: t in tickets ==>
          && t in c.asked && t !in c.answered
          && tickets[t] == Ticket(c.asked[t].request, c.asked[t].cookie, c.asked[t].at + TICKET_LIFETIME))
    && (forall t :: t in c.asked && t !in c.answered && clock < c.asked[t].at + TICKET_LIFETIME ==> t in tickets)
  }

  /** A code carries what was approved, and the family it was spent on; spent or
      not, it stays there until it expires. */
  ghost predicate CodesOk(codes: Codes, approved: map<Key, Approval>, exchanged: map<Key, Key>, clock: int) {
    && (forall c :: c in codes ==>
          && c in approved
          && codes[c] == Code(approved[c].request, approved[c].at + CODE_LIFETIME,
                              if c in exchanged then Some(exchanged[c]) else None))
    && (forall c :: c in approved && clock < approved[c].at + CODE_LIFETIME ==> c in codes)
  }

  /** A code was granted in time, on one ticket, for what that asked. */
  ghost predicate ConsentOk(c: Consent, drawn: set<Key>) {
    && c.asked.Keys <= drawn && c.approved.Keys <= drawn && c.answered <= c.asked.Keys
    && (forall k :: k in c.approved ==>
          var a := c.approved[k];
          && a.ticket in c.asked && a.ticket in c.answered && a.request == c.asked[a.ticket].request
          && c.asked[a.ticket].at <= a.at < c.asked[a.ticket].at + TICKET_LIFETIME)
    && (forall k, l :: k in c.approved && l in c.approved && c.approved[k].ticket == c.approved[l].ticket ==> k == l)
  }

  ghost predicate ApprovedBefore(c: Consent, clock: int) {
    && (forall t :: t in c.asked ==> c.asked[t].at <= clock)
    && (forall k :: k in c.approved ==> c.approved[k].at <= clock)
  }

  /** A family was granted in time, for one code, on proof of what that carries. */
  ghost predicate GrantOk(f: Key, g: Grant, exchanged: map<Key, Key>, approved: map<Key, Approval>) {
    && g.code in approved && g.code in exchanged && exchanged[g.code] == f
    && Proves(approved[g.code].request, g.claim)
    && approved[g.code].at <= g.at < approved[g.code].at + CODE_LIFETIME
  }

  ghost predicate GrantsOk(granted: map<Key, Grant>, exchanged: map<Key, Key>, approved: map<Key, Approval>) {
    && (forall f :: f in granted ==> GrantOk(f, granted[f], exchanged, approved))
    && (forall c :: c in exchanged ==> exchanged[c] in granted && granted[exchanged[c]].code == c)
  }

  /** Access tokens are issued with a refresh token of their family each. */
  ghost predicate PairsOk(log: Log) {
    && (forall a :: a in log.issued ==>
          log.issued[a].partner in log.owner && log.owner[log.issued[a].partner] == log.issued[a].family)
    && (forall a, b :: a in log.issued && b in log.issued && log.issued[a].partner == log.issued[b].partner ==> a == b)
  }

  ghost predicate DrawnOk(log: Log) {
    && log.granted.Keys <= log.drawn && log.issued.Keys <= log.drawn && log.owner.Keys <= log.drawn
    && log.issued.Keys !! log.owner.Keys
    && (forall r :: r in log.owner ==> log.owner[r] in log.granted)
    && log.rotated <= log.owner.Keys && log.revoked <= log.granted.Keys
  }

  ghost predicate Bounded(g: Grants) {
    && |g.tickets.Keys| <= PENDING_LIMIT && |g.codes.Keys| <= PENDING_LIMIT
    && |g.families.Keys| <= FAMILY_LIMIT && |g.refresh.Keys| <= REFRESH_LIMIT
  }

  ghost predicate Inv(g: Grants, log: Log, clock: int) {
    && FamiliesOk(g.families, log, clock)
    && AccessOk(g.access, g.families, log.issued, clock)
    && RefreshOk(g.refresh, g.families, log.owner, log.current, log.rotated)
    && TicketsOk(g.tickets, log.consent, clock)
    && CodesOk(g.codes, log.consent.approved, log.exchanged, clock)
    && ConsentOk(log.consent, log.drawn)
    && ApprovedBefore(log.consent, clock)
    && GrantsOk(log.granted, log.exchanged, log.consent.approved)
    && PairsOk(log)
    && DrawnOk(log)
    && Bounded(g)
  }

  // cleanup ----------------------------------------------------------------------------------

  lemma CleanupStaysBounded(g: Grants, now: int)
    requires Bounded(g)
    ensures Bounded(Cleanup(g, now))
  {
    var c := Cleanup(g, now);
    FewerElements(c.tickets.Keys, g.tickets.Keys);
    FewerElements(c.codes.Keys, g.codes.Keys);
    FewerElements(c.families.Keys, g.families.Keys);
    FewerElements(c.refresh.Keys, g.refresh.Keys);
  }

  lemma CleanupKeepsFamilies(families: Families, log: Log, clock: int, now: int)
    requires FamiliesOk(families, log, clock) && clock <= now
    ensures FamiliesOk(LiveFamilies(families, now), log, now)
  {}

  lemma CleanupKeepsAccess(access: Accesses, families: Families, issued: map<Key, Issued>, clock: int, now: int)
    requires AccessOk(access, families, issued, clock) && clock <= now
    ensures AccessOk(LiveAccess(access, LiveFamilies(families, now), now), LiveFamilies(families, now), issued, now)
  {}

  lemma CleanupKeepsRefresh(refresh: Refreshes, families: Families, log: Log, now: int)
    requires RefreshOk(refresh, families, log.owner, log.current, log.rotated)
    ensures RefreshOk(LiveRefresh(refresh, LiveFamilies(families, now)), LiveFamilies(families, now),
                      log.owner, log.current, log.rotated)
  {}

  lemma StillBefore(c: Consent, clock: int, now: int)
    requires ApprovedBefore(c, clock) && clock <= now
    ensures ApprovedBefore(c, now)
  {}

  lemma CleanupKeepsTickets(tickets: Tickets, c: Consent, clock: int, now: int)
    requires TicketsOk(tickets, c, clock) && clock <= now
    ensures TicketsOk(LiveTickets(tickets, now), c, now)
  {}

  lemma CleanupKeepsCodes(codes: Codes, approved: map<Key, Approval>, exchanged: map<Key, Key>, clock: int, now: int)
    requires CodesOk(codes, approved, exchanged, clock) && clock <= now
    ensures CodesOk(LiveCodes(codes, now), approved, exchanged, now)
  {}

  lemma CleanupKeepsInv(g: Grants, log: Log, clock: int, now: int)
    requires Inv(g, log, clock) && clock <= now
    ensures Inv(Cleanup(g, now), log, now)
  {
    hide FamiliesOk, AccessOk, RefreshOk, TicketsOk, CodesOk, ConsentOk, ApprovedBefore, GrantsOk, PairsOk,
         DrawnOk, Bounded;
    CleanupStaysBounded(g, now);
    CleanupKeepsFamilies(g.families, log, clock, now);
    CleanupKeepsAccess(g.access, g.families, log.issued, clock, now);
    CleanupKeepsRefresh(g.refresh, g.families, log, now);
    StillBefore(log.consent, clock, now);
    CleanupKeepsTickets(g.tickets, log.consent, clock, now);
    CleanupKeepsCodes(g.codes, log.consent.approved, log.exchanged, clock, now);
  }

  lemma TimePasses(g: Grants, log: Log, clock: int, now: int)
    requires Inv(g, log, clock) && clock <= now
    ensures Inv(g, log, now)
  {}

  /** Sweeping at once is sweeping twice. */
  lemma CleanupAbsorbs(g: Grants, earlier: int, now: int)
    requires earlier <= now
    ensures Cleanup(Cleanup(g, earlier), now) == Cleanup(g, now)
  {
    var c, d := Cleanup(Cleanup(g, earlier), now), Cleanup(g, now);
    assert c.tickets == d.tickets;
    assert c.codes == d.codes;
    assert c.families == d.families;
    assert c.access == d.access;
    assert c.refresh == d.refresh;
  }

  // The handlers, after their cleanup --------------------------------------------------------

  lemma DrawMore(g: Grants, log: Log, now: int, keys: set<Key>)
    requires Inv(g, log, now)
    ensures Inv(g, log.(drawn := log.drawn + keys), now)
  {}

  /** A bounded map that takes one more key. */
  lemma OneMore<V>(m: map<Key, V>, k: Key, v: V, limit: int)
    requires |m| < limit
    ensures |m[k := v].Keys| <= limit
  {
    assert |m| == |m.Keys|;
    assert m[k := v].Keys == m.Keys + {k};
  }

  lemma RevokeKeepsAccess(g: Grants, log: Log, clock: int, family: Key)
    requires AccessOk(g.access, g.families, log.issued, clock)
    ensures AccessOk(AccessWithout(g.access, family), g.families - {family}, log.issued, clock)
  {}

  lemma RevokeKeepsRefresh(g: Grants, log: Log, family: Key)
    requires RefreshOk(g.refresh, g.families, log.owner, log.current, log.rotated)
    ensures RefreshOk(RefreshWithout(g.refresh, family), g.families - {family}, log.owner, log.current, log.rotated)
  {}

  lemma RevokeKeepsRest(g: Grants, log: Log, clock: int, family: Key)
    requires FamiliesOk(g.families, log, clock) && DrawnOk(log) && PairsOk(log)
    requires family in log.granted
    ensures
      var log' := log.(revoked := log.revoked + {family});
      FamiliesOk(g.families - {family}, log', clock) && DrawnOk(log') && PairsOk(log')
  {}

  lemma RevokeKeepsInv(g: Grants, log: Log, clock: int, family: Key)
    requires Inv(g, log, clock) && family in log.granted
    ensures Inv(RevokeFamily(g, family), log.(revoked := log.revoked + {family}), clock)
  {
    hide FamiliesOk, AccessOk, RefreshOk, TicketsOk, CodesOk, ConsentOk, ApprovedBefore, GrantsOk, PairsOk, DrawnOk;
    RevokeKeepsAccess(g, log, clock, family);
    RevokeKeepsRefresh(g, log, family);
    RevokeKeepsRest(g, log, clock, family);
    FewerElements((g.families - {family}).Keys, g.families.Keys);
    FewerElements(RefreshWithout(g.refresh, family).Keys, g.refresh.Keys);
  }

  /** The pair is new. */
  ghost predicate FreshPair(log: Log, pair: Pair) {
    pair.access !in log.drawn && pair.refresh !in log.drawn && pair.access != pair.refresh
  }

  lemma PairKeepsAccess(g: Grants, log: Log, now: int, family: Key, pair: Pair, families: Families)
    requires AccessOk(g.access, g.families, log.issued, now) && DrawnOk(log) && PairsOk(log) && FreshPair(log, pair)
    requires families.Keys == g.families.Keys + {family}
    requires family in g.families || family !in log.granted
    ensures AccessOk(g.access[pair.access := Access(family, now + ACCESS_LIFETIME)], families,
                     LogPair(log, family, pair, now).issued, now)
  {}

  lemma PairKeepsPairs(log: Log, family: Key, pair: Pair, now: int)
    requires PairsOk(log) && DrawnOk(log) && FreshPair(log, pair)
    ensures PairsOk(LogPair(log, family, pair, now))
  {}

  lemma PairKeepsDrawn(log: Log, log': Log, family: Key, pair: Pair, now: int)
    requires DrawnOk(log) && FreshPair(log, pair)
    requires log' == LogPair(log, family, pair, now).(granted := log'.granted, drawn := log'.drawn,
                                                      exchanged := log'.exchanged, rotated := log'.rotated)
    requires log'.granted.Keys == log.granted.Keys + {family}
    requires log.drawn + {family, pair.access, pair.refresh} <= log'.drawn
    requires log'.rotated <= log'.owner.Keys
    ensures DrawnOk(log')
  {}

  lemma MoreDrawn(c: Consent, drawn: set<Key>, drawn': set<Key>)
    requires ConsentOk(c, drawn) && drawn <= drawn'
    ensures ConsentOk(c, drawn')
  {}

  // Exchanging a code

  ghost predicate Exchanged(log: Log, log': Log, code: Key, claim: Claim, family: Key, pair: Pair, now: int) {
    && log' == LogPair(log, family, pair, now)
                 .(granted := log.granted[family := Grant(code, claim, now)],
                   exchanged := log.exchanged[code := family],
                   drawn := log'.drawn)
    && log.drawn + {family, pair.access, pair.refresh} <= log'.drawn
    && FreshPair(log, pair) && family !in log.drawn && family != pair.access && family != pair.refresh
  }

  lemma ExchangeKeepsFamilies(families: Families, log: Log, log': Log, code: Key, claim: Claim,
                              family: Key, pair: Pair, now: int)
    requires FamiliesOk(families, log, now) && DrawnOk(log) && Exchanged(log, log', code, claim, family, pair, now)
    ensures FamiliesOk(families[family := Family(claim.client, now + REFRESH_LIFETIME)], log', now)
  {}

  lemma NewFamilyKeepsRefresh(refresh: Refreshes, families: Families,
                              owner: map<Key, Key>, current: map<Key, Key>, rotated: set<Key>,
                              family: Key, entry: Family, token: Key)
    requires RefreshOk(refresh, families, owner, current, rotated)
    requires family !in families && (forall r :: r in owner ==> owner[r] != family)
    requires token !in owner && token !in rotated
    ensures RefreshOk(refresh[token := Refresh(family, false)], families[family := entry],
                      owner[token := family], current[family := token], rotated)
  {}

  lemma ExchangeKeepsRefresh(refresh: Refreshes, families: Families, log: Log, log': Log, code: Key, claim: Claim,
                             family: Key, pair: Pair, now: int)
    requires RefreshOk(refresh, families, log.owner, log.current, log.rotated)
    requires DrawnOk(log) && FamiliesOk(families, log, now)
    requires Exchanged(log, log', code, claim, family, pair, now)
    ensures RefreshOk(refresh[pair.refresh := Refresh(family, false)],
                      families[family := Family(claim.client, now + REFRESH_LIFETIME)],
                      log'.owner, log'.current, log'.rotated)
  {
    hide RefreshOk;
    NewFamilyKeepsRefresh(refresh, families, log.owner, log.current, log.rotated,
                          family, Family(claim.client, now + REFRESH_LIFETIME), pair.refresh);
  }

  lemma ExchangeKeepsCodes(codes: Codes, log: Log, log': Log, code: Key, claim: Claim,
                           family: Key, pair: Pair, now: int)
    requires CodesOk(codes, log.consent.approved, log.exchanged, now) && code in codes
    requires Exchanged(log, log', code, claim, family, pair, now)
    ensures CodesOk(Spend(codes, code, family), log'.consent.approved, log'.exchanged, now)
  {}

  lemma ExchangeKeepsGrants(codes: Codes, log: Log, log': Log, code: Key, claim: Claim,
                            family: Key, pair: Pair, now: int)
    requires CodesOk(codes, log.consent.approved, log.exchanged, now) && code in codes && codes[code].spent.None?
    requires Proves(codes[code].request, claim) && now < codes[code].expires
    requires GrantsOk(log.granted, log.exchanged, log.consent.approved) && ApprovedBefore(log.consent, now)
    requires Exchanged(log, log', code, claim, family, pair, now) && DrawnOk(log)
    ensures GrantsOk(log'.granted, log'.exchanged, log'.consent.approved) && log'.consent == log.consent
  {}

  /** What the log of an exchange keeps by itself. */
  lemma ExchangeKeepsLog(log: Log, log': Log, code: Key, claim: Claim, family: Key, pair: Pair, now: int)
    requires PairsOk(log) && DrawnOk(log) && Exchanged(log, log', code, claim, family, pair, now)
    requires ConsentOk(log.consent, log.drawn)
    ensures PairsOk(log') && DrawnOk(log') && ConsentOk(log'.consent, log'.drawn)
  {
    hide PairsOk, ConsentOk;
    MoreDrawn(log.consent, log.drawn, log'.drawn);
    PairKeepsPairs(log, family, pair, now);
    PairKeepsDrawn(log, log', family, pair, now);
    PairsIgnore(LogPair(log, family, pair, now), log');
  }

  lemma PairsIgnore(log: Log, log': Log)
    requires PairsOk(log) && log'.issued == log.issued && log'.owner == log.owner
    ensures PairsOk(log')
  {}

  lemma ExchangeStaysBounded(g: Grants, code: Key, claim: Claim, family: Key, pair: Pair, now: int)
    requires Bounded(g) && |g.families| < FAMILY_LIMIT && |g.refresh| < REFRESH_LIMIT && code in g.codes
    ensures Bounded(ExchangedGrants(g, code, claim.client, family, pair, now))
  {
    OneMore(g.families, family, Family(claim.client, now + REFRESH_LIFETIME), FAMILY_LIMIT);
    OneMore(g.refresh, pair.refresh, Refresh(family, false), REFRESH_LIMIT);
    assert Spend(g.codes, code, family).Keys == g.codes.Keys;
  }

  lemma ExchangeKeepsAccess(g: Grants, log: Log, log': Log, code: Key, claim: Claim,
                            family: Key, pair: Pair, now: int)
    requires AccessOk(g.access, g.families, log.issued, now) && DrawnOk(log) && PairsOk(log)
    requires Exchanged(log, log', code, claim, family, pair, now) && code in g.codes
    ensures
      var g' := ExchangedGrants(g, code, claim.client, family, pair, now);
      AccessOk(g'.access, g'.families, log'.issued, now)
  {
    hide AccessOk, PairsOk;
    PairKeepsAccess(g, log, now, family, pair, g.families[family := Family(claim.client, now + REFRESH_LIFETIME)]);
  }

  lemma ExchangeKeepsInv(g: Grants, log: Log, log': Log, code: Key, claim: Claim, family: Key, pair: Pair, now: int)
    requires Inv(g, log, now) && Exchanged(log, log', code, claim, family, pair, now) && code in g.codes
    requires g.codes[code].spent.None? && Proves(g.codes[code].request, claim) && now < g.codes[code].expires
    requires |g.families| < FAMILY_LIMIT && |g.refresh| < REFRESH_LIMIT
    ensures Inv(ExchangedGrants(g, code, claim.client, family, pair, now), log', now)
  {
    hide FamiliesOk, AccessOk, RefreshOk, TicketsOk, CodesOk, ConsentOk, ApprovedBefore, GrantsOk, PairsOk,
         DrawnOk, Bounded, LogPair, Exchanged, Spend;
    ExchangeKeepsLog(log, log', code, claim, family, pair, now);
    ExchangeKeepsFamilies(g.families, log, log', code, claim, family, pair, now);
    ExchangeKeepsRefresh(g.refresh, g.families, log, log', code, claim, family, pair, now);
    ExchangeKeepsCodes(g.codes, log, log', code, claim, family, pair, now);
    ExchangeKeepsGrants(g.codes, log, log', code, claim, family, pair, now);
    ExchangeKeepsAccess(g, log, log', code, claim, family, pair, now);
    ExchangeStaysBounded(g, code, claim, family, pair, now);
  }

  // Rotating a refresh token

  ghost predicate Rotated(log: Log, log': Log, token: Key, family: Key, pair: Pair, now: int) {
    && log' == LogPair(log, family, pair, now).(rotated := log.rotated + {token}, drawn := log'.drawn)
    && log.drawn + {pair.access, pair.refresh} <= log'.drawn
    && FreshPair(log, pair) && token in log.owner && log.owner[token] == family
  }

  lemma RotateKeepsRefresh(refresh: Refreshes, families: Families,
                           owner: map<Key, Key>, current: map<Key, Key>, rotated: set<Key>,
                           token: Key, family: Key, pair: Pair)
    requires RefreshOk(refresh, families, owner, current, rotated)
    requires token in refresh && refresh[token] == Refresh(family, false)
    requires pair.refresh !in owner && pair.refresh !in rotated
    ensures RefreshOk(RotatedTokens(refresh, token, family, pair), families,
                      owner[pair.refresh := family], current[family := pair.refresh], rotated + {token})
  {}

  lemma RotateKeepsRest(families: Families, log: Log, log': Log, token: Key, family: Key, pair: Pair, now: int)
    requires FamiliesOk(families, log, now) && PairsOk(log) && DrawnOk(log) && ConsentOk(log.consent, log.drawn)
    requires Rotated(log, log', token, family, pair, now)
    ensures FamiliesOk(families, log', now) && PairsOk(log') && DrawnOk(log') && ConsentOk(log'.consent, log'.drawn)
  {
    hide PairsOk, ConsentOk, FreshPair;
    MoreDrawn(log.consent, log.drawn, log'.drawn);
    PairKeepsPairs(log, family, pair, now);
    PairKeepsDrawn(log, log', family, pair, now);
    PairsIgnore(LogPair(log, family, pair, now), log');
  }

  lemma NewRefresh(log: Log, pair: Pair)
    requires DrawnOk(log) && FreshPair(log, pair)
    ensures pair.refresh !in log.owner && pair.refresh !in log.rotated
  {}

  lemma RotateKeepsInv(g: Grants, log: Log, log': Log, token: Key, family: Key, pair: Pair, now: int)
    requires Inv(g, log, now) && Rotated(log, log', token, family, pair, now)
    requires token in g.refresh && g.refresh[token] == Refresh(family, false) && family in g.families
    requires |g.refresh| < REFRESH_LIMIT
    ensures Inv(RotatedGrants(g, token, family, pair, now), log', now)
  {
    hide FamiliesOk, AccessOk, RefreshOk, TicketsOk, CodesOk, ConsentOk, ApprovedBefore, GrantsOk, PairsOk, DrawnOk;
    RotateKeepsRest(g.families, log, log', token, family, pair, now);
    NewRefresh(log, pair);
    RotateKeepsRefresh(g.refresh, g.families, log.owner, log.current, log.rotated, token, family, pair);
    PairKeepsAccess(g, log, now, family, pair, g.families);
    OneMore(g.refresh, pair.refresh, Refresh(family, false), REFRESH_LIMIT);
    assert RotatedTokens(g.refresh, token, family, pair).Keys == g.refresh[pair.refresh := Refresh(family, false)].Keys;
  }

  // Every request -------------------------------------------------------------------------------

  lemma AskKeepsTickets(tickets: Tickets, c: Consent, now: int, ticket: Key, request: Authorization, cookie: Key)
    requires TicketsOk(tickets, c, now) && ticket !in c.asked && ticket !in c.answered
    ensures TicketsOk(tickets[ticket := Ticket(request, cookie, now + TICKET_LIFETIME)],
                      c.(asked := c.asked[ticket := Asked(request, cookie, now)]), now)
  {}

  lemma AskKeepsConsent(c: Consent, drawn: set<Key>, now: int, ticket: Key, request: Authorization, cookie: Key)
    requires ConsentOk(c, drawn) && ApprovedBefore(c, now) && ticket !in drawn
    ensures ticket !in c.asked && ticket !in c.answered
    ensures
      var c' := c.(asked := c.asked[ticket := Asked(request, cookie, now)]);
      ConsentOk(c', drawn + {ticket}) && ApprovedBefore(c', now)
  {
    assert ticket !in c.asked.Keys;
  }

  lemma AskKeepsInv(g: Grants, log: Log, now: int, ticket: Key, request: Authorization, cookie: Key)
    requires Inv(g, log, now) && ticket !in log.drawn && |g.tickets| < PENDING_LIMIT
    ensures Inv(g.(tickets := g.tickets[ticket := Ticket(request, cookie, now + TICKET_LIFETIME)]),
                log.(consent := log.consent.(asked := log.consent.asked[ticket := Asked(request, cookie, now)]),
                     drawn := log.drawn + {ticket}), now)
  {
    hide FamiliesOk, AccessOk, RefreshOk, TicketsOk, CodesOk, ConsentOk, ApprovedBefore, GrantsOk, PairsOk, DrawnOk;
    AskKeepsConsent(log.consent, log.drawn, now, ticket, request, cookie);
    AskKeepsTickets(g.tickets, log.consent, now, ticket, request, cookie);
    OneMore(g.tickets, ticket, Ticket(request, cookie, now + TICKET_LIFETIME), PENDING_LIMIT);
    LogIgnoresConsent(g.families, log, log.consent.(asked := log.consent.asked[ticket := Asked(request, cookie, now)]),
                      {ticket}, now);
  }

  /** Families and pairs do not depend on the consent or on later draws. */
  lemma LogIgnoresConsent(families: Families, log: Log, consent: Consent, keys: set<Key>, clock: int)
    requires FamiliesOk(families, log, clock) && PairsOk(log) && DrawnOk(log)
    ensures
      var log' := log.(consent := consent, drawn := log.drawn + keys);
      FamiliesOk(families, log', clock) && PairsOk(log') && DrawnOk(log')
  {}

  lemma AnswerKeepsConsent(tickets: Tickets, c: Consent, drawn: set<Key>, now: int, ticket: Key)
    requires TicketsOk(tickets, c, now) && ConsentOk(c, drawn) && ApprovedBefore(c, now) && ticket in tickets
    ensures
      var c' := c.(answered := c.answered + {ticket});
      TicketsOk(tickets - {ticket}, c', now) && ConsentOk(c', drawn) && ApprovedBefore(c', now)
  {}

  lemma AnswerKeepsInv(g: Grants, log: Log, now: int, ticket: Key)
    requires Inv(g, log, now) && ticket in g.tickets
    ensures Inv(g.(tickets := g.tickets - {ticket}),
                log.(consent := log.consent.(answered := log.consent.answered + {ticket})), now)
  {
    hide FamiliesOk, AccessOk, RefreshOk, TicketsOk, CodesOk, ConsentOk, ApprovedBefore, GrantsOk, PairsOk;
    AnswerKeepsConsent(g.tickets, log.consent, log.drawn, now, ticket);
    FewerElements((g.tickets - {ticket}).Keys, g.tickets.Keys);
    assert log.drawn + {} == log.drawn;
    LogIgnoresConsent(g.families, log, log.consent.(answered := log.consent.answered + {ticket}), {}, now);
  }

  /** The consent after ticket `ticket` is approved with code `key`. */
  function Approved(c: Consent, key: Key, ticket: Key, now: int): Consent
    requires ticket in c.asked
  {
    c.(approved := c.approved[key := Approval(ticket, c.asked[ticket].request, now)], answered := c.answered + {ticket})
  }

  lemma ApprovalKeepsConsent(tickets: Tickets, c: Consent, drawn: set<Key>, now: int, key: Key, ticket: Key)
    requires TicketsOk(tickets, c, now) && ConsentOk(c, drawn) && ApprovedBefore(c, now)
    requires ticket in tickets && now < tickets[ticket].expires && key !in drawn
    ensures ticket in c.asked && tickets[ticket].request == c.asked[ticket].request
    ensures
      var c' := Approved(c, key, ticket, now);
      && TicketsOk(tickets - {ticket}, c', now) && ConsentOk(c', drawn + {key}) && ApprovedBefore(c', now)
  {}

  lemma NewCode(c: Consent, drawn: set<Key>, granted: map<Key, Grant>, exchanged: map<Key, Key>, key: Key)
    requires ConsentOk(c, drawn) && GrantsOk(granted, exchanged, c.approved) && key !in drawn
    ensures key !in c.approved && key !in exchanged
  {
    assert key !in c.approved.Keys;
    assert key in exchanged ==> GrantOk(exchanged[key], granted[exchanged[key]], exchanged, c.approved);
  }

  lemma ApprovalKeepsCodes(codes: Codes, approved: map<Key, Approval>, granted: map<Key, Grant>,
                           exchanged: map<Key, Key>, now: int, key: Key, a: Approval)
    requires CodesOk(codes, approved, exchanged, now) && GrantsOk(granted, exchanged, approved)
    requires key !in approved && key !in exchanged && a.at == now
    ensures CodesOk(codes[key := Code(a.request, now + CODE_LIFETIME, None)], approved[key := a], exchanged, now)
    ensures GrantsOk(granted, exchanged, approved[key := a])
  {}

  lemma ApprovalKeepsInv(g: Grants, log: Log, now: int, key: Key, ticket: Key)
    requires Inv(g, log, now) && key !in log.drawn && |g.codes| < PENDING_LIMIT
    requires ticket in g.tickets && now < g.tickets[ticket].expires
    ensures ticket in log.consent.asked
    ensures Inv(g.(tickets := g.tickets - {ticket},
                   codes := g.codes[key := Code(g.tickets[ticket].request, now + CODE_LIFETIME, None)]),
                log.(consent := Approved(log.consent, key, ticket, now), drawn := log.drawn + {key}), now)
  {
    hide FamiliesOk, AccessOk, RefreshOk, TicketsOk, CodesOk, ConsentOk, ApprovedBefore, GrantsOk, PairsOk, DrawnOk;
    ApprovalKeepsConsent(g.tickets, log.consent, log.drawn, now, key, ticket);
    NewCode(log.consent, log.drawn, log.granted, log.exchanged, key);
    ApprovalKeepsCodes(g.codes, log.consent.approved, log.granted, log.exchanged, now, key,
                       Approval(ticket, log.consent.asked[ticket].request, now));
    LogIgnoresConsent(g.families, log, Approved(log.consent, key, ticket, now), {key}, now);
    FewerElements((g.tickets - {ticket}).Keys, g.tickets.Keys);
    OneMore(g.codes, key, Code(g.tickets[ticket].request, now + CODE_LIFETIME, None), PENDING_LIMIT);
  }

  /** The invariant after a request, for the log as it then is. */
  ghost predicate NextInv(w: World, e: Event, now: int) {
    var w' := Next(w, e, now);
    Inv(w'.grants, w'.log, now)
  }

  /** The state after the cleanup, and the untouched one, with what was drawn. */
  lemma BeforeHandling(w: World, e: Event, now: int)
    requires Inv(w.grants, w.log, w.clock) && Possible(w, e, now)
    ensures Inv(Cleanup(w.grants, now), w.log, now) && Bounded(Cleanup(w.grants, now))
    ensures Inv(Cleanup(w.grants, now), w.log.(drawn := w.log.drawn + Draws(e)), now)
    ensures Inv(w.grants, w.log.(drawn := w.log.drawn + Draws(e)), now)
  {
    hide Inv, Cleanup, Bounded, Draws;
    TimePasses(w.grants, w.log, w.clock, now);
    CleanupKeepsInv(w.grants, w.log, w.clock, now);
    DrawMore(w.grants, w.log, now, Draws(e));
    DrawMore(Cleanup(w.grants, now), w.log, now, Draws(e));
    BoundsOf(Cleanup(w.grants, now), w.log, now);
  }

  lemma DrawsOne(w: World, e: Event, now: int)
    requires Possible(w, e, now) && (e.BeginApproval? || e.Approve?) && e.drawn.Some?
    ensures Draws(e) == {e.drawn.value} && e.drawn.value !in w.log.drawn
  {
    assert e.drawn.value in Draws(e);
  }

  lemma BeginApprovalKeepsInv(w: World, e: Event, now: int)
    requires Inv(w.grants, w.log, w.clock) && Possible(w, e, now) && e.BeginApproval?
    ensures NextInv(w, e, now)
  {
    hide Inv, Cleanup, Draws;
    var c := Cleanup(w.grants, now);
    BeforeHandling(w, e, now);
    if e.drawn.Some? && |c.tickets| < PENDING_LIMIT {
      DrawsOne(w, e, now);
      AskKeepsInv(c, w.log, now, e.drawn.value, e.request, e.cookie);
    }
  }

  lemma DenyKeepsInv(w: World, e: Event, now: int)
    requires Inv(w.grants, w.log, w.clock) && Possible(w, e, now) && e.Deny?
    ensures NextInv(w, e, now)
  {
    hide Inv, Cleanup;
    BeforeHandling(w, e, now);
    if e.ticket in Cleanup(w.grants, now).tickets {
      AnswerKeepsInv(Cleanup(w.grants, now), w.log.(drawn := w.log.drawn + Draws(e)), now, e.ticket);
    }
  }

  /** The server takes a ticket exactly if the log has it open for this browser. */
  lemma TicketsAgree(g: Grants, log: Log, now: int, ticket: Key, cookie: Key)
    requires Inv(g, log, now)
    ensures TicketAccepted(g.tickets, ticket, cookie, now) <==> Consents(log.consent, ticket, cookie, true, now)
    ensures ticket in g.tickets ==>
      ticket in log.consent.asked && g.tickets[ticket].request == log.consent.asked[ticket].request
  {}

  lemma ApproveKeepsInv(w: World, e: Event, now: int)
    requires Inv(w.grants, w.log, w.clock) && Possible(w, e, now) && e.Approve?
    ensures NextInv(w, e, now)
  {
    hide Inv, Cleanup, BeginApprovalStep, DenyStep, ExchangeStep, RotateStep, RevokeStep, ValidateStep, LogPair, Draws;
    var c := Cleanup(w.grants, now);
    BeforeHandling(w, e, now);
    TicketsAgree(c, w.log, now, e.ticket, e.cookie);
    if TicketAccepted(c.tickets, e.ticket, e.cookie, now) && |c.codes| < PENDING_LIMIT && e.drawn.Some? && e.owner {
      DrawsOne(w, e, now);
      ApprovalKeepsInv(c, w.log, now, e.drawn.value, e.ticket);
    }
  }

  lemma BoundsOf(g: Grants, log: Log, now: int)
    requires Inv(g, log, now)
    ensures Bounded(g)
  {}

  lemma ExchangeStepKeepsInv(w: World, e: Event, now: int)
    requires Inv(w.grants, w.log, w.clock) && Possible(w, e, now) && e.Exchange?
    ensures NextInv(w, e, now)
  {
    hide Inv, Cleanup, RevokeFamily, ExchangedGrants, LogPair, Draws;
    var c := Cleanup(w.grants, now);
    BeforeHandling(w, e, now);
    SpentIsExchanged(c, w.log, now, e.code);
    var r := ExchangeStep(w.grants, e.code, e.claim, e.drawn, e.pair, now).1;
    var log' := w.log.(drawn := w.log.drawn + Draws(e));
    if r.AlreadyUsed? {
      RevokeKeepsInv(c, log', now, c.codes[e.code].spent.value);
    } else if r.TokensIssued? {
      ExchangeIsLogged(w, e, now);
      ExchangeKeepsInv(c, w.log, Next(w, e, now).log, e.code, e.claim, e.drawn.value, e.pair.value, now);
    }
  }

  lemma ExchangeIsLogged(w: World, e: Event, now: int)
    requires Possible(w, e, now) && e.Exchange?
    requires ExchangeStep(w.grants, e.code, e.claim, e.drawn, e.pair, now).1.TokensIssued?
    ensures Exchanged(w.log, Next(w, e, now).log, e.code, e.claim, e.drawn.value, e.pair.value, now)
  {
    hide Cleanup, ExchangedGrants, RevokeFamily, Step, LogPair, Draws, FreshPair, Distinct;
    var r := ExchangeStep(w.grants, e.code, e.claim, e.drawn, e.pair, now).1;
    assert r == TokensIssued(e.pair.value) && e.drawn.Some?;
    ExchangeDraws(w, e, now);
    StepIsExchange(w.grants, e, now);
  }

  lemma StepIsExchange(g: Grants, e: Event, now: int)
    requires e.Exchange?
    ensures Step(g, e, now) == ExchangeStep(g, e.code, e.claim, e.drawn, e.pair, now)
  {}

  lemma ExchangeDraws(w: World, e: Event, now: int)
    requires Possible(w, e, now) && e.Exchange? && e.drawn.Some? && e.pair.Some?
    ensures Draws(e) == {e.drawn.value, e.pair.value.access, e.pair.value.refresh}
    ensures FreshPair(w.log, e.pair.value)
    ensures e.drawn.value !in w.log.drawn
    ensures e.drawn.value != e.pair.value.access && e.drawn.value != e.pair.value.refresh
  {
    assert e.drawn.value in Draws(e) && e.pair.value.access in Draws(e) && e.pair.value.refresh in Draws(e);
  }

  lemma SpentIsExchanged(g: Grants, log: Log, now: int, code: Key)
    requires Inv(g, log, now)
    ensures code in g.codes ==>
      && code in log.consent.approved
      && g.codes[code] == Code(log.consent.approved[code].request, log.consent.approved[code].at + CODE_LIFETIME,
                               if code in log.exchanged then Some(log.exchanged[code]) else None)
    ensures code in log.consent.approved && now < log.consent.approved[code].at + CODE_LIFETIME ==> code in g.codes
    ensures code in log.exchanged ==> log.exchanged[code] in log.granted
  {}

  lemma RotateStepKeepsInv(w: World, e: Event, now: int)
    requires Inv(w.grants, w.log, w.clock) && Possible(w, e, now) && e.Rotate?
    ensures NextInv(w, e, now)
  {
    hide Inv, Cleanup, RevokeFamily, LogPair, RotatedGrants, Draws;
    var c := Cleanup(w.grants, now);
    BeforeHandling(w, e, now);
    RefreshIsOwned(c, w.log, now, e.token);
    var r := RotateStep(w.grants, e.token, e.client, e.pair, now).1;
    var log' := w.log.(drawn := w.log.drawn + Draws(e));
    if r.AlreadyUsed? {
      RevokeKeepsInv(c, log', now, c.refresh[e.token].family);
    } else if r.TokensIssued? {
      RotationIsLogged(w, c, e, now);
      RotateKeepsInv(c, w.log, Next(w, e, now).log, e.token, c.refresh[e.token].family, e.pair.value, now);
    }
  }

  lemma RotationIsLogged(w: World, c: Grants, e: Event, now: int)
    requires Possible(w, e, now) && e.Rotate? && c == Cleanup(w.grants, now)
    requires RotateStep(w.grants, e.token, e.client, e.pair, now).1.TokensIssued?
    requires e.token in w.log.owner && w.log.owner[e.token] == c.refresh[e.token].family
    ensures Rotated(w.log, Next(w, e, now).log, e.token, c.refresh[e.token].family, e.pair.value, now)
  {
    hide Cleanup, RotatedGrants;
  }

  lemma RefreshIsOwned(g: Grants, log: Log, now: int, token: Key)
    requires Inv(g, log, now)
    ensures token in g.refresh ==> token in log.owner && log.owner[token] == g.refresh[token].family
    ensures token in log.owner ==> log.owner[token] in log.granted
  {}

  /** The server revokes the family that the log names, if it still lives. */
  lemma RevokeAgrees(g: Grants, log: Log, now: int, token: Key, client: ClientId)
    requires Inv(Cleanup(g, now), log, now)
    ensures
      var c := Cleanup(g, now);
      var family := Named(log, token, now);
      var found := FamilyOf(c, token);
      if found.Some? && found.value in c.families && c.families[found.value].client == client
      then family == found && found.value in log.granted && log.granted[found.value].claim.client == client
      else family.Some? && family.value in log.granted && log.granted[family.value].claim.client == client ==>
        family.value !in c.families
  {}

  /** Revoking a family that is gone changes only the log. */
  lemma RevokeGoneKeepsInv(g: Grants, log: Log, clock: int, family: Key)
    requires Inv(g, log, clock) && family in log.granted && family !in g.families
    ensures Inv(g, log.(revoked := log.revoked + {family}), clock)
  {}

  lemma RevokeStepKeepsInv(w: World, e: Event, now: int)
    requires Inv(w.grants, w.log, w.clock) && Possible(w, e, now) && e.Revoke?
    ensures NextInv(w, e, now)
  {
    hide Inv, Cleanup, RevokeFamily, Named, FamilyOf;
    var c := Cleanup(w.grants, now);
    BeforeHandling(w, e, now);
    RevokeAgrees(w.grants, w.log, now, e.token, e.client);
    var family := Named(w.log, e.token, now);
    if family.Some? && family.value in w.log.granted && w.log.granted[family.value].claim.client == e.client {
      if family.value in c.families {
        RevokeKeepsInv(c, w.log.(drawn := w.log.drawn + Draws(e)), now, family.value);
      } else {
        RevokeGoneKeepsInv(c, w.log.(drawn := w.log.drawn + Draws(e)), now, family.value);
      }
    }
  }

  lemma ValidateKeepsInv(w: World, e: Event, now: int)
    requires Inv(w.grants, w.log, w.clock) && Possible(w, e, now) && e.Validate?
    ensures NextInv(w, e, now)
  {
    hide Inv, Cleanup;
    BeforeHandling(w, e, now);
  }

  lemma StepKeepsInv(w: World, e: Event, now: int)
    requires Inv(w.grants, w.log, w.clock) && Possible(w, e, now)
    ensures NextInv(w, e, now)
  {
    hide *;
    match e
    case BeginApproval(_, _, _) => BeginApprovalKeepsInv(w, e, now);
    case Deny(_, _) => DenyKeepsInv(w, e, now);
    case Approve(_, _, _, _) => ApproveKeepsInv(w, e, now);
    case Exchange(_, _, _, _) => ExchangeStepKeepsInv(w, e, now);
    case Rotate(_, _, _) => RotateStepKeepsInv(w, e, now);
    case Revoke(_, _) => RevokeStepKeepsInv(w, e, now);
    case Validate(_, _) => ValidateKeepsInv(w, e, now);
  }

  ghost predicate WorldInv(w: World) { Inv(w.grants, w.log, w.clock) }

  lemma {:induction false} EveryRunKeepsInv(calls: seq<Call>, ws: seq<World>, n: nat)
    requires IsRun(calls, ws) && n <= |calls|
    ensures WorldInv(ws[n])
  {
    hide Inv, Possible, Step, LogEvent;
    if n == 0 {
      InitialInv();
    } else {
      EveryRunKeepsInv(calls, ws, n - 1);
      assert Next(ws[n - 1], calls[n - 1].event, calls[n - 1].now) == ws[n];
      StepKeepsInv(ws[n - 1], calls[n - 1].event, calls[n - 1].now);
    }
  }

  lemma InitialInv()
    ensures WorldInv(NewWorld)
  {}

  lemma ReachableKeepsInv(w: World)
    requires Reachable(w)
    ensures WorldInv(w)
  {
    hide WorldInv, Next, Possible;
    var calls, ws :| IsRun(calls, ws) && ws[|calls|] == w;
    EveryRunKeepsInv(calls, ws, |calls|);
  }
}

/** The grant store of the OAuth server (internal/oauth/oauth.go): five maps under
    one mutex, swept lazily. Each request handler, from the point where its form
    has been read and its client authenticated, is one atomic step.

    A credential is identified with its SHA-256 digest, the key of the maps. Keys
    that a handler draws from the random source are arguments of its step; None
    stands for a failing source. `now` is in seconds. */
module OAuthGrants {
  import opened Basics

  type Key = int
  type ClientId = int

  const PENDING_LIMIT := 2048
  const FAMILY_LIMIT := 4096
  const REFRESH_LIMIT := 16384
  const TICKET_LIFETIME := 600
  const CODE_LIFETIME := 300
  const ACCESS_LIFETIME := 3600
  const REFRESH_LIFETIME := 2592000
  const MAX_TOKEN := 256

  /** What a client asks for; the challenge is that of RFC 7636, section 4.2. */
  datatype Authorization = Authorization(client: ClientId, redirect: int, challenge: int, resource: int)

  datatype Ticket = Ticket(request: Authorization, cookie: Key, expires: int)
  datatype Code = Code(request: Authorization, expires: int, spent: Option<Key>)  // the family it was spent on
  datatype Family = Family(client: ClientId, expires: int)
  datatype Access = Access(family: Key, expires: int)
  datatype Refresh = Refresh(family: Key, used: bool)

  /** What the client presents with a code, to be compared with its authorization;
      `proof` is the challenge of the presented verifier, if that is well formed. */
  datatype Claim = Claim(client: ClientId, redirect: int, resource: int, proof: Option<int>)

  type Tickets = map<Key, Ticket>
  type Codes = map<Key, Code>
  type Families = map<Key, Family>
  type Accesses = map<Key, Access>
  type Refreshes = map<Key, Refresh>

  datatype Grants = Grants(
    tickets: Tickets,
    codes: Codes,
    families: Families,
    access: Accesses,
    refresh: Refreshes)

  const NoGrants := Grants(map[], map[], map[], map[], map[])

  /** The keys drawn for a new pair of tokens. */
  datatype Pair = Pair(access: Key, refresh: Key)

  datatype Event =
    | BeginApproval(request: Authorization, cookie: Key, drawn: Option<Key>)
    | Deny(ticket: Key, cookie: Key)
    | Approve(ticket: Key, cookie: Key, owner: bool, drawn: Option<Key>)
    | Exchange(code: Key, claim: Claim, drawn: Option<Key>, pair: Option<Pair>)
    | Rotate(token: Key, client: ClientId, pair: Option<Pair>)
    | Revoke(token: Key, client: ClientId)
    | Validate(token: Key, length: nat)

  datatype Response =
    | TicketShown(ticket: Key)
    | CodeGranted(code: Key)
    | TokensIssued(pair: Pair)
    | Answer(valid: bool)
    | Revoked
    | AccessDenied
    | InvalidRequest
    | WrongOwner
    | InvalidGrant
    | AlreadyUsed
    | Unavailable
    | ServerError

  // cleanup and revokeFamily -----------------------------------------------------------

  function LiveTickets(tickets: Tickets, now: int): Tickets {
    map k | k in tickets && now < tickets[k].expires :: tickets[k]
  }

  function LiveCodes(codes: Codes, now: int): Codes {
    map k | k in codes && now < codes[k].expires :: codes[k]
  }

  function LiveFamilies(families: Families, now: int): Families {
    map k | k in families && now < families[k].expires :: families[k]
  }

  function LiveAccess(access: Accesses, families: Families, now: int): Accesses {
    map k | k in access && now < access[k].expires && access[k].family in families :: access[k]
  }

  function LiveRefresh(refresh: Refreshes, families: Families): Refreshes {
    map k | k in refresh && refresh[k].family in families :: refresh[k]
  }

  function Cleanup(g: Grants, now: int): Grants {
    var families := LiveFamilies(g.families, now);
    Grants(LiveTickets(g.tickets, now), LiveCodes(g.codes, now), families,
           LiveAccess(g.access, families, now), LiveRefresh(g.refresh, families))
  }

  function AccessWithout(access: Accesses, family: Key): Accesses {
    map k | k in access && access[k].family != family :: access[k]
  }

  function RefreshWithout(refresh: Refreshes, family: Key): Refreshes {
    map k | k in refresh && refresh[k].family != family :: refresh[k]
  }

  function RevokeFamily(g: Grants, family: Key): Grants {
    g.(families := g.families - {family},
       access := AccessWithout(g.access, family),
       refresh := RefreshWithout(g.refresh, family))
  }

  // The handlers ---------------------------------------------------------------------------

  function BeginApprovalStep(g: Grants, request: Authorization, cookie: Key, drawn: Option<Key>, now: int)
    : (Grants, Response)
  {
    var c := Cleanup(g, now);
    if drawn.None? then (g, ServerError)
    else if |c.tickets| >= PENDING_LIMIT then (c, Unavailable)
    else (c.(tickets := c.tickets[drawn.value := Ticket(request, cookie, now + TICKET_LIFETIME)]),
          TicketShown(drawn.value))
  }

  predicate TicketAccepted(tickets: Tickets, ticket: Key, cookie: Key, now: int) {
    ticket in tickets && now < tickets[ticket].expires && tickets[ticket].cookie == cookie
  }

  function DenyStep(g: Grants, ticket: Key, cookie: Key, now: int): (Grants, Response) {
    var c := Cleanup(g, now);
    if !TicketAccepted(c.tickets, ticket, cookie, now) then (c, InvalidRequest)
    else (c.(tickets := c.tickets - {ticket}), AccessDenied)
  }

  function ApproveStep(g: Grants, ticket: Key, cookie: Key, owner: bool, drawn: Option<Key>, now: int)
    : (Grants, Response)
  {
    var c := Cleanup(g, now);
    if !TicketAccepted(c.tickets, ticket, cookie, now) then (c, InvalidRequest)
    else if !owner then (c, WrongOwner)
    else if |c.codes| >= PENDING_LIMIT then (c, Unavailable)
    else if drawn.None? then (c, ServerError)
    else
      var code := Code(c.tickets[ticket].request, now + CODE_LIFETIME, None);
      (c.(tickets := c.tickets - {ticket}, codes := c.codes[drawn.value := code]), CodeGranted(drawn.value))
  }

  /** The code's own authorization and proof (RFC 7636, section 4.6). */
  predicate Proves(request: Authorization, claim: Claim) {
    && request.client == claim.client && request.redirect == claim.redirect
    && request.resource == claim.resource && claim.proof == Some(request.challenge)
  }

  function IssueTokens(g: Grants, family: Key, pair: Pair, now: int): Grants {
    g.(access := g.access[pair.access := Access(family, now + ACCESS_LIFETIME)],
       refresh := g.refresh[pair.refresh := Refresh(family, false)])
  }

  /** The code remembers the family it was spent on. */
  function Spend(codes: Codes, code: Key, family: Key): Codes
    requires code in codes
  {
    codes[code := codes[code].(spent := Some(family))]
  }

  /** The grants after an exchange. */
  function ExchangedGrants(g: Grants, code: Key, client: ClientId, family: Key, pair: Pair, now: int): Grants
    requires code in g.codes
  {
    IssueTokens(g, family, pair, now)
      .(families := g.families[family := Family(client, now + REFRESH_LIFETIME)], codes := Spend(g.codes, code, family))
  }

  function ExchangeStep(g: Grants, key: Key, claim: Claim, drawn: Option<Key>, pair: Option<Pair>, now: int)
    : (Grants, Response)
  {
    var c := Cleanup(g, now);
    if key !in c.codes || now >= c.codes[key].expires || !Proves(c.codes[key].request, claim) then (c, InvalidGrant)
    else if c.codes[key].spent.Some? then (RevokeFamily(c, c.codes[key].spent.value), AlreadyUsed)
    else if |c.families| >= FAMILY_LIMIT || |c.refresh| >= REFRESH_LIMIT then (c, Unavailable)
    else if drawn.None? || pair.None? then (c, ServerError)
    else
      (ExchangedGrants(c, key, claim.client, drawn.value, pair.value, now), TokensIssued(pair.value))
  }

  function RotatedTokens(refresh: Refreshes, token: Key, family: Key, pair: Pair): Refreshes {
    refresh[pair.refresh := Refresh(family, false)][token := Refresh(family, true)]
  }

  /** The grants after a rotation. */
  function RotatedGrants(g: Grants, token: Key, family: Key, pair: Pair, now: int): Grants {
    IssueTokens(g, family, pair, now).(refresh := RotatedTokens(g.refresh, token, family, pair))
  }

  predicate RefreshAccepted(g: Grants, token: Key, client: ClientId, now: int) {
    token in g.refresh
    && var family := g.refresh[token].family;
       family in g.families && now < g.families[family].expires && g.families[family].client == client
  }

  function RotateStep(g: Grants, token: Key, client: ClientId, pair: Option<Pair>, now: int): (Grants, Response) {
    var c := Cleanup(g, now);
    if !RefreshAccepted(c, token, client, now) then (c, InvalidGrant)
    else
      var family := c.refresh[token].family;
      if c.refresh[token].used then (RevokeFamily(c, family), AlreadyUsed)
      else if |c.refresh| >= REFRESH_LIMIT then (c, Unavailable)
      else if pair.None? then (c, ServerError)
      else (RotatedGrants(c, token, family, pair.value, now), TokensIssued(pair.value))
  }

  /** The family of a token, whichever kind it is. */
  function FamilyOf(g: Grants, token: Key): Option<Key> {
    if token in g.refresh then Some(g.refresh[token].family)
    else if token in g.access then Some(g.access[token].family)
    else None
  }

  /** RFC 7009, section 2.2: the answer does not tell whether the token existed. */
  function RevokeStep(g: Grants, token: Key, client: ClientId, now: int): (Grants, Response) {
    var c := Cleanup(g, now);
    var family := FamilyOf(c, token);
    if family.Some? && family.value in c.families && c.families[family.value].client == client
    then (RevokeFamily(c, family.value), Revoked)
    else (c, Revoked)
  }

  function ValidateStep(g: Grants, token: Key, length: nat, now: int): (Grants, Response) {
    if length == 0 || length > MAX_TOKEN then (g, Answer(false))
    else
      var c := Cleanup(g, now);
      (c, Answer(token in c.access && now < c.access[token].expires
                 && c.access[token].family in c.families && now < c.families[c.access[token].family].expires))
  }

  function Step(g: Grants, e: Event, now: int): (Grants, Response) {
    match e
    case BeginApproval(request, cookie, drawn) => BeginApprovalStep(g, request, cookie, drawn, now)
    case Deny(ticket, cookie) => DenyStep(g, ticket, cookie, now)
    case Approve(ticket, cookie, owner, drawn) => ApproveStep(g, ticket, cookie, owner, drawn, now)
    case Exchange(code, claim, drawn, pair) => ExchangeStep(g, code, claim, drawn, pair, now)
    case Rotate(token, client, pair) => RotateStep(g, token, client, pair, now)
    case Revoke(token, client) => RevokeStep(g, token, client, now)
    case Validate(token, length) => ValidateStep(g, token, length, now)
  }

  // The object -----------------------------------------------------------------------------

  class Server {
    var tickets: Tickets
    var codes: Codes
    var families: Families
    var access: Accesses
    var refresh: Refreshes

    ghost function View(): Grants
      reads this
    {
      Grants(tickets, codes, families, access, refresh)
    }

    constructor ()
      ensures View() == NoGrants
    {
      tickets, codes, families, access, refresh := map[], map[], map[], map[], map[];
    }

    method SweepTickets(now: int)
      modifies this`tickets
      ensures tickets == LiveTickets(old(tickets), now)
    {
      var left := tickets.Keys;
      while left != {}
        invariant left <= tickets.Keys <= old(tickets).Keys
        invariant forall k :: k in tickets ==> tickets[k] == old(tickets)[k]
        invariant forall k :: k in old(tickets) && k !in left ==> (k in tickets <==> now < old(tickets)[k].expires)
        decreases |left|
      {
        var key := Pick(left);
        left := left - {key};
        if now >= tickets[key].expires {
          tickets := tickets - {key};
        }
      }
      assert forall k :: k in tickets <==> k in LiveTickets(old(tickets), now);
      assert forall k :: k in tickets ==> tickets[k] == LiveTickets(old(tickets), now)[k];
    }

    method SweepCodes(now: int)
      modifies this`codes
      ensures codes == LiveCodes(old(codes), now)
    {
      var left := codes.Keys;
      while left != {}
        invariant left <= codes.Keys <= old(codes).Keys
        invariant forall k :: k in codes ==> codes[k] == old(codes)[k]
        invariant forall k :: k in old(codes) && k !in left ==> (k in codes <==> now < old(codes)[k].expires)
        decreases |left|
      {
        var key := Pick(left);
        left := left - {key};
        if now >= codes[key].expires {
          codes := codes - {key};
        }
      }
      assert forall k :: k in codes <==> k in LiveCodes(old(codes), now);
      assert forall k :: k in codes ==> codes[k] == LiveCodes(old(codes), now)[k];
    }

    method SweepFamilies(now: int)
      modifies this`families
      ensures families == LiveFamilies(old(families), now)
    {
      var left := families.Keys;
      while left != {}
        invariant left <= families.Keys <= old(families).Keys
        invariant forall k :: k in families ==> families[k] == old(families)[k]
        invariant forall k :: k in old(families) && k !in left ==> (k in families <==> now < old(families)[k].expires)
        decreases |left|
      {
        var key := Pick(left);
        left := left - {key};
        if now >= families[key].expires {
          families := families - {key};
        }
      }
      assert forall k :: k in families <==> k in LiveFamilies(old(families), now);
      assert forall k :: k in families ==> families[k] == LiveFamilies(old(families), now)[k];
    }

    method SweepAccess(now: int)
      modifies this`access
      ensures access == LiveAccess(old(access), families, now)
    {
      var left := access.Keys;
      while left != {}
        invariant left <= access.Keys <= old(access).Keys
        invariant forall k :: k in access ==> access[k] == old(access)[k]
        invariant forall k :: k in old(access) && k !in left ==>
          (k in access <==> now < old(access)[k].expires && old(access)[k].family in families)
        decreases |left|
      {
        var key := Pick(left);
        left := left - {key};
        if now >= access[key].expires || access[key].family !in families {
          access := access - {key};
        }
      }
      assert forall k :: k in access <==> k in LiveAccess(old(access), families, now);
      assert forall k :: k in access ==> access[k] == LiveAccess(old(access), families, now)[k];
    }

    method SweepRefresh()
      modifies this`refresh
      ensures refresh == LiveRefresh(old(refresh), families)
    {
      var left := refresh.Keys;
      while left != {}
        invariant left <= refresh.Keys <= old(refresh).Keys
        invariant forall k :: k in refresh ==> refresh[k] == old(refresh)[k]
        invariant forall k :: k in old(refresh) && k !in left ==> (k in refresh <==> old(refresh)[k].family in families)
        decreases |left|
      {
        var key := Pick(left);
        left := left - {key};
        if refresh[key].family !in families {
          refresh := refresh - {key};
        }
      }
      assert forall k :: k in refresh <==> k in LiveRefresh(old(refresh), families);
      assert forall k :: k in refresh ==> refresh[k] == LiveRefresh(old(refresh), families)[k];
    }

    method CleanupAt(now: int)
      modifies this
      ensures View() == Cleanup(old(View()), now)
    {
      SweepTickets(now);
      SweepCodes(now);
      SweepFamilies(now);
      SweepAccess(now);
      SweepRefresh();
    }

    method RevokeAll(family: Key)
      modifies this
      ensures View() == RevokeFamily(old(View()), family)
    {
      families := families - {family};
      DropAccess(family);
      DropRefresh(family);
    }

    method DropAccess(family: Key)
      modifies this`access
      ensures access == AccessWithout(old(access), family)
    {
      var left := access.Keys;
      while left != {}
        invariant left <= access.Keys <= old(access).Keys
        invariant forall k :: k in access ==> access[k] == old(access)[k]
        invariant forall k :: k in old(access) && k !in left ==> (k in access <==> old(access)[k].family != family)
        decreases |left|
      {
        var key := Pick(left);
        left := left - {key};
        if access[key].family == family {
          access := access - {key};
        }
      }
      assert forall k :: k in access <==> k in AccessWithout(old(access), family);
      assert forall k :: k in access ==> access[k] == AccessWithout(old(access), family)[k];
    }

    method DropRefresh(family: Key)
      modifies this`refresh
      ensures refresh == RefreshWithout(old(refresh), family)
    {
      var left := refresh.Keys;
      while left != {}
        invariant left <= refresh.Keys <= old(refresh).Keys
        invariant forall k :: k in refresh ==> refresh[k] == old(refresh)[k]
        invariant forall k :: k in old(refresh) && k !in left ==> (k in refresh <==> old(refresh)[k].family != family)
        decreases |left|
      {
        var key := Pick(left);
        left := left - {key};
        if refresh[key].family == family {
          refresh := refresh - {key};
        }
      }
      assert forall k :: k in refresh <==> k in RefreshWithout(old(refresh), family);
      assert forall k :: k in refresh ==> refresh[k] == RefreshWithout(old(refresh), family)[k];
    }

    method Authorize(request: Authorization, cookie: Key, drawn: Option<Key>, now: int) returns (r: Response)
      modifies this
      ensures (View(), r) == BeginApprovalStep(old(View()), request, cookie, drawn, now)
    {
      if drawn.None? {
        return ServerError;
      }
      CleanupAt(now);
      if |tickets| >= PENDING_LIMIT {
        return Unavailable;
      }
      tickets := tickets[drawn.value := Ticket(request, cookie, now + TICKET_LIFETIME)];
      r := TicketShown(drawn.value);
    }

    method Decide(ticket: Key, cookie: Key, deny: bool, owner: bool, drawn: Option<Key>, now: int)
      returns (r: Response)
      modifies this
      ensures (View(), r) == if deny then DenyStep(old(View()), ticket, cookie, now)
                             else ApproveStep(old(View()), ticket, cookie, owner, drawn, now)
    {
      CleanupAt(now);
      if ticket !in tickets || now >= tickets[ticket].expires || tickets[ticket].cookie != cookie {
        return InvalidRequest;
      }
      if deny {
        tickets := tickets - {ticket};
        return AccessDenied;
      }
      if !owner {
        return WrongOwner;
      }
      if |codes| >= PENDING_LIMIT {
        return Unavailable;
      }
      if drawn.None? {
        return ServerError;
      }
      codes := codes[drawn.value := Code(tickets[ticket].request, now + CODE_LIFETIME, None)];
      tickets := tickets - {ticket};
      r := CodeGranted(drawn.value);
    }

    method Issue(family: Key, pair: Pair, now: int)
      modifies this`access, this`refresh
      ensures View() == IssueTokens(old(View()), family, pair, now)
    {
      access := access[pair.access := Access(family, now + ACCESS_LIFETIME)];
      refresh := refresh[pair.refresh := Refresh(family, false)];
    }

    method ExchangeCode(key: Key, claim: Claim, drawn: Option<Key>, pair: Option<Pair>, now: int)
      returns (r: Response)
      modifies this
      ensures (View(), r) == ExchangeStep(old(View()), key, claim, drawn, pair, now)
    {
      CleanupAt(now);
      if key !in codes || now >= codes[key].expires || !Proves(codes[key].request, claim) {
        return InvalidGrant;
      }
      var code := codes[key];
      if code.spent.Some? {
        RevokeAll(code.spent.value);
        return AlreadyUsed;
      }
      if |families| >= FAMILY_LIMIT || |refresh| >= REFRESH_LIMIT {
        return Unavailable;
      }
      if drawn.None? || pair.None? {
        return ServerError;
      }
      Issue(drawn.value, pair.value, now);
      families := families[drawn.value := Family(claim.client, now + REFRESH_LIFETIME)];
      codes := codes[key := code.(spent := drawn)];
      r := TokensIssued(pair.value);
    }

    method RotateToken(token: Key, client: ClientId, pair: Option<Pair>, now: int) returns (r: Response)
      modifies this
      ensures (View(), r) == RotateStep(old(View()), token, client, pair, now)
    {
      CleanupAt(now);
      if token !in refresh || refresh[token].family !in families
         || now >= families[refresh[token].family].expires || families[refresh[token].family].client != client {
        return InvalidGrant;
      }
      var grant := refresh[token];
      if grant.used {
        RevokeAll(grant.family);
        return AlreadyUsed;
      }
      if |refresh| >= REFRESH_LIMIT {
        return Unavailable;
      }
      if pair.None? {
        return ServerError;
      }
      Issue(grant.family, pair.value, now);
      refresh := refresh[token := grant.(used := true)];
      r := TokensIssued(pair.value);
    }

    method RevokeToken(token: Key, client: ClientId, now: int) returns (r: Response)
      modifies this
      ensures (View(), r) == RevokeStep(old(View()), token, client, now)
    {
      CleanupAt(now);
      var family := None;
      if token in refresh {
        family := Some(refresh[token].family);
      } else if token in access {
        family := Some(access[token].family);
      }
      if family.Some? && family.value in families && families[family.value].client == client {
        RevokeAll(family.value);
      }
      r := Revoked;
    }

    method ValidateBearer(token: Key, length: nat, now: int) returns (valid: bool)
      modifies this
      ensures (View(), Answer(valid)) == ValidateStep(old(View()), token, length, now)
    {
      if length == 0 || length > MAX_TOKEN {
        return false;
      }
      CleanupAt(now);
      if token !in access || now >= access[token].expires {
        return false;
      }
      var family := access[token].family;
      valid := family in families && now < families[family].expires;
    }
  }
}

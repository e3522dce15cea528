/** Identity and access in server.js: the bearer-token middleware and the
    two login routes.  Token signing and verification (signature, the
    8-hour expiry) and the bcrypt PIN comparison are parameters: the model
    says what the server does with their answers, not how they compute them. */
module Auth {
  import opened Wrappers
  import opened Pages
  import opened Fields
  import Projections

  /** The payload of a bearer token. */
  datatype Claims = Claims(role: Option<string>, standId: Option<Id>, standName: Option<string>)

  /** The payload a stand login signs. */
  function StandClaims(stand: Projections.StandCredentials): Claims {
    Claims(Some("stand"), Some(stand.id), Some(stand.name))
  }

  /** The payload the admin login signs. */
  function AdminClaims(): Claims {
    Claims(Some("admin"), None, None)
  }

  /** What a response carries besides its status: the status text that
      `sendStatus` sends, a message, a token (shown by the payload it signs)
      or the log list. */
  datatype Payload = StatusText | Message | AccessToken(claims: Claims) | LogList(logs: seq<Projections.LogRecord>)

  /** A response, or none at all when a handler's promise rejects
      without a catch. */
  datatype Reply = Reply(status: int, payload: Payload) | NoReply

  /** The token of an Authorization header: `authHeader && authHeader.split(' ')[1]`.
      An empty header is falsy and is itself the token, so it is not `null`. */
  function BearerToken(header: Option<string>): (token: Option<string>)
    ensures header == None ==> token == None
    ensures header == Some("") ==> token == Some("")
    ensures header.Some? && header.value != "" ==> (token.Some? <==> ' ' in header.value)
    ensures header.Some? && header.value != "" && token.Some? ==> ' ' !in token.value
  {
    match header
    case None => None
    case Some(h) =>
      if h == "" then Some("")
      else
        var fields := Split(h);
        if |fields| >= 2 then Some(fields[1]) else None
  }

  /** The token is the second space-separated field, whatever the scheme
      word before it says and whatever follows it. */
  lemma BearerTokenIsSecondField(scheme: string, token: string, rest: Option<string>)
    requires ' ' !in scheme && ' ' !in token
    ensures BearerToken(Some(scheme + " " + token)) == Some(token)
    ensures rest.Some? ==> BearerToken(Some(scheme + " " + token + " " + rest.value)) == Some(token)
  {
    SplitPrefixed(scheme, token);
    SplitWord(token);
    if rest.Some? {
      assert scheme + " " + token + " " + rest.value == scheme + " " + (token + " " + rest.value);
      SplitPrefixed(scheme, token + " " + rest.value);
      SplitPrefixed(token, rest.value);
    }
  }

  /** The middleware's verdict on a request. */
  datatype AuthResult = Unauthorized | Forbidden | Authenticated(user: Claims)

  /** authenticateToken: 401 without a token, 403 when verification fails,
      otherwise the decoded payload. */
  function Authenticate(header: Option<string>, verify: string -> Option<Claims>): (r: AuthResult)
    ensures r == Unauthorized <==> BearerToken(header).None?
    ensures r == Forbidden <==> BearerToken(header).Some? && verify(BearerToken(header).value).None?
    ensures r.Authenticated? ==> verify(BearerToken(header).value) == Some(r.user)
  {
    match BearerToken(header)
    case None => Unauthorized
    case Some(token) =>
      match verify(token)
      case None => Forbidden
      case Some(user) => Authenticated(user)
  }

  /** A missing header, or one without a space, is refused with 401 before
      anything is verified. */
  lemma NoSecondFieldUnauthorized(header: Option<string>, verify: string -> Option<Claims>)
    requires header.None? || (header.value != "" && ' ' !in header.value)
    ensures Authenticate(header, verify) == Unauthorized
  {
  }

  /** An empty header does reach verification: it is answered 403 when the
      verifier rejects the empty token, not 401. */
  lemma EmptyHeaderReachesVerify(verify: string -> Option<Claims>)
    requires verify("") == None
    ensures Authenticate(Some(""), verify) == Forbidden
  {
  }

  /** The request and response objects of one Express request, as far as
      the middleware and the protected routes touch them. */
  class Exchange {
    /** `req.user` */
    var user: Option<Claims>
    /** what has been sent on `res`, once something has */
    var sent: Option<Reply>
    /** how many times `next` has been invoked */
    var nextCalls: nat

    constructor ()
      ensures user == None && sent == None && nextCalls == 0
    {
      user := None;
      sent := None;
      nextCalls := 0;
    }

    /** authenticateToken(req, res, next). */
    method AuthenticateToken(header: Option<string>, verify: string -> Option<Claims>)
      modifies this
      ensures Authenticate(header, verify) == Unauthorized ==>
        sent == Some(Reply(401, StatusText)) && user == old(user) && nextCalls == old(nextCalls)
      ensures Authenticate(header, verify) == Forbidden ==>
        sent == Some(Reply(403, StatusText)) && user == old(user) && nextCalls == old(nextCalls)
      ensures Authenticate(header, verify).Authenticated? ==>
        sent == old(sent) && user == Some(Authenticate(header, verify).user) && nextCalls == old(nextCalls) + 1
    {
      var token := BearerToken(header);
      if token == None {
        sent := Some(Reply(401, StatusText));
        return;
      }
      var decoded := verify(token.value);
      if decoded == None {
        sent := Some(Reply(403, StatusText));
        return;
      }
      user := decoded;
      nextCalls := nextCalls + 1;
    }
  }

  /** JavaScript truthiness of a string field of the request body. */
  predicate Truthy(v: Option<string>) {
    v.Some? && v.value != ""
  }

  /** The body of a stand login. */
  datatype StandLoginBody = StandLoginBody(standName: Option<string>, pin: Option<string>)

  /** findStandByName(name): the store's name-filtered query (which may
      reject) followed by the projection (which may throw).  A helper of
      StandLogin. */
  function LookupStand(query: string -> Result<seq<StandPage>>, name: string): Result<Option<Projections.StandCredentials>> {
    match query(name)
    case Threw => Threw
    case Ok(results) => Projections.FindStandByName(results)
  }

  /** POST /api/auth/stand.  The route has no try/catch, so a rejected
      lookup leaves the request without a response. */
  function StandLogin(
    body: StandLoginBody,
    query: string -> Result<seq<StandPage>>,
    pinMatches: (string, string) -> bool): (r: Reply)
    ensures !Truthy(body.standName) || !Truthy(body.pin) ==> r == Reply(400, Message)
    ensures Truthy(body.standName) && Truthy(body.pin) ==>
      var found := LookupStand(query, body.standName.value);
      && (r == NoReply <==> found.Threw?)
      && (r == Reply(404, Message) <==> found == Ok(None))
      && (found.Ok? && found.value.Some? ==>
            r == (if pinMatches(body.pin.value, found.value.value.pinHash)
                  then Reply(200, AccessToken(StandClaims(found.value.value)))
                  else Reply(403, Message)))
  {
    if !Truthy(body.standName) || !Truthy(body.pin) then Reply(400, Message)
    else
      match LookupStand(query, body.standName.value)
      case Threw => NoReply
      case Ok(None) => Reply(404, Message)
      case Ok(Some(stand)) =>
        if !pinMatches(body.pin.value, stand.pinHash) then Reply(403, Message)
        else Reply(200, AccessToken(StandClaims(stand)))
  }

  /** A stand login that issues a token signs the role `stand` with the id
      and first title fragment of the first page the name query returned. */
  lemma StandLoginIssuesFirstResult(
    body: StandLoginBody,
    query: string -> Result<seq<StandPage>>,
    pinMatches: (string, string) -> bool)
    requires StandLogin(body, query, pinMatches).Reply?
    requires StandLogin(body, query, pinMatches).status == 200
    ensures Truthy(body.standName) && Truthy(body.pin)
    ensures query(body.standName.value).Ok?
    ensures var results := query(body.standName.value).value;
      && |results| > 0
      && StandLogin(body, query, pinMatches).payload
           == AccessToken(Claims(Some("stand"), Some(results[0].id), Some(results[0].title[0])))
      && pinMatches(body.pin.value, results[0].pinText[0])
  {
  }

  /** A login with a missing field is decided before the store is asked:
      neither the query nor the PIN check affects the answer. */
  lemma IncompleteLoginSkipsLookup(
    body: StandLoginBody,
    q1: string -> Result<seq<StandPage>>, q2: string -> Result<seq<StandPage>>,
    p1: (string, string) -> bool, p2: (string, string) -> bool)
    requires !Truthy(body.standName) || !Truthy(body.pin)
    ensures StandLogin(body, q1, p1) == StandLogin(body, q2, p2)
  {
  }

  /** POST /api/auth/admin: strict equality with the configured password,
      where an absent value equals only an absent value.  Here `None` stands
      for `undefined` alone: a body password `null` is not modelled. */
  function AdminLogin(password: Option<string>, adminPassword: Option<string>): (r: Reply)
    ensures r.Reply? && (r.status == 200 || r.status == 403)
    ensures r.status == 200 <==> password == adminPassword
    ensures r.status == 200 ==> r.payload == AccessToken(AdminClaims())
  {
    if password == adminPassword then Reply(200, AccessToken(AdminClaims()))
    else Reply(403, Message)
  }

  /** With no admin password configured, a body without a password is
      granted an admin token, and any given password is refused. */
  lemma UnsetAdminPassword(password: Option<string>)
    ensures AdminLogin(password, None).status == 200 <==> password == None
  {
  }
}

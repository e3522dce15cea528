/** The protected routes of server.js: POST /api/scores and
    GET /api/admin/logs, each behind the token middleware. */
module Routes {
  import opened Wrappers
  import opened Pages
  import opened Auth
  import Projections
  import Ledger

  /** The body of a score submission.  A `standId` the client sends is
      kept to show that the route never reads it. */
  datatype ScoreBody = ScoreBody(teamId: Option<Id>, points: Option<int>, standId: Option<Id>)

  /** What the score route does once the middleware has let it through. */
  datatype ScoreAction = Forbid | Submit(teamId: Option<Id>, standId: Option<Id>, points: Option<int>)

  /** The role gate of POST /api/scores: only a `stand` token gets through,
      and the stand is the one named by the token. */
  function ScoreRoute(user: Claims, body: ScoreBody): (a: ScoreAction)
    ensures a == Forbid <==> user.role != Some("stand")
    ensures a.Submit? ==> a.standId == user.standId
    ensures a.Submit? ==> a.teamId == body.teamId && a.points == body.points
  {
    if user.role != Some("stand") then Forbid
    else Submit(body.teamId, user.standId, body.points)
  }

  /** The stand id in the body has no influence on the route. */
  lemma ScoreRouteIgnoresBodyStand(user: Claims, body: ScoreBody, claimed: Option<Id>)
    ensures ScoreRoute(user, body) == ScoreRoute(user, body.(standId := claimed))
  {
  }

  /** An admin token never submits scores; a token from a stand login
      submits as the stand it was issued for. */
  lemma TokensFromLoginsAtScoreRoute(
    login: StandLoginBody,
    query: string -> Result<seq<StandPage>>,
    pinMatches: (string, string) -> bool,
    body: ScoreBody)
    ensures ScoreRoute(AdminClaims(), body) == Forbid
    ensures var r := StandLogin(login, query, pinMatches);
      r.Reply? && r.payload.AccessToken? ==>
        ScoreRoute(r.payload.claims, body)
          == Submit(body.teamId, Some(query(login.standName.value).value[0].id), body.points)
  {
    var r := StandLogin(login, query, pinMatches);
    if r.Reply? && r.payload.AccessToken? {
      StandLoginIssuesFirstResult(login, query, pinMatches);
    }
  }

  /** GET /api/admin/logs after the middleware: 403 for every role but
      `admin` whatever the Logs query would give, else the projected logs,
      or 500 when the query rejects. */
  function AdminLogsRoute(user: Claims, logs: Result<seq<LogPage>>): (r: Reply)
    ensures user.role != Some("admin") ==> r == Reply(403, StatusText)
    ensures user.role == Some("admin") ==>
      r == (if logs.Threw? then Reply(500, Message)
            else Reply(200, LogList(Projections.GetScoreLogs(logs.value))))
  {
    if user.role != Some("admin") then Reply(403, StatusText)
    else match logs
      case Threw => Reply(500, Message)
      case Ok(pages) => Reply(200, LogList(Projections.GetScoreLogs(pages)))
  }

  /** A token from any stand login is refused at the logs route. */
  lemma StandTokenCannotReadLogs(
    login: StandLoginBody,
    query: string -> Result<seq<StandPage>>,
    pinMatches: (string, string) -> bool,
    logs: Result<seq<LogPage>>)
    requires StandLogin(login, query, pinMatches).Reply?
    requires StandLogin(login, query, pinMatches).payload.AccessToken?
    ensures AdminLogsRoute(StandLogin(login, query, pinMatches).payload.claims, logs) == Reply(403, StatusText)
  {
  }

  /** POST /api/scores with the middleware in front.  The store calls'
      outside values (clock text, assigned page id and creation time, which
      call rejects) are parameters.  An absent team id, stand id or point
      value makes the store refuse the log page, so nothing is written. */
  method PostScores(
    ex: Exchange, store: Ledger.Store,
    header: Option<string>, verify: string -> Option<Claims>, body: ScoreBody,
    stamp: string, pageId: Id, created: string, fault: Ledger.Fault)
    modifies ex, store
    ensures Authenticate(header, verify) == Unauthorized ==>
      ex.sent == Some(Reply(401, StatusText)) && store.State() == old(store.State())
    ensures Authenticate(header, verify) == Forbidden ==>
      ex.sent == Some(Reply(403, StatusText)) && store.State() == old(store.State())
    ensures !Authenticate(header, verify).Authenticated? ==>
      ex.user == old(ex.user) && ex.nextCalls == old(ex.nextCalls)
    ensures Authenticate(header, verify).Authenticated? ==>
      ex.user == Some(Authenticate(header, verify).user)
    ensures Authenticate(header, verify).Authenticated? ==>
      var action := ScoreRoute(Authenticate(header, verify).user, body);
      && ex.nextCalls == old(ex.nextCalls) + 1
      && (action == Forbid ==> ex.sent == Some(Reply(403, StatusText)) && store.State() == old(store.State()))
      && (action.Submit? && !(action.teamId.Some? && action.standId.Some? && action.points.Some?) ==>
            ex.sent == Some(Reply(500, Message)) && store.State() == old(store.State()))
      && (action.Submit? && action.teamId.Some? && action.standId.Some? && action.points.Some? ==>
            var call := Ledger.Call(action.teamId.value, action.standId.value, action.points.value, stamp, pageId, created);
            && store.State() == Ledger.Step(old(store.State()), call, fault)
            && ex.sent == Some(if fault == Ledger.NoFault && call.teamId in old(store.teams)
                               then Reply(201, Message) else Reply(500, Message)))
  {
    var calls := ex.nextCalls;
    ex.AuthenticateToken(header, verify);
    if ex.nextCalls == calls {
      return;
    }
    var user := ex.user.value;
    if user.role != Some("stand") {
      ex.sent := Some(Reply(403, StatusText));
      return;
    }
    var standId := user.standId;
    match (body.teamId, standId, body.points)
    case (Some(t), Some(s), Some(p)) =>
      var ok := store.AddScore(t, s, p, stamp, pageId, created, fault);
      ex.sent := Some(if ok then Reply(201, Message) else Reply(500, Message));
    case _ =>
      ex.sent := Some(Reply(500, Message));
  }

  /** GET /api/admin/logs with the middleware in front; `logs` is the
      answer of the Logs query sorted by Timestamp, descending. */
  method GetAdminLogs(ex: Exchange, header: Option<string>, verify: string -> Option<Claims>, logs: Result<seq<LogPage>>)
    modifies ex
    ensures Authenticate(header, verify) == Unauthorized ==> ex.sent == Some(Reply(401, StatusText))
    ensures Authenticate(header, verify) == Forbidden ==> ex.sent == Some(Reply(403, StatusText))
    ensures !Authenticate(header, verify).Authenticated? ==>
      ex.user == old(ex.user) && ex.nextCalls == old(ex.nextCalls)
    ensures Authenticate(header, verify).Authenticated? ==>
      ex.user == Some(Authenticate(header, verify).user)
    ensures Authenticate(header, verify).Authenticated? ==>
      ex.sent == Some(AdminLogsRoute(Authenticate(header, verify).user, logs))
      && ex.nextCalls == old(ex.nextCalls) + 1
  {
    var calls := ex.nextCalls;
    ex.AuthenticateToken(header, verify);
    if ex.nextCalls == calls {
      return;
    }
    var user := ex.user.value;
    if user.role != Some("admin") {
      ex.sent := Some(Reply(403, StatusText));
      return;
    }
    match logs
    case Threw =>
      ex.sent := Some(Reply(500, Message));
    case Ok(pages) =>
      ex.sent := Some(Reply(200, LogList(Projections.GetScoreLogs(pages))));
  }
}

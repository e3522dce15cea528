# JAE-back score ledger and access decisions, modelled in Dafny

This project models the back end of a live-event scoreboard called JAE-back. Stands
(point-awarding operators) log in with a PIN and submit points for teams. An
administrator logs in with a password and reads the point log. The public sees the
teams ranked by score. The data lives in three Notion databases: Teams, Stands and Logs.

The model covers two parts:

- **The ledger write path and read projections** (`utils/notion.js`).
  - `addScore` first appends a page to Logs, then reads the team's `Score Total`, then
    writes back `(current || 0) + points`.
  - In the model, the Teams table is a map from page id to a possibly empty score, and
    the Logs table is the sequence of its pages. Both are fields of the class
    `Ledger.Store`.
  - The ledger invariant `Ledger.Reconciled` says that each team's score equals the
    points of the log entries whose team relation names it.
  - The invariant is proved for one call, and for any sequence of successful calls.
    Execution is sequential.
  - The projections `getTeams`, `getStandsList`, `findStandByName` and `getScoreLogs`
    are functions over the pages a query returns. Titles and rich texts are lists of
    text fragments, so `title[0]` on an empty list is a thrown error.
- **The request decisions of `server.js`.**
  - Bearer-token extraction follows JavaScript's `split(' ')` exactly (module `Fields`).
  - The middleware is a method on `Auth.Exchange`, the request/response state: it sets
    `req.user`, sends the response and counts the calls to `next`.
  - The stand and admin logins are decision functions.
  - The role gates of `POST /api/scores` and `GET /api/admin/logs` are decision
    functions, composed with the middleware and the store in `Routes.PostScores` and
    `Routes.GetAdminLogs`.

Everything outside the server is a parameter:

- jwt verification (including the 8-hour expiry check) is a function from token to
  optional payload.
- jwt signing is not modelled: an issued token is shown by the payload it would
  sign, and signing is assumed to succeed.
- bcrypt comparison is a predicate on (PIN, hash).
- The Stands name query is a function from name to result.
- The server clock's ISO text, and the page id and creation time the store assigns,
  are parameters.
- Which awaited store call of `addScore` rejects is a `Ledger.Fault` parameter.

Where the code and the intended behaviour differ, the model follows the code:

- An empty `Authorization` header is falsy, so `authHeader && …` yields `""` itself.
  `"" == null` is false, so that request reaches jwt verification and gets 403, not 401
  (`Auth.EmptyHeaderReachesVerify`). A header `"Bearer "` also yields the empty token.
- The scheme word before the token is never checked (`Auth.BearerTokenIsSecondField`).
- `/api/auth/stand` has no try/catch. When the stand query rejects, or the first
  result has no title or PIN text, the handler's promise rejects and the handler
  itself sends nothing (`NoReply`). What the server then does depends on versions
  the source does not fix: Express 4 leaves the rejection unhandled, which on
  Node 15 or later ends the process; Express 5 hands it to its default error
  handler, which answers 500. The model stops at the handler.
- With `ADMIN_PASSWORD` unset, a login body without a password gets an admin token,
  because `undefined === undefined` (`Auth.UnsetAdminPassword`).
- `findStandByName` returns the name from the first title fragment of the first
  result. This is not necessarily the name that was queried.

## Model

| member | source | states |
|---|---|---|
| `Pages.FirstId` | utils/notion.js:86-87 | `relation[0]?.id` is present exactly when the relation is non-empty, and then it is its first id |
| `Pages.FirstText` | utils/notion.js:16 | `title[0].text.content` succeeds exactly when there is a fragment, and then it is the first one |
| `Projections.GetTeams` | utils/notion.js:9-19 | succeeds iff every page has a title; then there is one record per page, in query order, with the page's id, first title fragment and score copied |
| `Projections.GetTeamsDescending` | utils/notion.js:10-18 | if the store returns pages sorted by score, descending with empty scores last, the leaderboard is non-increasing in the same order |
| `Projections.GetStandsList` | utils/notion.js:22-28 | succeeds iff every page has a title; then there is one record per page, in order, with id and first title fragment |
| `Projections.FindStandByName` | utils/notion.js:32-44 | no results give no stand; otherwise the first result's id, first title fragment and first PIN-text fragment, or a throw when either text is empty |
| `Projections.FindStandUsesFirstResultOnly` | utils/notion.js:37-38 | results after the first never change the answer |
| `Projections.GetScoreLogs` | utils/notion.js:73-91 | one record per page, in order; id, points and timestamp copied; team and stand ids are the first relation entries, absent for an empty relation |
| `Ledger.AwardedLog` | utils/notion.js:49-57 | the created entry carries the given points and exactly one team relation (teamId) and one stand relation (standId) |
| `Ledger.Step` | utils/notion.js:47-70 | a failed create writes nothing; otherwise exactly one entry is appended after the unchanged old ones; only a fully successful call rewrites teamId's score, to old score (empty counts as 0) plus points; other teams are unchanged |
| `Ledger.Store.AddScore` | utils/notion.js:47-70 | the new tables are `Step` of the old ones; success iff no store call rejects and the team page exists; a successful call keeps a reconciled ledger reconciled |
| `Ledger.AppendSum` | utils/notion.js:49-57 | appending an entry raises each team's ledger sum by that entry's contribution to it |
| `Ledger.AwardKeepsReconciled` | utils/notion.js:47-70 | if every score equals its ledger sum before a successful call, the same holds after it |
| `Ledger.OrphanedEntry` | utils/notion.js:57-69 | when the retrieve or the update rejects, the entry stays logged; that team's sum exceeds its score by exactly the points, and every other team stays reconciled |
| `Ledger.ZeroPointAward` | utils/notion.js:49-67 | a zero-point call still appends an entry with points 0, leaves the score numerically unchanged, and turns an empty score into 0 |
| `Ledger.AwardedLogReadsBack` | utils/notion.js:49-57 | the entry addScore writes is read back by getScoreLogs with the same id, points, timestamp, team and stand |
| `Ledger.Replay` | utils/notion.js:47-70 | a run of calls keeps the set of teams, keeps the old entries, and appends exactly one entry per call, in call order |
| `Ledger.ReplayKeepsReconciled` | utils/notion.js:47-70 | after any run of successful calls on existing teams, the ledger stays reconciled and each score has grown by exactly the points awarded to that team |
| `Ledger.EmptyLedgerReconciled` | utils/notion.js:61 | with no log entries, the ledger is reconciled iff every score is empty or 0 |
| `Ledger.ScoreValue` | utils/notion.js:61 | definition, no contract: the `Score Total` number or 0, so an empty or zero score reads as 0 |
| `Ledger.Contribution` | utils/notion.js:55 | definition, no contract: an entry counts toward a team only through the first id of its team relation, with an empty `Points` counting 0 |
| `Projections.LogRecordOf` | utils/notion.js:81-88 | definition, no contract: the record made of one log page; its properties are stated by `GetScoreLogs` |
| `Auth.Truthy` | server.js:62 | definition, no contract: a body string is truthy when present and non-empty |
| `Auth.StandClaims` | server.js:70 | definition, no contract: the payload `{role: 'stand', standId, standName}` of a stand token |
| `Auth.AdminClaims` | server.js:78 | definition, no contract: the payload `{role: 'admin'}` of an admin token |
| `Fields.Split` | server.js:21 | `split(' ')` gives at least one field; no field contains a space; there is a single field iff the text has no space |
| `Fields.JoinSplit` | server.js:21 | joining the fields with single spaces gives back the original text |
| `Fields.SplitJoin` | server.js:21 | splitting space-free fields joined by spaces gives back the fields |
| `Fields.SplitWord` | server.js:21 | a text without a space is one field |
| `Fields.SplitPrefixed` | server.js:21 | a space-free word, a space, then t splits into the word followed by the fields of t |
| `Auth.BearerToken` | server.js:20-22 | no header gives no token; an empty header gives the empty token; otherwise there is a token iff the header has a space, and the token has no space |
| `Auth.BearerTokenIsSecondField` | server.js:21 | for `scheme token` and `scheme token rest`, the token is the second field, whatever the scheme |
| `Auth.Authenticate` | server.js:19-29 | 401 iff there is no token; 403 iff there is a token that fails verification; otherwise the user is the decoded payload |
| `Auth.NoSecondFieldUnauthorized` | server.js:20-22 | a missing header, or a non-empty header without a space, is refused with 401 whatever the verifier does |
| `Auth.EmptyHeaderReachesVerify` | server.js:21-25 | an empty header is passed to verification and gets 403 when the empty token is rejected |
| `Auth.Exchange.AuthenticateToken` | server.js:19-29 | on 401 or 403 the response is sent, `req.user` is untouched and `next` is not called; on success `req.user` is the payload, nothing is sent, and `next` is called exactly once |
| `Auth.StandLogin` | server.js:60-72 | a missing or empty name or PIN gives 400 before any lookup; a throw gives no reply; an unknown stand gives 404; a PIN mismatch gives 403; otherwise 200 with a `stand` token holding the stand's id and name |
| `Auth.StandLoginIssuesFirstResult` | server.js:64-71 | an issued stand token names the first page of the query by that page's id and first title fragment, and the PIN matched that page's hash |
| `Auth.IncompleteLoginSkipsLookup` | server.js:61-62 | a login missing a field gets the same reply whatever the store query and the PIN check would answer |
| `Auth.AdminLogin` | server.js:75-83 | 200 with an admin token iff the password strictly equals the configured one; every other value gives 403 |
| `Auth.UnsetAdminPassword` | server.js:77 | with no configured password, exactly the bodies without a password get an admin token |
| `Routes.ScoreRoute` | server.js:89-92 | every role other than `stand` is forbidden; otherwise the submission uses the token's standId and the body's teamId and points |
| `Routes.ScoreRouteIgnoresBodyStand` | server.js:91-92 | a standId in the request body never changes the route's decision |
| `Routes.TokensFromLoginsAtScoreRoute` | server.js:70-92 | an admin token is forbidden at the score route; a token from a stand login submits as the first page of its stand query |
| `Routes.AdminLogsRoute` | server.js:104-113 | every role other than `admin` gets 403 whatever the logs query would give; for admins, a rejected query gives 500, otherwise 200 with the projected logs |
| `Routes.StandTokenCannotReadLogs` | server.js:105 | a token issued by any stand login gets 403 at the logs route |
| `Routes.PostScores` | server.js:88-101 | the middleware's refusals send 401 (no token) or 403 (rejected token), leave `req.user` alone and the store unchanged, and do not call `next`; on success `req.user` is the payload; a non-stand role gets 403 and addScore is never called; otherwise the store changes exactly as `Step` with the token's standId, with 201 on success and 500 when a store call rejects |
| `Routes.GetAdminLogs` | server.js:104-113 | the middleware's refusals send 401 or 403, leave `req.user` alone and do not call `next`; otherwise `req.user` is the payload, `next` runs once and the reply is the logs route's decision |

## Left out

- Express setup, CORS, dotenv, `app.listen`, and the Notion client construction: framework and bootstrap code.
- The public routes `GET /api/scores` and `GET /api/init-data` are not modelled. Only the projections they call are: `GetTeams` and `GetStandsList`.
- jwt signing and verification, the 8-hour expiry clock and bcrypt are parameters, not algorithms.
- The store's filter and sort semantics are not modelled. Query results are inputs, and the descending score order is an assumption of `GetTeamsDescending`.
- Notion returns at most one page of results (100) per query, and the code does not follow the cursor. The model's query results are whatever that one page holds.
- The lost-update race between the read and the write of `addScore` under concurrent requests is not modelled. Execution is sequential.
- There is no rollback. A rejection after the log write leaves the entry logged and the score unchanged. `OrphanedEntry` states this; automatic repair does not exist in the source.
- Request body values are `Option` of a string or an integer. Other JSON values are not modelled: numbers given as a name or PIN, `null` or fractional points, a non-string password.
- Routes.PostScores: a submission with an absent team id, stand id or point value is modelled as a store rejection of the log page (500, nothing written). This is an assumption about Notion's validation, not something the code checks.
- Ledger.Store.AddScore: a team id that names no Teams page is modelled as a successful log write followed by a failed retrieve. Whether Notion refuses such a relation already at the create is not modelled.
- The text of error messages is not modelled; a message body is only marked `Message`.
- jwt.sign is assumed never to throw (server.js:70 and 78). A sign that throws, for instance with `JWT_SECRET` unset, would make the login handler's promise reject instead of answering 200; the model always answers with the token payload.
- Ledger.Step, Ledger.AwardKeepsReconciled, Ledger.ReplayKeepsReconciled: points and scores are unbounded integers, while the source adds JavaScript numbers (IEEE doubles). `currentScore + points` rounds once a value leaves the range of ±2^53, and a JSON point value beyond it is already rounded when parsed, so the invariant holds of the source only while every value and every running total stays within ±2^53.
- The `sendStatus` replies carry the status text (`Unauthorized`, `Forbidden`) as their body; the model marks them `StatusText` without spelling the text.
- Auth.LookupStand is a helper of `Auth.StandLogin` (the store query followed by `FindStandByName`) with no contract of its own.
- The operations to update, delete or adjust a log entry or a team score, and stand creation, status and PIN reset, are not in this source and are not modelled.

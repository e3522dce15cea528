/** The read side of utils/notion.js: each function turns the pages of one
    store query into the plain records the server sends out.  The query
    itself (its filter and sort) is the store's; its results are the input. */
module Projections {
  import opened Wrappers
  import opened Pages

  /** A team as the public leaderboard shows it. */
  datatype Team = Team(id: Id, name: string, score: Option<int>)

  /** A stand as the form data lists it. */
  datatype Stand = Stand(id: Id, name: string)

  /** A stand as the login needs it. */
  datatype StandCredentials = StandCredentials(id: Id, name: string, pinHash: string)

  /** A log entry as the administrator sees it. */
  datatype LogRecord = LogRecord(
    id: Id,
    points: Option<int>,
    timestamp: string,
    teamId: Option<Id>,
    standId: Option<Id>)

  /** getTeams: one record per page, in the query's order; the projection
      throws when some page has an empty title. */
  function GetTeams(pages: seq<TeamPage>): (r: Result<seq<Team>>)
    ensures r.Ok? <==> forall i :: 0 <= i < |pages| ==> |pages[i].title| > 0
    ensures r.Ok? ==> |r.value| == |pages|
    ensures r.Ok? ==> forall i :: 0 <= i < |pages| ==>
      r.value[i] == Team(pages[i].id, pages[i].title[0], pages[i].score)
  {
    if |pages| == 0 then Ok([])
    else match (FirstText(pages[0].title), GetTeams(pages[1..]))
      case (Ok(name), Ok(rest)) =>
        assert forall i :: 1 <= i < |pages| ==> pages[i] == pages[1..][i - 1];
        Ok([Team(pages[0].id, name, pages[0].score)] + rest)
      case (Threw, _) => Threw
      case (_, Threw) =>
        assert exists i :: 0 <= i < |pages[1..]| && |pages[1..][i].title| == 0;
        Threw
  }

  /** getStandsList: one record per page, in order, with the first title
      fragment as its name. */
  function GetStandsList(pages: seq<StandPage>): (r: Result<seq<Stand>>)
    ensures r.Ok? <==> forall i :: 0 <= i < |pages| ==> |pages[i].title| > 0
    ensures r.Ok? ==> |r.value| == |pages|
    ensures r.Ok? ==> forall i :: 0 <= i < |pages| ==>
      r.value[i] == Stand(pages[i].id, pages[i].title[0])
  {
    if |pages| == 0 then Ok([])
    else match (FirstText(pages[0].title), GetStandsList(pages[1..]))
      case (Ok(name), Ok(rest)) =>
        assert forall i :: 1 <= i < |pages| ==> pages[i] == pages[1..][i - 1];
        Ok([Stand(pages[0].id, name)] + rest)
      case (Threw, _) => Threw
      case (_, Threw) =>
        assert exists i :: 0 <= i < |pages[1..]| && |pages[1..][i].title| == 0;
        Threw
  }

  /** findStandByName over the results of the name-filtered query: no stand
      when there are no results, otherwise the first result alone; reading
      its title or PIN hash throws when that property holds no text. */
  function FindStandByName(results: seq<StandPage>): (r: Result<Option<StandCredentials>>)
    ensures |results| == 0 ==> r == Ok(None)
    ensures |results| > 0 ==>
      (r.Ok? <==> |results[0].title| > 0 && |results[0].pinText| > 0)
    ensures |results| > 0 && r.Ok? ==>
      r.value == Some(StandCredentials(results[0].id, results[0].title[0], results[0].pinText[0]))
  {
    if |results| == 0 then Ok(None)
    else
      var page := results[0];
      match (FirstText(page.title), FirstText(page.pinText))
      case (Ok(name), Ok(hash)) => Ok(Some(StandCredentials(page.id, name, hash)))
      case _ => Threw
  }

  /** The record getScoreLogs makes of one log page. */
  function LogRecordOf(page: LogPage): LogRecord {
    LogRecord(page.id, page.points, page.created, FirstId(page.teamRel), FirstId(page.standRel))
  }

  /** getScoreLogs: one record per page, in the query's order. */
  function GetScoreLogs(pages: seq<LogPage>): (r: seq<LogRecord>)
    ensures |r| == |pages|
    ensures forall i :: 0 <= i < |pages| ==> r[i].id == pages[i].id
    ensures forall i :: 0 <= i < |pages| ==> r[i].points == pages[i].points
    ensures forall i :: 0 <= i < |pages| ==> r[i].timestamp == pages[i].created
    ensures forall i :: 0 <= i < |pages| ==>
      r[i].teamId == (if |pages[i].teamRel| == 0 then None else Some(pages[i].teamRel[0]))
    ensures forall i :: 0 <= i < |pages| ==>
      r[i].standId == (if |pages[i].standRel| == 0 then None else Some(pages[i].standRel[0]))
  {
    if |pages| == 0 then []
    else
      assert forall i :: 1 <= i < |pages| ==> pages[i] == pages[1..][i - 1];
      [LogRecordOf(pages[0])] + GetScoreLogs(pages[1..])
  }

  /** Score order of the store's descending sort: numbers from high to low,
      empty scores after every number. */
  predicate ScoreAtLeast(a: Option<int>, b: Option<int>) {
    b.None? || (a.Some? && a.value >= b.value)
  }

  /** The Teams query sorted as requested: by `Score Total`, descending. */
  predicate PagesDescending(pages: seq<TeamPage>) {
    forall i, j :: 0 <= i < j < |pages| ==> ScoreAtLeast(pages[i].score, pages[j].score)
  }

  /** The leaderboard is in the same order as the store's sort, so it is
      non-increasing in score. */
  lemma GetTeamsDescending(pages: seq<TeamPage>)
    requires PagesDescending(pages)
    requires GetTeams(pages).Ok?
    ensures forall i, j :: 0 <= i < j < |pages| ==>
      ScoreAtLeast(GetTeams(pages).value[i].score, GetTeams(pages).value[j].score)
  {
    var teams := GetTeams(pages).value;
    forall i, j | 0 <= i < j < |pages|
      ensures ScoreAtLeast(teams[i].score, teams[j].score)
    {
      assert teams[i].score == pages[i].score && teams[j].score == pages[j].score;
    }
  }

  /** Only the first result of the name query matters to findStandByName. */
  lemma FindStandUsesFirstResultOnly(first: StandPage, more: seq<StandPage>, other: seq<StandPage>)
    ensures FindStandByName([first] + more) == FindStandByName([first] + other)
  {
  }
}

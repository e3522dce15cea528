/** The write path of utils/notion.js: addScore appends one entry to the
    Logs database and then rewrites the team's `Score Total` from the value
    it has just read.  The Teams database is a map from page id to the
    (possibly empty) score; the Logs database is the sequence of its pages.
    Execution is sequential: nothing runs between the read and the write. */
module Ledger {
  import opened Wrappers
  import opened Pages
  import Projections

  /** The two tables addScore touches. */
  datatype Tables = Tables(teams: map<Id, Option<int>>, logs: seq<LogPage>)

  /** One call `addScore(teamId, standId, points)`, with the values the
      outside world supplies: the server clock's ISO text for the entry title
      and the page id and creation time the store assigns. */
  datatype Call = Call(
    teamId: Id,
    standId: Id,
    points: int,
    stamp: string,
    pageId: Id,
    created: string)

  /** Which awaited store call rejects: the log create, the team retrieve
      or the team update. */
  datatype Fault = NoFault | CreateFails | RetrieveFails | UpdateFails

  /** The team's current score as the code reads it: an empty (or zero)
      `Score Total` counts as 0. */
  function ScoreValue(score: Option<int>): int {
    score.GetOr(0)
  }

  /** The log page addScore creates for a call. */
  function AwardedLog(c: Call): (e: LogPage)
    ensures e.points == Some(c.points)
    ensures FirstId(e.teamRel) == Some(c.teamId) && |e.teamRel| == 1
    ensures FirstId(e.standRel) == Some(c.standId) && |e.standRel| == 1
  {
    LogPage(c.pageId, [c.stamp + "-" + c.teamId], Some(c.points), c.created, [c.teamId], [c.standId])
  }

  /** What a log entry adds to team t's total: its points when its team
      relation starts with t (an empty `Points` adds nothing). */
  function Contribution(e: LogPage, t: Id): int {
    if FirstId(e.teamRel) == Some(t) then e.points.GetOr(0) else 0
  }

  /** The sum of the points of the entries that belong to team t. */
  function LedgerSum(logs: seq<LogPage>, t: Id): int {
    if |logs| == 0 then 0
    else LedgerSum(logs[..|logs| - 1], t) + Contribution(logs[|logs| - 1], t)
  }

  /** The ledger invariant: every team's score is the sum of its entries. */
  predicate Reconciled(s: Tables) {
    forall t :: t in s.teams ==> ScoreValue(s.teams[t]) == LedgerSum(s.logs, t)
  }

  /** The effect of one addScore call when `fault` names the store call
      that rejects (the calls after it are not made). */
  function Step(s: Tables, c: Call, fault: Fault): (r: Tables)
    // the log create fails first: nothing is written
    ensures fault == CreateFails ==> r == s
    // otherwise exactly one entry is appended and the others are kept
    ensures fault != CreateFails ==> r.logs == s.logs + [AwardedLog(c)]
    // the score is rewritten only when every store call succeeds
    ensures fault == NoFault && c.teamId in s.teams ==>
      r.teams == s.teams[c.teamId := Some(ScoreValue(s.teams[c.teamId]) + c.points)]
    ensures !(fault == NoFault && c.teamId in s.teams) ==> r.teams == s.teams
    // every other team is left alone
    ensures r.teams.Keys == s.teams.Keys
    ensures forall u :: u in s.teams && u != c.teamId ==> r.teams[u] == s.teams[u]
  {
    if fault == CreateFails then s
    else
      var logs := s.logs + [AwardedLog(c)];
      if fault == RetrieveFails || c.teamId !in s.teams then Tables(s.teams, logs)
      else
        var current := ScoreValue(s.teams[c.teamId]);
        if fault == UpdateFails then Tables(s.teams, logs)
        else
          assert fault == NoFault;
          Tables(s.teams[c.teamId := Some(current + c.points)], logs)
  }

  /** The Notion databases the server writes to. */
  class Store {
    var teams: map<Id, Option<int>>
    var logs: seq<LogPage>

    function State(): Tables
      reads this
    {
      Tables(teams, logs)
    }

    constructor (teams: map<Id, Option<int>>, logs: seq<LogPage>)
      ensures State() == Tables(teams, logs)
    {
      this.teams := teams;
      this.logs := logs;
    }

    /** addScore: append the log page, read the team's score, write back
        the score plus `points`.  Returns false when a store call rejects
        (the caller then sees the thrown error). */
    method AddScore(teamId: Id, standId: Id, points: int, stamp: string, pageId: Id, created: string, fault: Fault)
      returns (ok: bool)
      modifies this
      ensures ok <==> fault == NoFault && teamId in old(teams)
      ensures State() == Step(old(State()), Call(teamId, standId, points, stamp, pageId, created), fault)
      ensures ok && old(Reconciled(State())) ==> Reconciled(State())
    {
      var c := Call(teamId, standId, points, stamp, pageId, created);
      ghost var before := State();
      if fault == CreateFails {
        return false;
      }
      // 1. log the event
      logs := logs + [AwardedLog(c)];
      // 2. read the team's current score; a missing team page throws
      if fault == RetrieveFails || teamId !in teams {
        return false;
      }
      var current := ScoreValue(teams[teamId]);
      // 3. write the new total
      if fault == UpdateFails {
        return false;
      }
      teams := teams[teamId := Some(current + points)];
      ok := true;
      if Reconciled(before) {
        AwardKeepsReconciled(before, c);
      }
    }
  }

  /** Appending an entry adds its contribution to every team's sum. */
  lemma AppendSum(logs: seq<LogPage>, e: LogPage, t: Id)
    ensures LedgerSum(logs + [e], t) == LedgerSum(logs, t) + Contribution(e, t)
  {
    assert (logs + [e])[..|logs|] == logs;
  }

  /** The ledger invariant survives a successful addScore. */
  lemma AwardKeepsReconciled(s: Tables, c: Call)
    requires Reconciled(s)
    requires c.teamId in s.teams
    ensures Reconciled(Step(s, c, NoFault))
  {
    var r := Step(s, c, NoFault);
    forall t | t in r.teams
      ensures ScoreValue(r.teams[t]) == LedgerSum(r.logs, t)
    {
      AppendSum(s.logs, AwardedLog(c), t);
    }
  }

  /** After a failure between the log write and the score write the
      entry is logged but not counted: that team's sum runs ahead of its
      score by exactly `points`, and every other team is still reconciled. */
  lemma OrphanedEntry(s: Tables, c: Call, fault: Fault)
    requires Reconciled(s)
    requires fault == RetrieveFails || fault == UpdateFails
    ensures forall t :: t in s.teams ==>
      LedgerSum(Step(s, c, fault).logs, t)
        == ScoreValue(Step(s, c, fault).teams[t]) + (if t == c.teamId then c.points else 0)
  {
    var r := Step(s, c, fault);
    forall t | t in s.teams
      ensures LedgerSum(r.logs, t) == ScoreValue(r.teams[t]) + (if t == c.teamId then c.points else 0)
    {
      AppendSum(s.logs, AwardedLog(c), t);
    }
  }

  /** A zero-point award is still logged, leaves the score numerically
      unchanged, and turns an empty score into the number 0. */
  lemma ZeroPointAward(s: Tables, c: Call)
    requires c.teamId in s.teams && c.points == 0
    ensures |Step(s, c, NoFault).logs| == |s.logs| + 1
    ensures Step(s, c, NoFault).logs[|s.logs|].points == Some(0)
    ensures ScoreValue(Step(s, c, NoFault).teams[c.teamId]) == ScoreValue(s.teams[c.teamId])
    ensures s.teams[c.teamId] == None ==> Step(s, c, NoFault).teams[c.teamId] == Some(0)
  {
  }

  /** The entry addScore writes reads back through getScoreLogs with the
      same points, team and stand. */
  lemma AwardedLogReadsBack(c: Call)
    ensures Projections.GetScoreLogs([AwardedLog(c)])
      == [Projections.LogRecord(c.pageId, Some(c.points), c.created, Some(c.teamId), Some(c.standId))]
  {
  }

  /** A sequence of addScore calls in which no store call rejects.  A call
      on a team id that names no team page still logs its entry and leaves
      the scores alone, as Step says; in the source that call throws. */
  function Replay(s: Tables, calls: seq<Call>): (r: Tables)
    ensures r.teams.Keys == s.teams.Keys
    ensures |r.logs| == |s.logs| + |calls|
    ensures r.logs[..|s.logs|] == s.logs
    ensures forall i :: 0 <= i < |calls| ==> r.logs[|s.logs| + i] == AwardedLog(calls[i])
    decreases |calls|
  {
    if |calls| == 0 then s
    else
      var last := calls[|calls| - 1];
      var prev := Replay(s, calls[..|calls| - 1]);
      assert forall i :: 0 <= i < |calls| - 1 ==> calls[..|calls| - 1][i] == calls[i];
      Step(prev, last, NoFault)
  }

  /** The sum of the points the calls award to team t. */
  function Awarded(calls: seq<Call>, t: Id): int {
    if |calls| == 0 then 0
    else Awarded(calls[..|calls| - 1], t) + (if calls[|calls| - 1].teamId == t then calls[|calls| - 1].points else 0)
  }

  /** Sequential execution: the invariant holds after any run of
      successful addScore calls on existing teams, and each team's score
      has grown by exactly the points awarded to it. */
  lemma {:induction false} ReplayKeepsReconciled(s: Tables, calls: seq<Call>)
    requires Reconciled(s)
    requires forall i :: 0 <= i < |calls| ==> calls[i].teamId in s.teams
    ensures Reconciled(Replay(s, calls))
    ensures forall t :: t in s.teams ==>
      ScoreValue(Replay(s, calls).teams[t]) == ScoreValue(s.teams[t]) + Awarded(calls, t)
  {
    if |calls| > 0 {
      var init := calls[..|calls| - 1];
      var last := calls[|calls| - 1];
      assert forall i :: 0 <= i < |init| ==> init[i] == calls[i];
      ReplayKeepsReconciled(s, init);
      var prev := Replay(s, init);
      assert last.teamId in prev.teams;
      AwardKeepsReconciled(prev, last);
    }
  }

  /** An empty ledger is reconciled exactly when every score is empty or 0. */
  lemma EmptyLedgerReconciled(teams: map<Id, Option<int>>)
    ensures Reconciled(Tables(teams, [])) <==> forall t :: t in teams ==> ScoreValue(teams[t]) == 0
  {
  }
}

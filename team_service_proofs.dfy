/** What importing a competition's team list does to the store: per fetched
    team (create and link, or link an existing team), and over the whole list
    (order, framing, invariants). The list import is stated for any squad
    importer `sq` that agrees with `importPlayers`. */
module TeamServiceProofs {
  import opened Football
  import opened FootballApi
  import opened Documents
  import opened PlayerService
  import opened PlayerServiceProofs
  import opened TeamService

  // ---------------------------------------------------------------------------
  // One fetched team

  /** A fetched team that the lookup does not find is saved as a new team whose
      `teamCode` is the API's id, whose only competition is `c` and which has no
      players; its id is appended to competition `c`'s teams; only then is its
      squad imported, under the API's id and the new team's id. */
  lemma NewTeamIsSavedLinkedThenImported(db: Db, api: Api, c: LocalId, data: TeamData,
                                         sq: (Db, ExtId, LocalId) -> Run)
    requires ImportsSquads(api, sq) && c < |db.competitions|
    requires FindTeamByTeamId(db.teams, data.id).None?
    ensures TeamStep(db, c, data, sq) == ImportPlayersRun(
      Db(db.competitions[c := db.competitions[c].(teams := db.competitions[c].teams + [|db.teams|])],
         db.teams + [Team(None, data.id, data.name, data.tla, data.shortName, data.crest, data.website,
                          data.founded, data.clubColors, [c], [])],
         db.players),
      api, data.id, |db.teams|)
  {
    var linked := PushCompetitionTeam(InsertTeam(db, NewTeam(data, c)), c, |db.teams|);
    assert sq(linked, data.id, |db.teams|) == ImportPlayersRun(linked, api, data.id, |db.teams|);
  }

  /** A fetched team that the lookup finds gets competition `c` added to its
      competitions with set semantics; nothing is fetched, no squad is imported,
      and the competition's teams are left as they are. */
  lemma ExistingTeamOnlyGetsCompetition(db: Db, c: LocalId, data: TeamData, sq: (Db, ExtId, LocalId) -> Run,
                                        t: LocalId)
    requires FindTeamByTeamId(db.teams, data.id) == Some(t)
    ensures var r := TeamStep(db, c, data, sq);
      && r.issued == []
      && r.outcome == Done
      && r.db.competitions == db.competitions
      && r.db.players == db.players
      && |r.db.teams| == |db.teams|
      && (forall u :: 0 <= u < |db.teams| && u != t ==> r.db.teams[u] == db.teams[u])
      && r.db.teams[t] == db.teams[t].(competitions := r.db.teams[t].competitions)
      && (c in db.teams[t].competitions ==> r.db.teams[t].competitions == db.teams[t].competitions)
      && (c !in db.teams[t].competitions ==> r.db.teams[t].competitions == db.teams[t].competitions + [c])
  {
  }

  /** The existing-team branch, when it is taken, stores the team-competition link
      in one direction only: from a valid store it can reach one that is not
      mirrored. */
  lemma ExistingTeamBranchBreaksMirroring(sq: (Db, ExtId, LocalId) -> Run)
    ensures var db := Db([Competition("League", "LG", 1, [])],
                         [Team(Some(7), 7, "Club", "CLB", "", "", "", 1900, "", [], [])], []);
      var r := TeamStep(db, 0, TeamData(7, "Club", "CLB", "", "", "", 1900, ""), sq);
      Valid(db) && !Mirrored(r.db)
  {
    var db := Db([Competition("League", "LG", 1, [])],
                 [Team(Some(7), 7, "Club", "CLB", "", "", "", 1900, "", [], [])], []);
    var r := TeamStep(db, 0, TeamData(7, "Club", "CLB", "", "", "", 1900, ""), sq);
    assert FindTeamByTeamId(db.teams, 7) == Some(0);
    assert r.db.teams[0].competitions == [0];
    assert 0 !in r.db.competitions[0].teams;
  }

  // ---------------------------------------------------------------------------
  // What a team list import leaves alone

  /** `next` differs from `db` only in competition `c` and by growing. */
  predicate TeamListFrame(db: Db, next: Db, c: LocalId)
  {
    && |next.competitions| == |db.competitions|
    && (forall k :: 0 <= k < |db.competitions| && k != c ==> next.competitions[k] == db.competitions[k])
    && Extends(db, next)
  }

  lemma TeamListFrameTransitive(a: Db, b: Db, d: Db, c: LocalId)
    requires TeamListFrame(a, b, c) && TeamListFrame(b, d, c)
    ensures TeamListFrame(a, d, c)
  {
    ExtendsTransitive(a, b, d);
  }

  lemma TeamStepFrame(db: Db, api: Api, c: LocalId, data: TeamData, sq: (Db, ExtId, LocalId) -> Run)
    requires ImportsSquads(api, sq)
    ensures TeamListFrame(db, TeamStep(db, c, data, sq).db, c)
  {
    match FindTeamByTeamId(db.teams, data.id)
    case Some(t) =>
      ExistingTeamOnlyGetsCompetition(db, c, data, sq, t);
      LinkTeamFrame(db, TeamStep(db, c, data, sq).db, c, t);
    case None =>
      var linked := PushCompetitionTeam(InsertTeam(db, NewTeam(data, c)), c, |db.teams|);
      assert sq(linked, data.id, |db.teams|) == ImportPlayersRun(linked, api, data.id, |db.teams|);
      ImportPlayersFrame(linked, api, data.id, |db.teams|);
      SaveTeamFrame(db, linked, c, NewTeam(data, c));
      SquadFrameIsTeamListFrame(linked, TeamStep(db, c, data, sq).db, |db.teams|, c);
      TeamListFrameTransitive(db, linked, TeamStep(db, c, data, sq).db, c);
  }

  lemma LinkTeamFrame(db: Db, next: Db, c: LocalId, t: LocalId)
    requires t < |db.teams| && next.competitions == db.competitions && next.players == db.players
    requires |next.teams| == |db.teams| && (forall u :: 0 <= u < |db.teams| && u != t ==> next.teams[u] == db.teams[u])
    requires next.teams[t] == db.teams[t].(competitions := next.teams[t].competitions)
    requires db.teams[t].competitions <= next.teams[t].competitions
    ensures TeamListFrame(db, next, c)
  {
  }

  lemma SaveTeamFrame(db: Db, linked: Db, c: LocalId, team: Team)
    requires linked == PushCompetitionTeam(InsertTeam(db, team), c, |db.teams|)
    ensures TeamListFrame(db, linked, c)
  {
  }

  lemma SquadFrameIsTeamListFrame(db: Db, next: Db, team: LocalId, c: LocalId)
    requires SquadFrame(db, next, team)
    ensures TeamListFrame(db, next, c)
  {
  }

  /** Importing a team list touches no competition but `c`, and removes or
      rewrites nothing stored, whether it completes or stops at a failure. */
  lemma {:induction false} ImportTeamListFrame(db: Db, api: Api, c: LocalId, teams: seq<TeamData>,
                                               sq: (Db, ExtId, LocalId) -> Run)
    requires ImportsSquads(api, sq)
    ensures TeamListFrame(db, Fold(db, teams, TeamListStep(c, sq)).db, c)
    decreases |teams|
  {
    if teams == [] {
      assert Extends(db, db);
    } else {
      var init := teams[..|teams| - 1];
      ImportTeamListFrame(db, api, c, init, sq);
      var before := Fold(db, init, TeamListStep(c, sq));
      if before.outcome.Done? {
        TeamStepFrame(before.db, api, c, teams[|teams| - 1], sq);
        TeamListFrameTransitive(db, before.db, Fold(db, teams, TeamListStep(c, sq)).db, c);
      }
    }
  }

  // ---------------------------------------------------------------------------
  // What a team list import creates, when no stored team carries `teamId`

  /** Compared with `db`, `next` holds new teams for a prefix of `fetched`, in
      order, each saved from its fetched data for competition `c` (its players
      aside), and competition `c` references exactly those new teams after its
      old ones. The teams of `db` are unchanged. */
  predicate CreatedInOrder(db: Db, next: Db, c: LocalId, fetched: seq<TeamData>)
    requires c < |db.competitions| && c < |next.competitions|
  {
    && |db.teams| <= |next.teams| <= |db.teams| + |fetched|
    && (forall j :: 0 <= j < |db.teams| ==> next.teams[j] == db.teams[j])
    && (forall j :: |db.teams| <= j < |next.teams| ==>
          next.teams[j].(players := []) == NewTeam(fetched[j - |db.teams|], c))
    && next.competitions[c].teams == db.competitions[c].teams + seq(|next.teams| - |db.teams|, k => |db.teams| + k)
  }

  lemma CreatedInOrderPrefix(db: Db, next: Db, c: LocalId, init: seq<TeamData>, fetched: seq<TeamData>)
    requires c < |db.competitions| && c < |next.competitions| && init <= fetched
    requires CreatedInOrder(db, next, c, init)
    ensures CreatedInOrder(db, next, c, fetched)
  {
    forall j | |db.teams| <= j < |next.teams|
      ensures next.teams[j].(players := []) == NewTeam(fetched[j - |db.teams|], c)
    {
      assert fetched[j - |db.teams|] == init[j - |db.teams|];
    }
  }

  /** Under `NoTeamIdField` every fetched team is new: it is saved at the end of
      the teams, pushed onto competition `c`, and its squad import leaves the
      other teams alone. */
  lemma TeamStepCreates(db: Db, d: Db, api: Api, c: LocalId, init: seq<TeamData>, e: TeamData,
                        sq: (Db, ExtId, LocalId) -> Run)
    requires ImportsSquads(api, sq) && c < |db.competitions| && c < |d.competitions|
    requires CreatedInOrder(db, d, c, init) && |d.teams| == |db.teams| + |init|
    requires NoTeamIdField(d)
    ensures var next := TeamStep(d, c, e, sq).db;
      && c < |next.competitions| && NoTeamIdField(next) && |next.teams| == |d.teams| + 1
      && CreatedInOrder(db, next, c, init + [e])
  {
    var linked := PushCompetitionTeam(InsertTeam(d, NewTeam(e, c)), c, |d.teams|);
    assert sq(linked, e.id, |d.teams|) == ImportPlayersRun(linked, api, e.id, |d.teams|);
    ImportPlayersFrame(linked, api, e.id, |d.teams|);
    CreatedStep(db, d, linked, TeamStep(d, c, e, sq).db, c, init, e);
  }

  lemma CreatedStep(db: Db, d: Db, linked: Db, next: Db, c: LocalId, init: seq<TeamData>, e: TeamData)
    requires c < |db.competitions| && c < |d.competitions|
    requires CreatedInOrder(db, d, c, init) && |d.teams| == |db.teams| + |init|
    requires linked == PushCompetitionTeam(InsertTeam(d, NewTeam(e, c)), c, |d.teams|)
    requires SquadFrame(linked, next, |d.teams|)
    requires NoTeamIdField(d)
    ensures c < |next.competitions| && NoTeamIdField(next) && |next.teams| == |d.teams| + 1
    ensures CreatedInOrder(db, next, c, init + [e])
  {
    assert next.teams[|d.teams|].(players := []) == NewTeam(e, c);
    assert seq(|next.teams| - |db.teams|, k => |db.teams| + k)
        == seq(|d.teams| - |db.teams|, k => |db.teams| + k) + [|d.teams|];
  }

  /** Against a store where no team carries `teamId`, a team list import saves
      one new team per fetched team, in the API's order, links each to the
      competition as it is saved, and leaves the stored teams unchanged; when it
      completes, every fetched team was saved. */
  lemma ImportTeamListCreatesTeams(db: Db, api: Api, c: LocalId, teams: seq<TeamData>,
                                   sq: (Db, ExtId, LocalId) -> Run)
    requires ImportsSquads(api, sq) && c < |db.competitions| && NoTeamIdField(db)
    ensures var r := Fold(db, teams, TeamListStep(c, sq));
      && c < |r.db.competitions| && NoTeamIdField(r.db)
      && CreatedInOrder(db, r.db, c, teams)
      && (r.outcome.Done? ==> |r.db.teams| == |db.teams| + |teams|)
  {
    var Q := (d: Db, s: seq<TeamData>) => c < |d.competitions| && NoTeamIdField(d) && CreatedInOrder(db, d, c, s);
    var P := (d: Db, s: seq<TeamData>) => Q(d, s) && |d.teams| == |db.teams| + |s|;
    var step := TeamListStep(c, sq);
    forall d, s, e | P(d, s) ensures P(step(d, e).db, s + [e]) {
      TeamStepCreates(db, d, api, c, s, e, sq);
    }
    forall d, s, t | Q(d, s) ensures Q(d, s + t) {
      CreatedInOrderPrefix(db, d, c, s, s + t);
    }
    assert seq(0, k => |db.teams| + k) == [];
    FoldKeepsUntilFailure(db, teams, step, P, Q);
  }

  // ---------------------------------------------------------------------------
  // Invariants

  lemma TeamStepPreservesValid(d: Db, api: Api, c: LocalId, e: TeamData, sq: (Db, ExtId, LocalId) -> Run)
    requires ImportsSquads(api, sq) && c < |d.competitions| && NoTeamIdField(d) && Valid(d)
    ensures var next := TeamStep(d, c, e, sq).db;
      Valid(next) && NoTeamIdField(next) && c < |next.competitions|
  {
    var linked := PushCompetitionTeam(InsertTeam(d, NewTeam(e, c)), c, |d.teams|);
    assert TeamStep(d, c, e, sq) == ImportPlayersRun(linked, api, e.id, |d.teams|) by {
      assert sq(linked, e.id, |d.teams|) == ImportPlayersRun(linked, api, e.id, |d.teams|);
    }
    SaveTeamKeepsValid(d, linked, c, e);
    SquadKeepsTeamInvariants(linked, api, e.id, |d.teams|);
  }

  lemma SaveTeamKeepsValid(d: Db, linked: Db, c: LocalId, e: TeamData)
    requires c < |d.competitions| && linked == PushCompetitionTeam(InsertTeam(d, NewTeam(e, c)), c, |d.teams|)
    requires NoTeamIdField(d) && Valid(d)
    ensures Valid(linked) && NoTeamIdField(linked) && |d.teams| < |linked.teams|
  {
    SaveTeamKeepsSetLike(d, linked, c, NewTeam(e, c));
    SaveTeamKeepsMirrored(d, linked, c, NewTeam(e, c));
  }

  lemma SaveTeamKeepsSetLike(d: Db, linked: Db, c: LocalId, team: Team)
    requires c < |d.competitions| && team.competitions == [c]
    requires linked.players == d.players && linked.teams == d.teams + [team]
    requires |linked.competitions| == |d.competitions|
    requires forall k :: 0 <= k < |d.competitions| && k != c ==> linked.competitions[k] == d.competitions[k]
    requires linked.competitions[c].teams == d.competitions[c].teams + [|d.teams|]
    requires RefsInRange(d) && SetLike(d)
    ensures SetLike(linked)
  {
    assert |d.teams| !in d.competitions[c].teams;
  }

  lemma SaveTeamKeepsMirrored(d: Db, linked: Db, c: LocalId, team: Team)
    requires c < |d.competitions| && team.competitions == [c] && team.players == []
    requires linked.players == d.players && linked.teams == d.teams + [team]
    requires |linked.competitions| == |d.competitions|
    requires forall k :: 0 <= k < |d.competitions| && k != c ==> linked.competitions[k] == d.competitions[k]
    requires linked.competitions[c].teams == d.competitions[c].teams + [|d.teams|]
    requires RefsInRange(d) && Mirrored(d)
    ensures Mirrored(linked)
  {
    forall k, t | 0 <= k < |linked.competitions| && 0 <= t < |linked.teams|
      ensures t in linked.competitions[k].teams <==> k in linked.teams[t].competitions
    {
      if t == |d.teams| && k != c {
        assert t !in d.competitions[k].teams;
      }
    }
    forall t, p | 0 <= t < |linked.teams| && 0 <= p < |linked.players|
      ensures p in linked.teams[t].players <==> t in linked.players[p].teams
    {
      if t == |d.teams| {
        assert t !in d.players[p].teams;
      }
    }
  }

  lemma SquadKeepsTeamInvariants(linked: Db, api: Api, code: ExtId, team: LocalId)
    requires team < |linked.teams| && NoTeamIdField(linked) && Valid(linked)
    ensures var next := ImportPlayersRun(linked, api, code, team).db;
      Valid(next) && NoTeamIdField(next) && |next.competitions| == |linked.competitions|
  {
    ImportPlayersPreservesValid(linked, api, code, team);
    ImportPlayersFrame(linked, api, code, team);
    SquadFrameKeepsNoTeamIdField(linked, ImportPlayersRun(linked, api, code, team).db, team);
  }

  lemma SquadFrameKeepsNoTeamIdField(db: Db, next: Db, team: LocalId)
    requires SquadFrame(db, next, team) && NoTeamIdField(db)
    ensures NoTeamIdField(next)
  {
    forall t | 0 <= t < |next.teams| ensures next.teams[t].teamId.None? {
      assert next.teams[t].(players := []).teamId == db.teams[t].(players := []).teamId;
    }
  }

  /** Importing a team list into a valid store where no team carries `teamId`
      leaves a valid store: references in range, unique keys, set-like arrays and
      both directions of every team-competition and team-player link. */
  lemma ImportTeamListPreservesValid(db: Db, api: Api, c: LocalId, teams: seq<TeamData>,
                                     sq: (Db, ExtId, LocalId) -> Run)
    requires ImportsSquads(api, sq) && c < |db.competitions| && NoTeamIdField(db) && Valid(db)
    ensures var next := Fold(db, teams, TeamListStep(c, sq)).db;
      Valid(next) && NoTeamIdField(next)
  {
    var P := (d: Db) => Valid(d) && NoTeamIdField(d) && c < |d.competitions|;
    forall d, e | P(d) ensures P(TeamListStep(c, sq)(d, e).db) {
      TeamStepPreservesValid(d, api, c, e, sq);
    }
    FoldPreserves(db, teams, TeamListStep(c, sq), P);
  }

  // ---------------------------------------------------------------------------
  // `importTeams`: the team list fetch, then the teams

  /** `importTeams` first requests the competition's team list; when that fails it
      stops with that failure and writes nothing. Either way it changes no
      competition but `c`, and removes or rewrites nothing stored. */
  lemma ImportTeamsFrame(db: Db, api: Api, competitionId: ExtId, c: LocalId)
    ensures var r := ImportTeamsRun(db, api, competitionId, c);
      && |r.issued| > 0 && r.issued[0] == TeamsOfCompetition(competitionId)
      && (competitionId !in api.teamLists ==>
            r == Run(db, [TeamsOfCompetition(competitionId)], Failed(FetchFailed(TeamsOfCompetition(competitionId)))))
      && TeamListFrame(db, r.db, c)
  {
    if competitionId in api.teamLists {
      SquadImportImportsSquads(api);
      ImportTeamListFrame(db, api, c, api.teamLists[competitionId], SquadImport(api));
    } else {
      assert Extends(db, db);
    }
  }

  /** Against a store where no team carries `teamId`, `importTeams` creates the
      fetched teams in order and links each to competition `c`. */
  lemma ImportTeamsCreatesTeams(db: Db, api: Api, competitionId: ExtId, c: LocalId)
    requires c < |db.competitions| && NoTeamIdField(db)
    ensures var r := ImportTeamsRun(db, api, competitionId, c);
      && c < |r.db.competitions| && NoTeamIdField(r.db)
      && (competitionId in api.teamLists ==>
            && CreatedInOrder(db, r.db, c, api.teamLists[competitionId])
            && (r.outcome.Done? ==> |r.db.teams| == |db.teams| + |api.teamLists[competitionId]|))
  {
    if competitionId in api.teamLists {
      SquadImportImportsSquads(api);
      ImportTeamListCreatesTeams(db, api, c, api.teamLists[competitionId], SquadImport(api));
    }
  }

  lemma ImportTeamsPreservesValid(db: Db, api: Api, competitionId: ExtId, c: LocalId)
    requires c < |db.competitions| && NoTeamIdField(db) && Valid(db)
    ensures var next := ImportTeamsRun(db, api, competitionId, c).db;
      Valid(next) && NoTeamIdField(next)
  {
    if competitionId in api.teamLists {
      SquadImportImportsSquads(api);
      ImportTeamListPreservesValid(db, api, c, api.teamLists[competitionId], SquadImport(api));
    }
  }
}

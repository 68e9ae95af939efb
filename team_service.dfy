/** src/services/teamService.ts: importing a competition's teams into the store
    (`importTeams`), listing a competition's teams page by page
    (`getTeamsByCompetitionService`) and listing a team's players
    (`getPlayersByTeamService`).

    `ImportTeamsRun` specifies the import as a function of the store; the
    method `ImportTeams` is proved to do exactly that. */
module TeamService {
  import opened Football
  import opened FootballApi
  import opened Documents
  import opened Pagination
  import opened PlayerService

  // ---------------------------------------------------------------------------
  // Import, as a function of the store

  /** The team document saved for a fetched team: the API's id goes to
      `teamCode` (not to `teamId`), the importing competition is its only
      competition and it has no players yet. */
  function NewTeam(data: TeamData, competition: LocalId): Team
  {
    Team(None, data.id, data.name, data.tla, data.shortName, data.crest, data.website,
         data.founded, data.clubColors, [competition], [])
  }

  /** `importPlayers` as a function of the store: the store after the squad of the
      team with API id `code` and local id `t` is imported, and what it issued. */
  function SquadImport(api: Api): (Db, ExtId, LocalId) -> Run
  {
    (d: Db, code: ExtId, t: LocalId) => ImportPlayersRun(d, api, code, t)
  }

  /** `sq` imports squads as `importPlayers` does against `api`. The team import is
      stated for any such `sq`, so that reasoning about the team list does not
      reach into the squads. */
  ghost predicate ImportsSquads(api: Api, sq: (Db, ExtId, LocalId) -> Run)
  {
    forall d, code, t {:trigger ImportPlayersRun(d, api, code, t)} ::
      sq(d, code, t) == ImportPlayersRun(d, api, code, t)
  }

  lemma SquadImportImportsSquads(api: Api)
    ensures ImportsSquads(api, SquadImport(api))
  {
  }

  /** One fetched team. The lookup is by the `teamId` field. A team found that way
      gets the competition added to its competitions (`$addToSet`) and nothing
      else; otherwise a new team is saved, pushed onto the competition's teams,
      and then its squad is imported by `sq`. */
  function TeamStep(db: Db, competition: LocalId, data: TeamData, sq: (Db, ExtId, LocalId) -> Run): Run
  {
    match FindTeamByTeamId(db.teams, data.id)
    case Some(t) => Run(AddTeamCompetition(db, t, competition), [], Done)
    case None =>
      var linked := PushCompetitionTeam(InsertTeam(db, NewTeam(data, competition)), competition, |db.teams|);
      sq(linked, data.id, |db.teams|)
  }

  function TeamListStep(competition: LocalId, sq: (Db, ExtId, LocalId) -> Run): (Db, TeamData) -> Run
  {
    (d: Db, t: TeamData) => TeamStep(d, competition, t, sq)
  }

  /** `importTeams(competitionId, competitionObjectId)` with squads imported by
      `sq`: fetch the competition's team list, then process the fetched teams one
      after the other, in the API's order, stopping at the first failure (its own
      or its squad import's). */
  function ImportTeamsWith(db: Db, api: Api, competitionId: ExtId, competition: LocalId,
                           sq: (Db, ExtId, LocalId) -> Run): Run
  {
    match TeamListAnswer(api, competitionId)
    case Err(e) => Run(db, [TeamsOfCompetition(competitionId)], Failed(e))
    case Ok(teams) =>
      Then(Run(db, [TeamsOfCompetition(competitionId)], Done), Fold(db, teams, TeamListStep(competition, sq)))
  }

  /** `importTeams(competitionId, competitionObjectId)`, squads imported by
      `importPlayers`. */
  function ImportTeamsRun(db: Db, api: Api, competitionId: ExtId, competition: LocalId): Run
  {
    ImportTeamsWith(db, api, competitionId, competition, SquadImport(api))
  }

  // ---------------------------------------------------------------------------
  // Import, over the store object

  /** The body of the loop over the team list: one team, created or linked. */
  method ImportTeamEntry(store: Store, client: Client, competition: LocalId, teamData: TeamData,
                         ghost sq: (Db, ExtId, LocalId) -> Run)
    returns (outcome: Outcome)
    requires ImportsSquads(client.api, sq)
    modifies store, client
    ensures var r := TeamStep(old(store.State()), competition, teamData, sq);
      store.State() == r.db && client.issued == old(client.issued) + r.issued && outcome == r.outcome
  {
    var existingTeam := FindTeamByTeamId(store.teams, teamData.id);
    if existingTeam.None? {
      var newTeam := store.SaveTeam(NewTeam(teamData, competition));
      store.PushTeamToCompetition(competition, newTeam);
      outcome := ImportPlayers(store, client, teamData.id, newTeam);
    } else {
      store.AddCompetitionToTeam(existingTeam.value, competition);
      outcome := Done;
    }
  }

  /** `importTeams`, for the squad importer `sq` of `importPlayers`: the caller
      passes `SquadImport(client.api)`. */
  method ImportTeams(store: Store, client: Client, competitionId: ExtId, competition: LocalId,
                     ghost sq: (Db, ExtId, LocalId) -> Run)
    returns (outcome: Outcome)
    requires ImportsSquads(client.api, sq)
    modifies store, client
    ensures var r := ImportTeamsWith(old(store.State()), client.api, competitionId, competition, sq);
      store.State() == r.db && client.issued == old(client.issued) + r.issued && outcome == r.outcome
  {
    var answer := client.GetTeams(competitionId);
    if answer.Err? {
      return Failed(answer.error);
    }
    outcome := ImportTeamLoop(store, client, competition, answer.value, sq);
  }

  /** One turn of the loop over the team list: the teams before `i` have been
      imported without failure, and team `i` is imported next. */
  method ImportTeamAt(store: Store, client: Client, competition: LocalId, teams: seq<TeamData>, i: nat,
                      ghost sq: (Db, ExtId, LocalId) -> Run, ghost db0: Db, ghost issued0: seq<Request>)
    returns (outcome: Outcome)
    requires ImportsSquads(client.api, sq)
    requires i < |teams|
    requires |issued0| <= |client.issued| && client.issued == issued0 + client.issued[|issued0|..]
    requires Fold(db0, teams[..i], TeamListStep(competition, sq)) == Run(store.State(), client.issued[|issued0|..], Done)
    modifies store, client
    ensures |issued0| <= |client.issued| && client.issued == issued0 + client.issued[|issued0|..]
    ensures Fold(db0, teams[..i + 1], TeamListStep(competition, sq)) == Run(store.State(), client.issued[|issued0|..], outcome)
  {
    FoldNext(db0, teams, i, TeamListStep(competition, sq));
    ghost var before := Fold(db0, teams[..i], TeamListStep(competition, sq));
    ghost var issued1 := client.issued;
    outcome := ImportTeamEntry(store, client, competition, teams[i], sq);
    ghost var r := TeamStep(before.db, competition, teams[i], sq);
    assert TeamListStep(competition, sq)(before.db, teams[i]) == r;
    LogAfterStep(issued0, issued1, client.issued, before.issued, r.issued);
  }

  /** The loop over the team list, in the API's order. */
  method ImportTeamLoop(store: Store, client: Client, competition: LocalId, teams: seq<TeamData>,
                        ghost sq: (Db, ExtId, LocalId) -> Run)
    returns (outcome: Outcome)
    requires ImportsSquads(client.api, sq)
    modifies store, client
    ensures var r := Fold(old(store.State()), teams, TeamListStep(competition, sq));
      store.State() == r.db && client.issued == old(client.issued) + r.issued && outcome == r.outcome
  {
    ghost var db0 := store.State();
    ghost var issued0 := client.issued;
    outcome := Done;
    var i := 0;
    while i < |teams| && outcome.Done?
      invariant 0 <= i <= |teams|
      invariant |issued0| <= |client.issued| && client.issued == issued0 + client.issued[|issued0|..]
      invariant Fold(db0, teams[..i], TeamListStep(competition, sq)) == Run(store.State(), client.issued[|issued0|..], outcome)
    {
      outcome := ImportTeamAt(store, client, competition, teams, i, sq, db0, issued0);
      i := i + 1;
    }
    if outcome.Failed? {
      FoldStopsAtFirstFailure(db0, teams, i, TeamListStep(competition, sq));
    } else {
      assert teams[..i] == teams;
    }
  }

  // ---------------------------------------------------------------------------
  // Queries

  /** The teams whose name matches the optional name filter. `matches(pattern, name)`
      stands for the case-insensitive regular-expression match; the empty pattern
      (a falsy parameter) filters nothing. */
  function MatchingTeams(teams: seq<Team>, pattern: string, matches: (string, string) -> bool): (r: seq<Team>)
    ensures |r| <= |teams|
    ensures forall t :: t in r <==> t in teams && (pattern == "" || matches(pattern, t.name))
    ensures pattern == "" ==> r == teams
  {
    if teams == [] then []
    else
      (if pattern == "" || matches(pattern, teams[0].name) then [teams[0]] else [])
      + MatchingTeams(teams[1..], pattern, matches)
  }

  /** `getTeamsByCompetitionService(code, { page, limit, name })`. */
  function TeamsByCompetition(db: Db, code: string, page: Option<Positive>, limit: Option<Positive>,
                              pattern: string, matches: (string, string) -> bool): Result<seq<Team>>
  {
    match FindCompetitionByCode(db.competitions, code)
    case None => Err(CompetitionNotFound(code))
    case Some(c) =>
      Ok(Page(MatchingTeams(Resolve(db.teams, db.competitions[c].teams), pattern, matches),
              PageOr(page), LimitOr(limit)))
  }

  /** `getPlayersByTeamService(tla)`: the players of the first team with that tla. */
  function PlayersByTeam(db: Db, tla: string): Result<seq<Player>>
  {
    match FindTeamByTla(db.teams, tla)
    case None => Err(TeamNotFound(tla))
    case Some(t) => Ok(Resolve(db.players, db.teams[t].players))
  }
}

/** src/services/playerService.ts: importing a team's squad into the store
    (`importPlayers`) and listing the players of a competition page by page
    (`getPlayersByCompetitionService`).

    The import is specified by `ImportPlayersRun`, a function from the store
    before the call to the store after it together with the requests issued;
    the method `ImportPlayers` is proved to do exactly that. */
module PlayerService {
  import opened Football
  import opened FootballApi
  import opened Documents
  import opened Pagination

  // ---------------------------------------------------------------------------
  // Import, as a function of the store

  /** The squad entry after the person lookup: when the person answer has a body,
      its section and shirt number replace the entry's, even where the answer
      leaves them out; without a body the entry is kept as it is. */
  function Enrich(entry: SquadEntry, details: Option<PersonDetails>): SquadEntry
  {
    if details.Some? then entry.(section := details.value.section, shirtNumber := details.value.shirtNumber)
    else entry
  }

  /** The player document saved for `data`, referencing the importing team only. */
  function NewPlayer(data: SquadEntry, team: LocalId): Player
  {
    Player(data.id, data.name, data.position, data.dateOfBirth, data.nationality,
           data.shirtNumber, data.section, [team])
  }

  /** One squad entry: a known player is linked (`$addToSet` on the player's teams,
      then `$push` on the team's players); an unknown one is looked up at the API,
      saved, and pushed onto the team's players. */
  function PlayerStep(db: Db, api: Api, team: LocalId, entry: SquadEntry): Run
  {
    match FindPlayer(db.players, entry.id)
    case Some(p) =>
      Run(PushTeamPlayer(AddPlayerTeam(db, p, team), team, p), [], Done)
    case None =>
      match PersonAnswer(api, entry.id)
      case Err(e) => Run(db, [PersonById(entry.id)], Failed(e))
      case Ok(details) =>
        match InsertPlayer(db, NewPlayer(Enrich(entry, details), team))
        case Err(e) => Run(db, [PersonById(entry.id)], Failed(e))
        case Ok(saved) => Run(PushTeamPlayer(saved, team, |db.players|), [PersonById(entry.id)], Done)
  }

  function EntryStep(api: Api, team: LocalId): (Db, SquadEntry) -> Run
  {
    (d: Db, e: SquadEntry) => PlayerStep(d, api, team, e)
  }

  /** The squad entries processed one after the other, in the API's order,
      stopping at the first failure and keeping every earlier write. */
  function ImportSquad(db: Db, api: Api, team: LocalId, squad: seq<SquadEntry>): Run
  {
    Fold(db, squad, EntryStep(api, team))
  }

  /** `importPlayers(teamCode, teamId)`: fetch the team's squad, then import it. */
  function ImportPlayersRun(db: Db, api: Api, teamCode: ExtId, team: LocalId): Run
  {
    match SquadAnswer(api, teamCode)
    case Err(e) => Run(db, [TeamById(teamCode)], Failed(e))
    case Ok(squad) => Then(Run(db, [TeamById(teamCode)], Done), ImportSquad(db, api, team, squad))
  }

  // ---------------------------------------------------------------------------
  // Import, over the store object

  /** The body of the loop over the squad: one entry, created or linked. */
  method ImportSquadEntry(store: Store, client: Client, team: LocalId, entry: SquadEntry) returns (outcome: Outcome)
    modifies store, client
    ensures var r := PlayerStep(old(store.State()), client.api, team, entry);
      store.State() == r.db && client.issued == old(client.issued) + r.issued && outcome == r.outcome
  {
    var playerData := entry;
    var existing := FindPlayer(store.players, playerData.id);
    if existing.None? {
      var details := client.GetPerson(playerData.id);
      if details.Err? {
        return Failed(details.error);
      }
      if details.value.Some? {
        playerData := playerData.(section := details.value.value.section,
                                  shirtNumber := details.value.value.shirtNumber);
      }
      assert playerData == Enrich(entry, details.value);
      var saved := store.SavePlayer(NewPlayer(playerData, team));
      if saved.Err? {
        return Failed(saved.error);
      }
      store.PushPlayerToTeam(team, saved.value);
    } else {
      store.AddTeamToPlayer(existing.value, team);
      store.PushPlayerToTeam(team, existing.value);
    }
    outcome := Done;
  }

  method ImportPlayers(store: Store, client: Client, teamCode: ExtId, team: LocalId) returns (outcome: Outcome)
    modifies store, client
    ensures var r := ImportPlayersRun(old(store.State()), client.api, teamCode, team);
      store.State() == r.db && client.issued == old(client.issued) + r.issued && outcome == r.outcome
  {
    var answer := client.GetTeam(teamCode);
    if answer.Err? {
      return Failed(answer.error);
    }
    outcome := ImportSquadLoop(store, client, team, answer.value);
  }

  /** One turn of the loop over the squad: the entries before `i` have been
      imported without failure, and entry `i` is imported next. */
  method ImportSquadAt(store: Store, client: Client, team: LocalId, squad: seq<SquadEntry>, i: nat,
                       ghost db0: Db, ghost issued0: seq<Request>) returns (outcome: Outcome)
    requires i < |squad|
    requires |issued0| <= |client.issued| && client.issued == issued0 + client.issued[|issued0|..]
    requires Fold(db0, squad[..i], EntryStep(client.api, team)) == Run(store.State(), client.issued[|issued0|..], Done)
    modifies store, client
    ensures |issued0| <= |client.issued| && client.issued == issued0 + client.issued[|issued0|..]
    ensures Fold(db0, squad[..i + 1], EntryStep(client.api, team)) == Run(store.State(), client.issued[|issued0|..], outcome)
  {
    FoldNext(db0, squad, i, EntryStep(client.api, team));
    ghost var before := Fold(db0, squad[..i], EntryStep(client.api, team));
    ghost var issued1 := client.issued;
    outcome := ImportSquadEntry(store, client, team, squad[i]);
    ghost var r := PlayerStep(before.db, client.api, team, squad[i]);
    assert EntryStep(client.api, team)(before.db, squad[i]) == r;
    LogAfterStep(issued0, issued1, client.issued, before.issued, r.issued);
  }

  /** The loop over the squad, in the API's order. */
  method ImportSquadLoop(store: Store, client: Client, team: LocalId, squad: seq<SquadEntry>) returns (outcome: Outcome)
    modifies store, client
    ensures var r := ImportSquad(old(store.State()), client.api, team, squad);
      store.State() == r.db && client.issued == old(client.issued) + r.issued && outcome == r.outcome
  {
    ghost var db0 := store.State();
    ghost var issued0 := client.issued;
    outcome := Done;
    var i := 0;
    while i < |squad| && outcome.Done?
      invariant 0 <= i <= |squad|
      invariant |issued0| <= |client.issued| && client.issued == issued0 + client.issued[|issued0|..]
      invariant Fold(db0, squad[..i], EntryStep(client.api, team)) == Run(store.State(), client.issued[|issued0|..], outcome)
    {
      outcome := ImportSquadAt(store, client, team, squad, i, db0, issued0);
      i := i + 1;
    }
    if outcome.Failed? {
      FoldStopsAtFirstFailure(db0, squad, i, EntryStep(client.api, team));
    } else {
      assert squad[..i] == squad;
    }
  }

  // ---------------------------------------------------------------------------
  // Players of a competition

  /** The optional tla filter; the empty tla (a falsy parameter) filters nothing. */
  predicate TlaMatches(team: Team, tla: string)
  {
    tla == "" || team.tla == tla
  }

  /** `competition.teams.flatMap(team => team.players)`, over the teams the
      competition references that pass the tla filter, team by team. */
  function CompetitionPlayers(db: Db, teamRefs: seq<LocalId>, tla: string): seq<Player>
  {
    if teamRefs == [] then []
    else TeamPlayers(db, teamRefs[0], tla) + CompetitionPlayers(db, teamRefs[1..], tla)
  }

  /** The populated players of one referenced team; none when the reference
      names no team or the team does not pass the tla filter. */
  function TeamPlayers(db: Db, ref: LocalId, tla: string): seq<Player>
  {
    if ref < |db.teams| && TlaMatches(db.teams[ref], tla) then Resolve(db.players, db.teams[ref].players) else []
  }

  /** `getPlayersByCompetitionService(code, { page, limit }, teamTla)`. */
  function PlayersByCompetition(db: Db, code: string, page: Option<Positive>, limit: Option<Positive>,
                                teamTla: string): Result<seq<Player>>
  {
    if teamTla != "" && FindTeamByTla(db.teams, teamTla).None? then
      Err(TeamNotFound(teamTla))
    else
      match FindCompetitionByCode(db.competitions, code)
      case None => Err(CompetitionNotFound(code))
      case Some(c) =>
        Ok(Page(CompetitionPlayers(db, db.competitions[c].teams, teamTla), PageOr(page), LimitOr(limit)))
  }
}

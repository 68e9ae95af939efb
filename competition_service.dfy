/** src/services/competitionService.ts: importing a competition with all its
    teams and players (`importCompetition`) and listing the stored
    competitions (`getCompetitionsService`). */
module CompetitionService {
  import opened Football
  import opened FootballApi
  import opened Documents
  import opened TeamService

  /** `importCompetition(code)`. A competition already stored under `code` ends the
      call at once. Otherwise the competition is fetched and saved with the API's
      name, code and id and no teams (the save fails on a unique-index clash),
      and then its teams are imported under the API's id and the new local id. */
  function ImportCompetitionRun(db: Db, api: Api, code: string): Run
  {
    if FindCompetitionByCode(db.competitions, code).Some? then Run(db, [], Done)
    else
      match CompetitionAnswer(api, code)
      case Err(e) => Run(db, [CompetitionByCode(code)], Failed(e))
      case Ok(data) =>
        match InsertCompetition(db, Competition(data.name, data.code, data.id, []))
        case Err(e) => Run(db, [CompetitionByCode(code)], Failed(e))
        case Ok(saved) =>
          Then(Run(saved, [CompetitionByCode(code)], Done), ImportTeamsRun(saved, api, data.id, |db.competitions|))
  }

  method ImportCompetition(store: Store, client: Client, code: string) returns (outcome: Outcome)
    modifies store, client
    ensures var r := ImportCompetitionRun(old(store.State()), client.api, code);
      store.State() == r.db && client.issued == old(client.issued) + r.issued && outcome == r.outcome
  {
    var existingCompetition := FindCompetitionByCode(store.competitions, code);
    if existingCompetition.None? {
      var answer := client.GetCompetition(code);
      if answer.Err? {
        return Failed(answer.error);
      }
      var competitionData := answer.value;
      var saved := store.SaveCompetition(Competition(competitionData.name, competitionData.code, competitionData.id, []));
      if saved.Err? {
        return Failed(saved.error);
      }
      SquadImportImportsSquads(client.api);
      outcome := ImportTeams(store, client, competitionData.id, saved.value, SquadImport(client.api));
    } else {
      outcome := Done;
    }
  }

  /** `getCompetitionsService()`: every stored competition, in store order. */
  function GetCompetitions(db: Db): seq<Competition>
  {
    db.competitions
  }
}

/** The external football data API as the import sees it: the payloads it
    answers with, a snapshot of its answers, and a client that issues
    requests against that snapshot and records each request it issues. */
module FootballApi {
  import opened Football

  /** The fields of a competition answer that the import reads. */
  datatype CompetitionData = CompetitionData(id: ExtId, name: string, code: string)

  /** One entry of a competition's team list. */
  datatype TeamData = TeamData(
    id: ExtId, name: string, tla: string, shortName: string, crest: string,
    website: string, founded: int, clubColors: string)

  /** One entry of a team's squad. Section and shirt number may be missing. */
  datatype SquadEntry = SquadEntry(
    id: ExtId, name: string, position: string, dateOfBirth: string,
    nationality: string, section: Option<string>, shirtNumber: Option<int>)

  /** The enrichment fields of a person answer. */
  datatype PersonDetails = PersonDetails(section: Option<string>, shirtNumber: Option<int>)

  /** What the API answers, resource by resource. A key that is absent stands for a
      request that fails; a person answer `None` is a response with an empty body. */
  datatype Api = Api(
    competitions: map<string, CompetitionData>,
    teamLists: map<ExtId, seq<TeamData>>,
    squads: map<ExtId, seq<SquadEntry>>,
    persons: map<ExtId, Option<PersonDetails>>)

  function CompetitionAnswer(api: Api, code: string): Result<CompetitionData>
  {
    if code in api.competitions then Ok(api.competitions[code])
    else Err(FetchFailed(CompetitionByCode(code)))
  }

  function TeamListAnswer(api: Api, competitionId: ExtId): Result<seq<TeamData>>
  {
    if competitionId in api.teamLists then Ok(api.teamLists[competitionId])
    else Err(FetchFailed(TeamsOfCompetition(competitionId)))
  }

  function SquadAnswer(api: Api, teamId: ExtId): Result<seq<SquadEntry>>
  {
    if teamId in api.squads then Ok(api.squads[teamId])
    else Err(FetchFailed(TeamById(teamId)))
  }

  function PersonAnswer(api: Api, personId: ExtId): Result<Option<PersonDetails>>
  {
    if personId in api.persons then Ok(api.persons[personId])
    else Err(FetchFailed(PersonById(personId)))
  }

  /** The HTTP client. `issued` lists every request sent, in order. */
  class Client {
    const api: Api
    var issued: seq<Request>

    constructor (api: Api)
      ensures this.api == api && issued == []
    {
      this.api := api;
      issued := [];
    }

    method GetCompetition(code: string) returns (r: Result<CompetitionData>)
      modifies this
      ensures issued == old(issued) + [CompetitionByCode(code)]
      ensures r == CompetitionAnswer(api, code)
    {
      issued := issued + [CompetitionByCode(code)];
      r := CompetitionAnswer(api, code);
    }

    method GetTeams(competitionId: ExtId) returns (r: Result<seq<TeamData>>)
      modifies this
      ensures issued == old(issued) + [TeamsOfCompetition(competitionId)]
      ensures r == TeamListAnswer(api, competitionId)
    {
      issued := issued + [TeamsOfCompetition(competitionId)];
      r := TeamListAnswer(api, competitionId);
    }

    method GetTeam(teamId: ExtId) returns (r: Result<seq<SquadEntry>>)
      modifies this
      ensures issued == old(issued) + [TeamById(teamId)]
      ensures r == SquadAnswer(api, teamId)
    {
      issued := issued + [TeamById(teamId)];
      r := SquadAnswer(api, teamId);
    }

    method GetPerson(personId: ExtId) returns (r: Result<Option<PersonDetails>>)
      modifies this
      ensures issued == old(issued) + [PersonById(personId)]
      ensures r == PersonAnswer(api, personId)
    {
      issued := issued + [PersonById(personId)];
      r := PersonAnswer(api, personId);
    }
  }
}

/** Identifiers, requests to the external football data API, and the failures
    the services can report. Shared by every other module. */
module Football {

  /** An identifier assigned by the external API (competition, team or person id),
      as opposed to the local identifier of a stored document. */
  type ExtId = int

  datatype Option<+T> = None | Some(value: T)

  /** The four resources the API client requests. */
  datatype Request =
    | CompetitionByCode(code: string)
    | TeamsOfCompetition(competitionId: ExtId)
    | TeamById(teamId: ExtId)
    | PersonById(personId: ExtId)

  /** The unique indexes declared by the document schemas. */
  datatype UniqueIndex = CompetitionCodeIndex | CompetitionIdIndex | PlayerIdIndex

  datatype Error =
    | FetchFailed(request: Request)       // non-2xx answer or network failure
    | DuplicateKey(index: UniqueIndex)    // a save that violates a unique index
    | CompetitionNotFound(code: string)
    | TeamNotFound(tla: string)

  datatype Result<+T> = Ok(value: T) | Err(error: Error)

  /** How an import ends: it runs to completion or stops at its first failure. */
  datatype Outcome = Done | Failed(error: Error)
}

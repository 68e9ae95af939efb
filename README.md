# Football data import and read services, modelled in Dafny

This project models the service layer of a small REST API. The API imports
football competitions from an external football data API into a document store
(MongoDB). It then answers read queries over what it has stored.

There are three imports. Each one calls the next:

- `importCompetition(code)` does nothing when a competition with that code is
  already stored. Otherwise it fetches the competition, saves it with no teams,
  and imports its teams.
- `importTeams(competitionId, competitionObjectId)` fetches the competition's
  team list and goes through it in order. It looks each team up by its
  `teamId` field:
  - A team found that way gets the competition added to its `competitions`
    with set semantics (`$addToSet`).
  - Otherwise a new team is saved, its id is pushed onto the competition's
    `teams`, and its squad is imported.
- `importPlayers(teamCode, teamId)` fetches the team's squad and goes through
  it in order:
  - A stored player gets the team added to its `teams` with set semantics.
    The player's id is then pushed (`$push`) onto the team's `players`.
  - A new player is first looked up at the API's person endpoint. Section and
    shirt number come from that answer when it has a body. The player is saved
    with the importing team as its only team, and its id is pushed onto the
    team's `players`.

Each import sits inside a try/catch that rethrows, so the first failure ends
it. Writes made before that failure stay in the store.

The read services:

- `getPlayersByCompetitionService` checks the optional team tla first. It then
  flattens the players of the competition's teams, team by team, and returns
  one page of that list.
- `getTeamsByCompetitionService` filters the competition's teams by name and
  returns one page of them.
- `getPlayersByTeamService` returns the players of the team with a given tla.
- `getCompetitionsService` lists the stored competitions.

## How the model is built

- **Store.** The store `Documents.Store` is a class with three collections,
  each a `seq` of records: competitions, teams and players. A document's local
  id is its position in its collection. Records reference each other by local
  id.
- **API.** The external API is a fixed snapshot, `FootballApi.Api`. A request
  whose key is absent from the snapshot fails. `FootballApi.Client` answers
  from the snapshot and records every request it issues, in order.
- **Imports.** Each import is written twice:
  - as a pure function of the store (`ImportCompetitionRun`, `ImportTeamsRun`,
    `ImportPlayersRun`), returning the new store, the requests issued and the
    outcome;
  - as an imperative method with the source's loop (`ImportCompetition`,
    `ImportTeams`, `ImportPlayers`), which mutates the store and client.

  Each method is proved to produce exactly what its function specifies. The
  properties are then proved about the functions.
- **Loops.** A loop over fetched items that stops at its first failure is the
  fold `Documents.Fold`.
- **Squad importer.** The team import is stated for any squad importer that
  behaves like `importPlayers` (`TeamService.ImportsSquads`).
  `ImportCompetition` passes the real one, `TeamService.SquadImport`.
- **Read services.** These are pure functions over the store. `populate`
  becomes `Documents.Resolve`. Paging becomes `Pagination.Page` over the
  offset `Pagination.Start`, which is proved equal to `(page - 1) * limit`.
- **Invariant.** `Documents.Valid` is the store invariant, made of four parts:
  - every reference names a stored document;
  - the unique indexes on competition `code` and `competitionId` and on player
    `playerId` hold;
  - the reference arrays used as sets hold no duplicate;
  - every link is stored in both directions.

Two behaviours of the code are modelled as written:

- **The team lookup field is never written.** The team import looks teams up by
  `teamId`, but it stores the API's id under `teamCode`.
  - `Documents.Team` therefore carries a `teamId` field that the import never
    sets.
  - On a store where no team has that field (`Documents.NoTeamIdField`), every
    fetched team is saved as a new team.
  - The existing-team branch is still modelled. It adds the link on the team
    side only (`TeamServiceProofs.ExistingTeamBranchBreaksMirroring`), so
    `Valid` is proved preserved only under `NoTeamIdField`.
- **Repeated squad ids give repeated references.** A team's `players` array
  grows by `$push`. A squad that lists the same person twice makes the team
  reference that player twice (`PlayerServiceProofs.RepeatedEntryIsReferencedTwice`).
  So `players` is not one of the set-like arrays of `Documents.SetLike`.

## Model

| member | source | states |
|---|---|---|
| FootballApi.Client.GetCompetition | src/services/competitionService.ts:18-21 | the competition request is recorded, and the answer is the snapshot's, or a fetch failure |
| FootballApi.Client.GetTeams | src/services/teamService.ts:29-32 | the team-list request is recorded, and the answer is the snapshot's, or a fetch failure |
| FootballApi.Client.GetTeam | src/services/playerService.ts:34-37 | the squad request is recorded, and the answer is the snapshot's, or a fetch failure |
| FootballApi.Client.GetPerson | src/services/playerService.ts:45-48 | the person request is recorded, and the answer is the snapshot's (possibly without a body), or a fetch failure |
| Documents.AddToSet | src/services/playerService.ts:72 | `$addToSet`: the result holds the old items and the new one; it extends the old array by at most one item, and leaves it unchanged when the item is already there; an array without duplicates stays without duplicates |
| Documents.FindFirst | src/services/competitionService.ts:14 | `findOne` on one field: the position of the first document the filter accepts, or none exactly when it accepts none |
| Documents.FindCompetitionByCode | src/services/competitionService.ts:14 | `findOne({ code })`: the first competition with the code, or none exactly when no competition has it |
| Documents.FindTeamByTeamId | src/services/teamService.ts:35 | `findOne({ teamId })`: the first team whose `teamId` is the id, or none exactly when no team has it |
| Documents.FindTeamByTla | src/services/teamService.ts:112 | `findOne({ tla })`: the first team with the tla, or none exactly when no team has it |
| Documents.FindPlayer | src/services/playerService.ts:41 | `findOne({ playerId })`: the first player with the id, or none exactly when no player has it |
| Documents.Resolve | src/services/teamService.ts:112-114 | `populate`: never longer than the references; when every reference names a document, it holds exactly those documents, in the references' order |
| Documents.InsertCompetition | src/services/competitionService.ts:30 | `save()` of a competition under the unique indexes on `code` and `competitionId` (src/models/competition.ts:16-17); `InsertCompetitionEnforcesUniqueKeys` states when it fails and what it appends |
| Documents.InsertTeam | src/services/teamService.ts:51 | `save()` of a team, which declares no unique index and so always appends; `TeamServiceProofs.NewTeamIsSavedLinkedThenImported` states the saved record and its id |
| Documents.InsertPlayer | src/services/playerService.ts:69 | `save()` of a player under the unique index on `playerId` (src/models/player.ts:26); `InsertPlayerEnforcesUniqueKeys` states when it fails and what it appends |
| Documents.InsertCompetitionEnforcesUniqueKeys | src/models/competition.ts:16-17 | saving a competition fails exactly when a stored one has its code or its competitionId, and names the code index when the code clashes; a save that succeeds appends it and keeps both keys unique |
| Documents.InsertPlayerEnforcesUniqueKeys | src/models/player.ts:26 | saving a player fails exactly when a stored one has its playerId; a save that succeeds appends it and keeps player ids unique |
| Documents.PushCompetitionTeam | src/services/teamService.ts:52 | `$push` of a team onto a competition's `teams`; `TeamServiceProofs.NewTeamIsSavedLinkedThenImported` and `ImportCompetitionLinksItsTeams` state the link it adds |
| Documents.AddTeamCompetition | src/services/teamService.ts:59 | `$addToSet` of a competition onto a team's `competitions`; `TeamServiceProofs.ExistingTeamOnlyGetsCompetition` states that it adds the competition once and changes nothing else |
| Documents.PushTeamPlayer | src/services/playerService.ts:70-73 | `$push` of a player onto a team's `players`, repeats allowed; `PlayerServiceProofs.RepeatedEntryIsReferencedTwice` shows a repeat is kept |
| Documents.AddPlayerTeam | src/services/playerService.ts:72 | `$addToSet` of a team onto a player's `teams`; `PlayerServiceProofs.ExistingEntryLinksPlayer` states the link it adds |
| Documents.EmptyStoreIsValid | src/models/competition.ts:16-17 | the empty store that `Store()` starts from meets the unique indexes and every other store invariant, and holds no team with a `teamId`, so the invariant lemmas of the imports apply from the first import on |
| Documents.Fold | src/services/playerService.ts:40-81 | a `for … of` loop inside a `try` that rethrows: the items in order until the first failure, which is the loop's outcome; the same loop shape is src/services/teamService.ts:34-65; `FoldAppend`, `FoldStopsAtFirstFailure`, `FoldPreserves` and `FoldKeepsUntilFailure` state its behaviour |
| Documents.FoldAppend | src/services/playerService.ts:40-81 | a loop that rethrows its first failure, over `s + t`, is the loop over `s`, then, unless that failed, the loop over `t` from where it left off |
| Documents.FoldPreserves | src/services/teamService.ts:34-65 | a store property every loop step keeps holds after the whole loop, whether it completes or rethrows early |
| Documents.FoldKeepsUntilFailure | src/services/playerService.ts:40-81 | a property of the store and the items done, extended by every completed step and weakened by a failed one, describes the loop's result in both cases |
| Documents.FoldStopsAtFirstFailure | src/services/teamService.ts:62-65 | once a prefix of the items fails, the items after it are never processed, and the writes made before the failure stay |
| Documents.Store.SaveCompetition | src/services/competitionService.ts:30 | `save` appends the competition and returns its new id, or fails on a unique-index clash and writes nothing |
| Documents.Store.SaveTeam | src/services/teamService.ts:51 | `save` appends the team (no unique index can clash) and returns its new id |
| Documents.Store.SavePlayer | src/services/playerService.ts:69 | `save` appends the player and returns its new id, or fails on the playerId index and writes nothing |
| Documents.Store.PushTeamToCompetition | src/services/teamService.ts:52 | `$push` of a team id onto a competition's `teams`; no write when the competition id names nothing |
| Documents.Store.AddCompetitionToTeam | src/services/teamService.ts:59 | `$addToSet` of a competition id on a team's `competitions` |
| Documents.Store.PushPlayerToTeam | src/services/playerService.ts:70 | `$push` of a player id onto a team's `players`, duplicates allowed |
| Documents.Store.AddTeamToPlayer | src/services/playerService.ts:72 | `$addToSet` of a team id on a player's `teams` |
| Pagination.StartIsOffset | src/services/playerService.ts:123 | the number of items before page `page` is `(page - 1) * limit` |
| Pagination.Page | src/services/playerService.ts:121-125 | a page has at most `limit` items and is the window `IsWindow` describes: the items from the offset `(page - 1) * limit` on, in the list's order, `limit` of them or fewer only where the list ends, and none past the end |
| Pagination.PageIsWithinList | src/services/playerService.ts:125 | every item of a page is an item of the list |
| Pagination.PagesPartitionTheList | src/services/teamService.ts:95 | pages 1 to `n`, read in order, are exactly the items before page `n + 1`, or the whole list once that reaches the end |
| Pagination.TwentyFiveItemsTwelvePerPage | src/services/playerService.ts:121-125 | with 25 items and 12 to a page, page 1 holds the first twelve, page 3 the last one, and page 4 none |
| PlayerService.Enrich | src/services/playerService.ts:49-56 | an answer with a body replaces section and shirt number and keeps every other field of the entry; an answer without a body keeps the entry (`PlayerServiceProofs.NewEntryCreatesPlayer` states the saved record) |
| PlayerService.NewPlayer | src/services/playerService.ts:58-67 | the player document built from a (possibly enriched) squad entry, with `teams` set to the one team; `PlayerServiceProofs.NewEntryCreatesPlayer` states each field of the saved record |
| PlayerService.PlayerStep | src/services/playerService.ts:41-74 | one squad entry: link a stored player, or fetch, save and push a new one; `NewEntryCreatesPlayer`, `ExistingEntryLinksPlayer` and `PlayerStepPreservesValid` state what each branch writes and fetches |
| PlayerService.ImportPlayersRun | src/services/playerService.ts:32-82 | `importPlayers` as a function of the store: the squad request, then the squad in API order up to the first failure; `ImportPlayersFrame`, `ImportPlayersPreservesValid` and the squad lemmas state its effect |
| PlayerService.ImportSquad | src/services/playerService.ts:40-77 | the squad loop as a fold of `PlayerStep` over the entries; `ImportSquadFrame`, `ImportSquadLinksEveryEntry`, `ImportSquadFetchesOnlyNewPlayers`, `ImportSquadFailsOnlyOnPersonFetch` and `ImportSquadPreservesValid` state its effect |
| PlayerService.ImportSquadEntry | src/services/playerService.ts:41-74 | one loop body leaves the store, and appends the requests, that the specification of one squad entry gives |
| PlayerService.ImportSquadAt | src/services/playerService.ts:40-77 | one turn of the squad loop extends the completed prefix by one entry, as the fold specifies |
| PlayerService.ImportSquadLoop | src/services/playerService.ts:40-77 | the squad loop leaves the store, requests and outcome of the fold over the squad in API order, stopping at the first failure |
| PlayerService.ImportPlayers | src/services/playerService.ts:32-82 | `importPlayers` leaves exactly the store, requests and outcome of `ImportPlayersRun` |
| PlayerServiceProofs.NewEntryCreatesPlayer | src/services/playerService.ts:42-70 | an entry whose id is not stored is looked up at the API, and a failed lookup writes nothing; otherwise exactly one player is appended, with the entry's fields, section and shirt number taken from an answer with a body, and the importing team as its only team; its id is appended to that team's players and nothing else changes |
| PlayerServiceProofs.ExistingEntryLinksPlayer | src/services/playerService.ts:71-74 | a stored player is not looked up; the team is added to its teams with set semantics, and its id is pushed onto the team's players unconditionally; nothing else changes |
| PlayerServiceProofs.ImportSquadFrame | src/services/playerService.ts:40-81 | a squad import, complete or failed, touches only the players collection and the importing team's players, by growing them; no competition and no other team changes |
| PlayerServiceProofs.ImportSquadLinksEveryEntry | src/services/playerService.ts:40-77 | a completed squad import appends one reference per entry to the team's players, in API order; each names the stored player with that entry's id, and that player names the team |
| PlayerServiceProofs.ImportSquadFetchesOnlyNewPlayers | src/services/playerService.ts:41-47 | only ids not stored when the import started are looked up at the person endpoint, each at most once, even when the squad repeats an id; a completed import ends with each of them stored |
| PlayerServiceProofs.ImportSquadFailsOnlyOnPersonFetch | src/services/playerService.ts:45-69 | a squad import fails only on a failed person lookup, which is its last request; no player save clashes on the playerId index |
| PlayerServiceProofs.ImportSquadPreservesValid | src/services/playerService.ts:40-77 | importing a squad into a valid store leaves a valid store |
| PlayerServiceProofs.ImportPlayersFrame | src/services/playerService.ts:32-37 | `importPlayers` first requests the squad; a failed request ends it with that failure and no write; either way only the players and the team's players change, and only by growing |
| PlayerServiceProofs.ImportPlayersPreservesValid | src/services/playerService.ts:32-82 | `importPlayers` on a valid store leaves a valid store |
| PlayerServiceProofs.RepeatedEntryIsReferencedTwice | src/services/playerService.ts:70-73 | a squad listing one new person twice fetches and stores the person once, with the team listed once, but the team references the player twice |
| TeamService.MatchingTeams | src/services/teamService.ts:88-94 | the name filter keeps exactly the teams whose name matches and never lengthens the list; with no name given it returns the list unchanged |
| TeamService.NewTeam | src/services/teamService.ts:38-49 | the team document built from a fetched team: `teamCode` is the API id, `teamId` is left unset, `competitions` is the one competition and `players` is empty; `TeamServiceProofs.NewTeamIsSavedLinkedThenImported` states the saved record |
| TeamService.SquadImport | src/services/teamService.ts:55 | the squad importer the team import calls, `importPlayers` against the same API |
| TeamService.SquadImportImportsSquads | src/services/teamService.ts:55 | that importer behaves as `importPlayers`, so every lemma stated for any such importer applies to `importTeams` |
| TeamService.TeamStep | src/services/teamService.ts:35-60 | one fetched team: only `$addToSet` on a team found by `teamId`; otherwise save, push onto the competition, then the squad import; `NewTeamIsSavedLinkedThenImported`, `ExistingTeamOnlyGetsCompetition` and `TeamStepPreservesValid` state each branch |
| TeamService.ImportTeamsWith | src/services/teamService.ts:27-66 | `importTeams` with any squad importer that behaves like `importPlayers`: the team-list request, then the teams in API order up to the first failure; `ImportTeamListFrame`, `ImportTeamListCreatesTeams` and `ImportTeamListPreservesValid` state its effect |
| TeamService.ImportTeamsRun | src/services/teamService.ts:27-66 | `importTeams` with `importPlayers` as squad importer; `ImportTeamsFrame`, `ImportTeamsCreatesTeams` and `ImportTeamsPreservesValid` state its effect |
| TeamService.TeamsByCompetition | src/services/teamService.ts:75-102 | the team listing: `TeamsByCompetitionFailures`, `TeamsByCompetitionWindow` and `TeamsByCompetitionDefaults` state when it fails and which teams it returns |
| TeamService.PlayersByTeam | src/services/teamService.ts:110-120 | players by team tla: `PlayersByTeamContents` states when it fails and what it returns |
| TeamService.ImportTeamEntry | src/services/teamService.ts:35-60 | one loop body leaves the store, and appends the requests, that the specification of one fetched team gives |
| TeamService.ImportTeamAt | src/services/teamService.ts:34-61 | one turn of the team loop extends the completed prefix by one team, as the fold specifies |
| TeamService.ImportTeamLoop | src/services/teamService.ts:34-61 | the team loop leaves the store, requests and outcome of the fold over the team list in API order, stopping at the first failure, including one from a squad import |
| TeamService.ImportTeams | src/services/teamService.ts:27-66 | `importTeams` leaves exactly the store, requests and outcome of its specification |
| TeamServiceProofs.NewTeamIsSavedLinkedThenImported | src/services/teamService.ts:37-55 | a team the lookup does not find is saved with the API's id as `teamCode`, the competition as its only competition and no players; its id is appended to the competition's teams; only then is its squad imported, under the API id and new local id |
| TeamServiceProofs.ExistingTeamOnlyGetsCompetition | src/services/teamService.ts:57-60 | a team the lookup finds gets the competition added with set semantics; nothing is fetched, no squad is imported, and the competition's teams and every other document stay the same |
| TeamServiceProofs.ExistingTeamBranchBreaksMirroring | src/services/teamService.ts:57-60 | there is a valid store from which the existing-team branch reaches a store where the team lists the competition but the competition does not list the team |
| TeamServiceProofs.ImportTeamListFrame | src/services/teamService.ts:34-65 | a team-list import, complete or failed, changes no competition but the importing one, and removes or rewrites nothing stored |
| TeamServiceProofs.ImportTeamListCreatesTeams | src/services/teamService.ts:34-55 | on a store where no team has `teamId`, one new team is saved per fetched team, in API order, from its fetched data; the competition references exactly those teams after its old ones; a completed import saved them all |
| TeamServiceProofs.TeamStepPreservesValid | src/services/teamService.ts:37-55 | saving, linking and squad-importing one new team keeps a valid store valid and keeps `teamId` unset |
| TeamServiceProofs.ImportTeamListPreservesValid | src/services/teamService.ts:34-61 | on a valid store where no team has `teamId`, a team-list import leaves a valid store, still without `teamId` |
| TeamServiceProofs.ImportTeamsFrame | src/services/teamService.ts:27-32 | `importTeams` first requests the team list; a failed request ends it with that failure and no write; either way only the importing competition changes, and nothing stored is removed or rewritten |
| TeamServiceProofs.ImportTeamsCreatesTeams | src/services/teamService.ts:27-66 | on a store where no team has `teamId`, `importTeams` creates the fetched teams in order and links each to the competition |
| TeamServiceProofs.ImportTeamsPreservesValid | src/services/teamService.ts:27-66 | on a valid store where no team has `teamId`, `importTeams` leaves a valid store |
| CompetitionService.ImportCompetitionRun | src/services/competitionService.ts:12-40 | `importCompetition` as a function of the store: nothing on a stored code, otherwise fetch, save with no teams, then `importTeams`; the `ImportCompetition*` and `Reimport*` lemmas state its effect |
| CompetitionService.GetCompetitions | src/services/competitionService.ts:47-51 | every stored competition, in store order; `ImportedCompetitionIsListed` states what the listing holds after an import |
| CompetitionService.ImportCompetition | src/services/competitionService.ts:12-40 | `importCompetition` leaves exactly the store, requests and outcome of its specification |
| CompetitionServiceProofs.ImportCompetitionFetchesOnlyUnknownCodes | src/services/competitionService.ts:14-16 | a stored code ends the import at once, with no request and no write; otherwise the competition is requested first |
| CompetitionServiceProofs.ImportCompetitionEarlyFailures | src/services/competitionService.ts:18-30 | a failed competition request, or a save that clashes with a unique index, ends the import with that failure and no write |
| CompetitionServiceProofs.ImportCompetitionSaves | src/services/competitionService.ts:23-31 | a competition that can be saved is appended with the API's name, code and id and no teams; the import then goes on with `importTeams` under the API id and the new local id, and ends as it ends |
| CompetitionServiceProofs.ImportCompetitionCreates | src/services/competitionService.ts:23-31 | the saved competition is requested before its team list and stays stored with the API's fields, whatever the team import does; competitions stored before are unchanged |
| CompetitionServiceProofs.ImportCompetitionLinksItsTeams | src/services/competitionService.ts:30-31 | on a store where no team has `teamId`, the new competition ends up referencing exactly the teams its import created, in API order; a completed import gives one per fetched team |
| CompetitionServiceProofs.ImportCompetitionPreservesValid | src/services/competitionService.ts:12-40 | on a valid store where no team has `teamId`, importing a competition leaves a valid store |
| CompetitionServiceProofs.ReimportIsNoOpWhenCodesAgree | src/services/competitionService.ts:14-25 | when the API stores a competition under the requested code, a second import fetches and writes nothing, unless the first failed on the competitionId index |
| CompetitionServiceProofs.ReimportRefetchesWhenCodesDiffer | src/services/competitionService.ts:14-30 | when the API's code differs from the requested one, a second import finds nothing, fetches again, and fails on the code index without writing |
| CompetitionServiceProofs.ImportedCompetitionIsListed | src/services/competitionService.ts:47-50 | after a completed import, the listing either already held a competition with the code and is unchanged, or holds the fetched competition as its last entry |
| QueryProofs.ResolveMembership | src/services/teamService.ts:112-114 | a populated array holds a document exactly when one of its references names it |
| QueryProofs.CompetitionPlayersAppend | src/services/playerService.ts:125 | the flattened player list is built team by team: flattening two runs of team references is flattening each and concatenating |
| QueryProofs.CompetitionPlayersMembership | src/services/playerService.ts:106-125 | a player is in the flattened list exactly when some referenced team that passes the tla filter references it |
| PlayerService.PlayersByCompetition | src/services/playerService.ts:92-127 | the competition's players: `PlayersByCompetitionFailures`, `PlayersByCompetitionWindow`, `PlayersByCompetitionOnlyFromTeamTla` and `PlayersByCompetitionDefaults` state when it fails and which players it returns |
| PlayerService.CompetitionPlayers | src/services/playerService.ts:106-125 | the populated teams of the competition, kept by the tla match when one is given, with each team's populated players in order (`flatMap`); `CompetitionPlayersAppend` and `CompetitionPlayersMembership` state its contents |
| PlayerService.TeamPlayers | src/services/playerService.ts:106-113 | one referenced team's part of that list: its populated players when the team exists and passes the tla match, nothing otherwise |
| QueryProofs.PlayersByCompetitionFailures | src/services/playerService.ts:99-119 | a given tla that no team has fails with team-not-found, checked before the competition; otherwise an unknown code fails with competition-not-found; nothing else fails |
| QueryProofs.PlayersByCompetitionWindow | src/services/playerService.ts:121-126 | a result is the window of the first matching competition's flattened players at offset `(page - 1) * limit`; it has `limit` items, or fewer only at the end of the list |
| QueryProofs.PlayersByCompetitionOnlyFromTeamTla | src/services/playerService.ts:106-109 | with a tla given, every listed player is referenced by a team of the competition that has that tla |
| QueryProofs.PlayersByCompetitionDefaults | src/services/playerService.ts:94-95 | a request without page or limit is the request for page 1 with limit 12 |
| QueryProofs.TeamsByCompetitionFailures | src/services/teamService.ts:92-99 | the team listing fails, with competition-not-found, exactly when no competition has the code |
| QueryProofs.TeamsByCompetitionWindow | src/services/teamService.ts:83-101 | a result is exactly the window, after `(page - 1) * limit` skipped teams, of the first matching competition's teams that pass the name filter: `limit` teams in list order, fewer only at the end of the list; each listed team is referenced by the competition and passes the filter |
| QueryProofs.MatchingTeamsAppend | src/services/teamService.ts:92-96 | the name filter keeps the list's order and repeats: filtering two runs of teams is filtering each and concatenating |
| QueryProofs.PageOfMatchingTeams | src/services/teamService.ts:88-96 | a page of the filtered, populated teams holds only teams the competition references that pass the filter |
| QueryProofs.TeamsByCompetitionDefaults | src/services/teamService.ts:77-78 | a request without page or limit is the request for page 1 with limit 12 |
| QueryProofs.PlayersByTeamContents | src/services/teamService.ts:110-120 | players-by-team fails, with team-not-found, exactly when no team has the tla; otherwise it returns the populated players of the first such team, which in a store whose references are in range are that team's references in order, repeats included |

## Left out

- Rate limiting and delays (the Bottleneck limiters and the timers before each fetch) affect only timing. The loops already await each call in turn, so the order of requests is modelled without them.
- Each HTTP call becomes a lookup in a fixed snapshot of the external API, and each failure becomes one `FetchFailed` outcome. URLs, tokens and environment variables are not modelled, and neither is an API whose answers change between calls.
- Write failures other than unique-index clashes (network errors, connection loss) are left out. Schema validation of required fields and type coercion are left out too: every record's fields are well typed by construction.
- Mongoose's `strictQuery` handling of a filter on a field the schema does not declare (`teamId`) is left out. The lookup is modelled as a plain match on the field, which no saved team carries.
- Object ids are modelled as positions in a collection. `populate` resolves references in array order and drops a reference that names no document. Mongoose applies populate's `skip` and `limit` (src/services/teamService.ts:92-96) in the query's `_id` order before it puts the results in reference order, while the model pages in reference order. The two agree because every competition's `teams` array is strictly increasing in every store the imports reach: team ids are handed out in creation order, and only the competition's own import pushes onto it. No lemma of the model states this ordering.
- The name filter's regular expression (case-insensitive `$regex`) is the abstract parameter `matches`. An empty name, like an empty tla, means "not given", following JavaScript truthiness.
- Page and limit are optional positive integers with defaults 1 and 12. `parseInt`, NaN and pages below 1 are not modelled, so neither is `slice` with a negative start.
- Controllers, routes, the Express app and console logging (HTTP status mapping and output) are left out.
- A successful answer without a `squad` or a `teams` field is not modelled. In the source the `for … of` over the missing field throws a TypeError (src/services/playerService.ts:40, src/services/teamService.ts:34). Here every successful answer in the snapshot carries a list, possibly empty.
- Concurrent requests against the same store are not modelled. Every import runs alone.
- TeamServiceProofs.ImportTeamListPreservesValid and the other invariant lemmas for the team and competition imports assume `NoTeamIdField`. The existing-team branch does not keep links mirrored (`TeamServiceProofs.ExistingTeamBranchBreaksMirroring`).

/** What importing a competition does to the store: the no-op on a known code,
    the creation of the fetched competition before its teams, the failure paths,
    re-importing, and the invariants of a store. */
module CompetitionServiceProofs {
  import opened Football
  import opened FootballApi
  import opened Documents
  import opened TeamService
  import opened TeamServiceProofs
  import opened CompetitionService

  /** A competition already stored under `code` makes the import a no-op that
      fetches nothing; otherwise the competition is fetched first. */
  lemma ImportCompetitionFetchesOnlyUnknownCodes(db: Db, api: Api, code: string)
    ensures var r := ImportCompetitionRun(db, api, code);
      && (FindCompetitionByCode(db.competitions, code).Some? ==> r == Run(db, [], Done))
      && (FindCompetitionByCode(db.competitions, code).None? ==>
            |r.issued| > 0 && r.issued[0] == CompetitionByCode(code))
  {
    var r := ImportCompetitionRun(db, api, code);
    if FindCompetitionByCode(db.competitions, code).None? && code in api.competitions {
      var data := api.competitions[code];
      var c := Competition(data.name, data.code, data.id, []);
      if InsertCompetition(db, c).Ok? {
        assert r.issued[0] == CompetitionByCode(code);
      }
    }
  }

  /** A failed competition fetch, or a save that clashes with a unique index,
      ends the import with that failure and no write. */
  lemma ImportCompetitionEarlyFailures(db: Db, api: Api, code: string)
    requires FindCompetitionByCode(db.competitions, code).None?
    ensures var r := ImportCompetitionRun(db, api, code);
      && (code !in api.competitions ==>
            r == Run(db, [CompetitionByCode(code)], Failed(FetchFailed(CompetitionByCode(code)))))
      && (code in api.competitions ==>
            var data := api.competitions[code];
            var index := CompetitionClash(db.competitions, Competition(data.name, data.code, data.id, []));
            index.Some? ==> r == Run(db, [CompetitionByCode(code)], Failed(DuplicateKey(index.value))))
  {
  }

  /** The import of a code that is neither stored nor clashing, spelled out: the
      fetched competition appended to the competitions, then `importTeams`. */
  lemma ImportCompetitionSaves(db: Db, api: Api, code: string)
    requires FindCompetitionByCode(db.competitions, code).None? && code in api.competitions
    requires var data := api.competitions[code];
      CompetitionClash(db.competitions, Competition(data.name, data.code, data.id, [])).None?
    ensures var data := api.competitions[code];
      var saved := Db(db.competitions + [Competition(data.name, data.code, data.id, [])], db.teams, db.players);
      ImportCompetitionRun(db, api, code)
        == Then(Run(saved, [CompetitionByCode(code)], Done), ImportTeamsRun(saved, api, data.id, |db.competitions|))
  {
  }

  /** When the fetched competition can be saved, it is appended with the API's
      name, code and id, and only then are its teams requested, under the API's
      id. It stays stored, with those fields, whatever the team import does, and
      the competitions stored before are unchanged. */
  lemma ImportCompetitionCreates(db: Db, api: Api, code: string)
    requires FindCompetitionByCode(db.competitions, code).None? && code in api.competitions
    requires var data := api.competitions[code];
      CompetitionClash(db.competitions, Competition(data.name, data.code, data.id, [])).None?
    ensures var data := api.competitions[code];
      var r := ImportCompetitionRun(db, api, code);
      var c := |db.competitions|;
      && |r.issued| >= 2 && r.issued[0] == CompetitionByCode(code) && r.issued[1] == TeamsOfCompetition(data.id)
      && |r.db.competitions| == c + 1
      && r.db.competitions[c].(teams := []) == Competition(data.name, data.code, data.id, [])
      && (forall k :: 0 <= k < c ==> r.db.competitions[k] == db.competitions[k])
      && Extends(db, r.db)
  {
    var data := api.competitions[code];
    var c := |db.competitions|;
    var saved := Db(db.competitions + [Competition(data.name, data.code, data.id, [])], db.teams, db.players);
    ImportCompetitionSaves(db, api, code);
    ImportTeamsFrame(saved, api, data.id, c);
    assert Extends(db, saved);
    ExtendsTransitive(db, saved, ImportTeamsRun(saved, api, data.id, c).db);
  }

  /** Against a store where no team carries `teamId`, the new competition ends up
      referencing exactly the teams its import created, in the API's order, each
      saved from its fetched data; when the team import completes, one team per
      fetched team. */
  lemma ImportCompetitionLinksItsTeams(db: Db, api: Api, code: string)
    requires FindCompetitionByCode(db.competitions, code).None? && code in api.competitions
    requires var data := api.competitions[code];
      CompetitionClash(db.competitions, Competition(data.name, data.code, data.id, [])).None?
    requires api.competitions[code].id in api.teamLists
    requires NoTeamIdField(db)
    ensures var fetched := api.teamLists[api.competitions[code].id];
      var r := ImportCompetitionRun(db, api, code);
      var c := |db.competitions|;
      && c < |r.db.competitions|
      && |db.teams| <= |r.db.teams| <= |db.teams| + |fetched|
      && r.db.competitions[c].teams == seq(|r.db.teams| - |db.teams|, k => |db.teams| + k)
      && (forall j :: |db.teams| <= j < |r.db.teams| ==> r.db.teams[j].(players := []) == NewTeam(fetched[j - |db.teams|], c))
      && (r.outcome.Done? ==> |r.db.teams| == |db.teams| + |fetched|)
  {
    var data := api.competitions[code];
    var c := |db.competitions|;
    var saved := Db(db.competitions + [Competition(data.name, data.code, data.id, [])], db.teams, db.players);
    ImportCompetitionSaves(db, api, code);
    ImportTeamsCreatesTeams(saved, api, data.id, c);
  }

  /** Importing a competition into a valid store where no team carries `teamId`
      leaves a valid store: codes and competitionIds stay unique, and every link
      is stored in both directions. */
  lemma ImportCompetitionPreservesValid(db: Db, api: Api, code: string)
    requires NoTeamIdField(db) && Valid(db)
    ensures var next := ImportCompetitionRun(db, api, code).db;
      Valid(next) && NoTeamIdField(next)
  {
    if FindCompetitionByCode(db.competitions, code).None? && code in api.competitions {
      var data := api.competitions[code];
      var comp := Competition(data.name, data.code, data.id, []);
      if InsertCompetition(db, comp).Ok? {
        var saved := InsertCompetition(db, comp).value;
        SaveCompetitionKeepsValid(db, saved, comp);
        ImportTeamsPreservesValid(saved, api, data.id, |db.competitions|);
      }
    }
  }

  lemma SaveCompetitionKeepsValid(db: Db, saved: Db, comp: Competition)
    requires comp.teams == [] && InsertCompetition(db, comp) == Ok(saved)
    requires Valid(db)
    ensures Valid(saved) && |db.competitions| < |saved.competitions|
  {
    forall k, t | 0 <= k < |saved.competitions| && 0 <= t < |saved.teams|
      ensures t in saved.competitions[k].teams <==> k in saved.teams[t].competitions
    {
      if k == |db.competitions| {
        assert k !in db.teams[t].competitions;
      }
    }
  }

  // ---------------------------------------------------------------------------
  // Re-importing

  /** When the API answers `code` with a competition whose code is `code`, a
      second import of `code` is a no-op that fetches nothing, unless the first
      one failed on the competitionId index. */
  lemma ReimportIsNoOpWhenCodesAgree(db: Db, api: Api, code: string)
    requires code in api.competitions && api.competitions[code].code == code
    ensures var first := ImportCompetitionRun(db, api, code);
      || first.outcome == Failed(DuplicateKey(CompetitionIdIndex))
      || ImportCompetitionRun(first.db, api, code) == Run(first.db, [], Done)
  {
    var first := ImportCompetitionRun(db, api, code);
    if FindCompetitionByCode(db.competitions, code).None? {
      var data := api.competitions[code];
      var comp := Competition(data.name, data.code, data.id, []);
      if CompetitionClash(db.competitions, comp).None? {
        ImportCompetitionCreates(db, api, code);
        assert first.db.competitions[|db.competitions|].code == code;
      }
    }
  }

  /** When the API answers `code` with a competition under another code, the
      stored code is the API's, so a second import of `code` finds nothing,
      fetches again and fails on the code index, writing nothing. */
  lemma ReimportRefetchesWhenCodesDiffer(db: Db, api: Api, code: string)
    requires code in api.competitions && api.competitions[code].code != code
    requires FindCompetitionByCode(db.competitions, code).None?
    requires var data := api.competitions[code];
      CompetitionClash(db.competitions, Competition(data.name, data.code, data.id, [])).None?
    ensures var first := ImportCompetitionRun(db, api, code);
      ImportCompetitionRun(first.db, api, code)
        == Run(first.db, [CompetitionByCode(code)], Failed(DuplicateKey(CompetitionCodeIndex)))
  {
    var data := api.competitions[code];
    var first := ImportCompetitionRun(db, api, code);
    ImportCompetitionCreates(db, api, code);
    SavedCodeClashes(db.competitions, first.db.competitions, code, Competition(data.name, data.code, data.id, []));
    ImportCompetitionEarlyFailures(first.db, api, code);
  }

  /** Competitions that gained one whose code is `comp.code` and not `code`:
      `code` is still not found, and saving `comp` again clashes on the code. */
  lemma SavedCodeClashes(before: seq<Competition>, after: seq<Competition>, code: string, comp: Competition)
    requires |after| == |before| + 1 && (forall k :: 0 <= k < |before| ==> after[k] == before[k])
    requires after[|before|].code == comp.code && comp.code != code
    requires FindCompetitionByCode(before, code).None?
    ensures FindCompetitionByCode(after, code).None?
    ensures CompetitionClash(after, comp) == Some(CompetitionCodeIndex)
  {
    assert after[|before|].code == comp.code;
  }

  // ---------------------------------------------------------------------------
  // Listing

  /** After an import that completes, the listing holds a competition stored
      under `code`, or the fetched competition as the last one. */
  lemma ImportedCompetitionIsListed(db: Db, api: Api, code: string)
    ensures var r := ImportCompetitionRun(db, api, code);
      r.outcome.Done? ==>
        || (GetCompetitions(r.db) == GetCompetitions(db) && FindCompetitionByCode(db.competitions, code).Some?)
        || (&& code in api.competitions
            && |GetCompetitions(r.db)| == |db.competitions| + 1
            && GetCompetitions(r.db)[|db.competitions|].code == api.competitions[code].code
            && GetCompetitions(r.db)[|db.competitions|].competitionId == api.competitions[code].id)
  {
    if FindCompetitionByCode(db.competitions, code).None? && code in api.competitions {
      var data := api.competitions[code];
      if CompetitionClash(db.competitions, Competition(data.name, data.code, data.id, [])).None? {
        ImportCompetitionCreates(db, api, code);
      }
    }
  }
}

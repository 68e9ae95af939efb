/** The read services: which requests fail and with what, what a page holds,
    where its items come from, and the defaults of page and limit. */
module QueryProofs {
  import opened Football
  import opened Documents
  import opened Pagination
  import opened PlayerService
  import opened TeamService

  // ---------------------------------------------------------------------------
  // Populate and flattening

  /** A populated array holds exactly the documents its references name. */
  lemma {:induction false} ResolveMembership<T>(docs: seq<T>, refs: seq<LocalId>, x: T)
    ensures x in Resolve(docs, refs) <==> exists k :: 0 <= k < |refs| && refs[k] < |docs| && docs[refs[k]] == x
    decreases |refs|
  {
    if refs != [] {
      var rest := refs[1..];
      ResolveMembership(docs, rest, x);
      if x in Resolve(docs, rest) {
        var k :| 0 <= k < |rest| && rest[k] < |docs| && docs[rest[k]] == x;
        assert refs[k + 1] == rest[k];
      }
      if exists k :: 0 <= k < |refs| && refs[k] < |docs| && docs[refs[k]] == x {
        var k :| 0 <= k < |refs| && refs[k] < |docs| && docs[refs[k]] == x;
        if k > 0 {
          assert rest[k - 1] == refs[k];
        }
      }
    }
  }

  /** The flattened players are listed team by team, in the order of the
      competition's team references. */
  lemma {:induction false} CompetitionPlayersAppend(db: Db, a: seq<LocalId>, b: seq<LocalId>, tla: string)
    ensures CompetitionPlayers(db, a + b, tla) == CompetitionPlayers(db, a, tla) + CompetitionPlayers(db, b, tla)
    decreases |a|
  {
    if a == [] {
      assert a + b == b;
    } else {
      var ab := a + b;
      assert ab[0] == a[0] && ab[1..] == a[1..] + b;
      var head := TeamPlayers(db, a[0], tla);
      calc {
        CompetitionPlayers(db, ab, tla);
        head + CompetitionPlayers(db, a[1..] + b, tla);
        { CompetitionPlayersAppend(db, a[1..], b, tla); }
        head + (CompetitionPlayers(db, a[1..], tla) + CompetitionPlayers(db, b, tla));
        (head + CompetitionPlayers(db, a[1..], tla)) + CompetitionPlayers(db, b, tla);
      }
    }
  }

  /** A player is among the flattened players exactly when some referenced team
      that passes the tla filter references it. */
  lemma {:induction false} CompetitionPlayersMembership(db: Db, refs: seq<LocalId>, tla: string, p: Player)
    ensures p in CompetitionPlayers(db, refs, tla) <==>
      exists i :: 0 <= i < |refs| && refs[i] < |db.teams| && TlaMatches(db.teams[refs[i]], tla)
        && p in Resolve(db.players, db.teams[refs[i]].players)
    decreases |refs|
  {
    if refs != [] {
      var rest := refs[1..];
      CompetitionPlayersMembership(db, rest, tla, p);
      assert p in CompetitionPlayers(db, refs, tla) <==>
        p in TeamPlayers(db, refs[0], tla) || p in CompetitionPlayers(db, rest, tla);
      if exists i :: 0 <= i < |rest| && rest[i] < |db.teams| && TlaMatches(db.teams[rest[i]], tla)
          && p in Resolve(db.players, db.teams[rest[i]].players) {
        var i :| 0 <= i < |rest| && rest[i] < |db.teams| && TlaMatches(db.teams[rest[i]], tla)
          && p in Resolve(db.players, db.teams[rest[i]].players);
        assert refs[i + 1] == rest[i];
      }
      if exists i :: 0 <= i < |refs| && refs[i] < |db.teams| && TlaMatches(db.teams[refs[i]], tla)
          && p in Resolve(db.players, db.teams[refs[i]].players) {
        var i :| 0 <= i < |refs| && refs[i] < |db.teams| && TlaMatches(db.teams[refs[i]], tla)
          && p in Resolve(db.players, db.teams[refs[i]].players);
        if i > 0 {
          assert rest[i - 1] == refs[i];
        }
      }
    }
  }

  // ---------------------------------------------------------------------------
  // `getPlayersByCompetitionService`

  /** A tla that names no team fails with `TeamNotFound` before the competition
      is looked up; otherwise an unknown code fails with `CompetitionNotFound`;
      nothing else fails. */
  lemma PlayersByCompetitionFailures(db: Db, code: string, page: Option<Positive>, limit: Option<Positive>,
                                     tla: string)
    ensures var r := PlayersByCompetition(db, code, page, limit, tla);
      && (r == Err(TeamNotFound(tla)) <==>
            tla != "" && forall t :: 0 <= t < |db.teams| ==> db.teams[t].tla != tla)
      && (r == Err(CompetitionNotFound(code)) <==>
            && (tla == "" || exists t :: 0 <= t < |db.teams| && db.teams[t].tla == tla)
            && forall c :: 0 <= c < |db.competitions| ==> db.competitions[c].code != code)
      && (r.Err? ==> r == Err(TeamNotFound(tla)) || r == Err(CompetitionNotFound(code)))
  {
  }

  /** A page of the competition's players is the window of the flattened list
      (of the first competition with that code) that starts after `page - 1`
      full pages, `limit` long or cut short by the end of the list. */
  lemma PlayersByCompetitionWindow(db: Db, code: string, page: Option<Positive>, limit: Option<Positive>,
                                   tla: string)
    ensures var r := PlayersByCompetition(db, code, page, limit, tla);
      r.Ok? ==>
        exists c :: 0 <= c < |db.competitions| && db.competitions[c].code == code
          && (forall c' :: 0 <= c' < c ==> db.competitions[c'].code != code)
          && IsWindow(r.value, CompetitionPlayers(db, db.competitions[c].teams, tla), PageOr(page), LimitOr(limit))
  {
    var r := PlayersByCompetition(db, code, page, limit, tla);
    if r.Ok? {
      var c := FindCompetitionByCode(db.competitions, code).value;
      assert db.competitions[c].code == code;
    }
  }

  /** With a tla given, every listed player is referenced by a team of the
      competition that has that tla. */
  lemma PlayersByCompetitionOnlyFromTeamTla(db: Db, code: string, page: Option<Positive>, limit: Option<Positive>,
                                            tla: string, p: Player)
    requires tla != ""
    ensures var r := PlayersByCompetition(db, code, page, limit, tla);
      r.Ok? && p in r.value ==>
        exists c, i :: 0 <= c < |db.competitions| && db.competitions[c].code == code
          && 0 <= i < |db.competitions[c].teams| && db.competitions[c].teams[i] < |db.teams|
          && db.teams[db.competitions[c].teams[i]].tla == tla
          && p in Resolve(db.players, db.teams[db.competitions[c].teams[i]].players)
  {
    var r := PlayersByCompetition(db, code, page, limit, tla);
    if r.Ok? && p in r.value {
      var c := FindCompetitionByCode(db.competitions, code).value;
      var refs := db.competitions[c].teams;
      PageIsWithinList(CompetitionPlayers(db, refs, tla), PageOr(page), LimitOr(limit));
      CompetitionPlayersMembership(db, refs, tla, p);
    }
  }

  /** A request without page or limit is the request for page 1 with limit 12. */
  lemma PlayersByCompetitionDefaults(db: Db, code: string, tla: string)
    ensures PlayersByCompetition(db, code, None, None, tla) == PlayersByCompetition(db, code, Some(1), Some(12), tla)
  {
  }

  // ---------------------------------------------------------------------------
  // `getTeamsByCompetitionService`

  /** The team listing fails, with `CompetitionNotFound`, exactly when no
      competition has the code. */
  lemma TeamsByCompetitionFailures(db: Db, code: string, page: Option<Positive>, limit: Option<Positive>,
                                   pattern: string, matches: (string, string) -> bool)
    ensures var r := TeamsByCompetition(db, code, page, limit, pattern, matches);
      && (r.Err? <==> forall c :: 0 <= c < |db.competitions| ==> db.competitions[c].code != code)
      && (r.Err? ==> r.error == CompetitionNotFound(code))
  {
  }

  /** A team listing holds at most `limit` teams: the window that skips
      `page - 1` full pages of the teams referenced by the first competition with
      the code that pass the name filter, cut short only by the end of those.
      Every listed team is referenced by that competition and passes the filter. */
  lemma TeamsByCompetitionWindow(db: Db, code: string, page: Option<Positive>, limit: Option<Positive>,
                                 pattern: string, matches: (string, string) -> bool)
    ensures var r := TeamsByCompetition(db, code, page, limit, pattern, matches);
      r.Ok? ==>
        && |r.value| <= LimitOr(limit)
        && (exists c :: 0 <= c < |db.competitions| && db.competitions[c].code == code
              && (forall c' :: 0 <= c' < c ==> db.competitions[c'].code != code)
              && IsWindow(r.value, MatchingTeams(Resolve(db.teams, db.competitions[c].teams), pattern, matches),
                          PageOr(page), LimitOr(limit))
              && (forall t :: t in r.value ==>
                    (pattern == "" || matches(pattern, t.name))
                    && exists i :: 0 <= i < |db.competitions[c].teams| && db.competitions[c].teams[i] < |db.teams|
                         && db.teams[db.competitions[c].teams[i]] == t))
  {
    var r := TeamsByCompetition(db, code, page, limit, pattern, matches);
    if r.Ok? {
      var c := FindCompetitionByCode(db.competitions, code).value;
      var filtered := MatchingTeams(Resolve(db.teams, db.competitions[c].teams), pattern, matches);
      assert db.competitions[c].code == code;
      assert r.value == Page(filtered, PageOr(page), LimitOr(limit));
      PageOfMatchingTeams(db.teams, db.competitions[c].teams, PageOr(page), LimitOr(limit), pattern, matches);
    }
  }

  /** The name filter keeps the list's order and its repeats: filtering `a + b`
      is filtering `a`, then `b`. */
  lemma {:induction false} MatchingTeamsAppend(a: seq<Team>, b: seq<Team>, pattern: string,
                                               matches: (string, string) -> bool)
    ensures MatchingTeams(a + b, pattern, matches) == MatchingTeams(a, pattern, matches) + MatchingTeams(b, pattern, matches)
    decreases |a|
  {
    if a == [] {
      assert a + b == b;
    } else {
      var ab := a + b;
      assert ab[0] == a[0] && ab[1..] == a[1..] + b;
      var head := if pattern == "" || matches(pattern, a[0].name) then [a[0]] else [];
      calc {
        MatchingTeams(ab, pattern, matches);
        head + MatchingTeams(a[1..] + b, pattern, matches);
        { MatchingTeamsAppend(a[1..], b, pattern, matches); }
        head + (MatchingTeams(a[1..], pattern, matches) + MatchingTeams(b, pattern, matches));
        (head + MatchingTeams(a[1..], pattern, matches)) + MatchingTeams(b, pattern, matches);
      }
    }
  }

  /** A page of the filtered, populated teams holds only referenced teams that
      pass the filter. */
  lemma PageOfMatchingTeams(teams: seq<Team>, refs: seq<LocalId>, page: Positive, limit: Positive,
                            pattern: string, matches: (string, string) -> bool)
    ensures forall t :: t in Page(MatchingTeams(Resolve(teams, refs), pattern, matches), page, limit) ==>
      (pattern == "" || matches(pattern, t.name))
      && exists i :: 0 <= i < |refs| && refs[i] < |teams| && teams[refs[i]] == t
  {
    var filtered := MatchingTeams(Resolve(teams, refs), pattern, matches);
    PageIsWithinList(filtered, page, limit);
    forall t | t in Page(filtered, page, limit)
      ensures (pattern == "" || matches(pattern, t.name))
        && exists i :: 0 <= i < |refs| && refs[i] < |teams| && teams[refs[i]] == t
    {
      ResolveMembership(teams, refs, t);
    }
  }

  /** A request without page or limit is the request for page 1 with limit 12. */
  lemma TeamsByCompetitionDefaults(db: Db, code: string, pattern: string, matches: (string, string) -> bool)
    ensures TeamsByCompetition(db, code, None, None, pattern, matches)
         == TeamsByCompetition(db, code, Some(1), Some(12), pattern, matches)
  {
  }

  // ---------------------------------------------------------------------------
  // `getPlayersByTeamService`

  /** The players of a team fail, with `TeamNotFound`, exactly when no team has
      the tla; otherwise they are the populated players of the first team with
      that tla, which, when every reference names a document, are that team's
      player references in order, repeats included. */
  lemma PlayersByTeamContents(db: Db, tla: string)
    ensures var r := PlayersByTeam(db, tla);
      && (r.Err? <==> forall t :: 0 <= t < |db.teams| ==> db.teams[t].tla != tla)
      && (r.Err? ==> r.error == TeamNotFound(tla))
      && (r.Ok? ==>
            exists t :: 0 <= t < |db.teams| && db.teams[t].tla == tla
              && (forall u :: 0 <= u < t ==> db.teams[u].tla != tla)
              && r.value == Resolve(db.players, db.teams[t].players)
              && (RefsInRange(db) ==>
                    && |r.value| == |db.teams[t].players|
                    && forall k :: 0 <= k < |r.value| ==>
                         db.teams[t].players[k] < |db.players| && r.value[k] == db.players[db.teams[t].players[k]]))
  {
    var r := PlayersByTeam(db, tla);
    if r.Ok? {
      var t := FindTeamByTla(db.teams, tla).value;
      assert db.teams[t].tla == tla;
      if RefsInRange(db) {
        assert forall k :: 0 <= k < |db.teams[t].players| ==> db.teams[t].players[k] in db.teams[t].players;
      }
    }
  }
}

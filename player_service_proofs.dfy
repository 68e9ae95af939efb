/** What importing a squad does to the store and which requests it issues:
    per entry (create or link), and over the whole squad (order, failures,
    fetches, framing, invariants). */
module PlayerServiceProofs {
  import opened Football
  import opened FootballApi
  import opened Documents
  import opened PlayerService

  // ---------------------------------------------------------------------------
  // One squad entry

  /** An entry whose id is not stored is looked up at the API, and only then.
      When the lookup fails nothing is written. Otherwise exactly one player is
      appended, made of the entry's fields with section and shirt number taken
      from the person answer when it has a body, referencing the importing team
      only; its id is appended to that team's players and nothing else changes. */
  lemma NewEntryCreatesPlayer(db: Db, api: Api, team: LocalId, entry: SquadEntry)
    requires FindPlayer(db.players, entry.id).None?
    ensures var r := PlayerStep(db, api, team, entry);
      && r.issued == [PersonById(entry.id)]
      && (entry.id !in api.persons ==> r.db == db && r.outcome == Failed(FetchFailed(PersonById(entry.id))))
      && (entry.id in api.persons ==>
            var details := api.persons[entry.id];
            && r.outcome == Done
            && r.db.competitions == db.competitions
            && r.db.players == db.players + [Player(entry.id, entry.name, entry.position, entry.dateOfBirth,
                                                    entry.nationality,
                                                    if details.Some? then details.value.shirtNumber else entry.shirtNumber,
                                                    if details.Some? then details.value.section else entry.section,
                                                    [team])]
            && |r.db.teams| == |db.teams|
            && (forall t :: 0 <= t < |db.teams| && t != team ==> r.db.teams[t] == db.teams[t])
            && (team < |db.teams| ==>
                  r.db.teams[team] == db.teams[team].(players := db.teams[team].players + [|db.players|])))
  {
  }

  /** An entry whose id is stored is not looked up at the API. The importing team
      is added to the player's teams with set semantics (appended only when
      missing), and the player's id is appended to the team's players
      unconditionally, so it may occur there twice. Nothing else changes. */
  lemma ExistingEntryLinksPlayer(db: Db, api: Api, team: LocalId, entry: SquadEntry, p: LocalId)
    requires FindPlayer(db.players, entry.id) == Some(p)
    ensures var r := PlayerStep(db, api, team, entry);
      && r.issued == []
      && r.outcome == Done
      && r.db.competitions == db.competitions
      && |r.db.players| == |db.players|
      && (forall q :: 0 <= q < |db.players| && q != p ==> r.db.players[q] == db.players[q])
      && r.db.players[p] == db.players[p].(teams := r.db.players[p].teams)
      && db.players[p].teams <= r.db.players[p].teams
      && (team in db.players[p].teams ==> r.db.players[p].teams == db.players[p].teams)
      && (team !in db.players[p].teams ==> r.db.players[p].teams == db.players[p].teams + [team])
      && |r.db.teams| == |db.teams|
      && (forall t :: 0 <= t < |db.teams| && t != team ==> r.db.teams[t] == db.teams[t])
      && (team < |db.teams| ==> r.db.teams[team] == db.teams[team].(players := db.teams[team].players + [p]))
  {
  }

  // ---------------------------------------------------------------------------
  // What a squad import leaves alone

  /** `next` differs from `db` only in the players collection and in the players
      of team `team`, and only by growing. */
  predicate SquadFrame(db: Db, next: Db, team: LocalId)
  {
    && next.competitions == db.competitions
    && |next.teams| == |db.teams|
    && (forall t :: 0 <= t < |db.teams| && t != team ==> next.teams[t] == db.teams[t])
    && (team < |db.teams| ==> next.teams[team].(players := []) == db.teams[team].(players := []))
    && Extends(db, next)
  }

  lemma SquadFrameTransitive(a: Db, b: Db, c: Db, team: LocalId)
    requires SquadFrame(a, b, team) && SquadFrame(b, c, team)
    ensures SquadFrame(a, c, team)
  {
    ExtendsTransitive(a, b, c);
  }

  lemma PlayerStepFrame(db: Db, api: Api, team: LocalId, entry: SquadEntry)
    ensures SquadFrame(db, PlayerStep(db, api, team, entry).db, team)
  {
    match FindPlayer(db.players, entry.id)
    case Some(p) => ExistingEntryFrame(db, api, team, entry, p);
    case None => NewEntryFrame(db, api, team, entry);
  }

  lemma ExistingEntryFrame(db: Db, api: Api, team: LocalId, entry: SquadEntry, p: LocalId)
    requires FindPlayer(db.players, entry.id) == Some(p)
    ensures SquadFrame(db, PlayerStep(db, api, team, entry).db, team)
  {
    var next := PlayerStep(db, api, team, entry).db;
    ExistingEntryLinksPlayer(db, api, team, entry, p);
    LinkFrame(db, next, team, p);
  }

  /** The frame of linking stored player `p` to `team`. */
  lemma LinkFrame(db: Db, next: Db, team: LocalId, p: LocalId)
    requires p < |db.players| && next.competitions == db.competitions
    requires |next.players| == |db.players| && (forall q :: 0 <= q < |db.players| && q != p ==> next.players[q] == db.players[q])
    requires next.players[p] == db.players[p].(teams := next.players[p].teams)
    requires db.players[p].teams <= next.players[p].teams
    requires |next.teams| == |db.teams| && (forall t :: 0 <= t < |db.teams| && t != team ==> next.teams[t] == db.teams[t])
    requires team < |db.teams| ==> next.teams[team] == db.teams[team].(players := db.teams[team].players + [p])
    ensures SquadFrame(db, next, team)
  {
  }

  lemma NewEntryFrame(db: Db, api: Api, team: LocalId, entry: SquadEntry)
    requires FindPlayer(db.players, entry.id).None?
    ensures SquadFrame(db, PlayerStep(db, api, team, entry).db, team)
  {
    NewEntryCreatesPlayer(db, api, team, entry);
  }

  /** Importing a squad changes only the players collection and the importing
      team's players; no competition and no other team is touched, and nothing
      stored is removed or rewritten, whether the import completes or fails. */
  lemma {:induction false} ImportSquadFrame(db: Db, api: Api, team: LocalId, squad: seq<SquadEntry>)
    ensures SquadFrame(db, ImportSquad(db, api, team, squad).db, team)
    decreases |squad|
  {
    if squad == [] {
      assert Extends(db, db);
    } else {
      var init := squad[..|squad| - 1];
      ImportSquadFrame(db, api, team, init);
      var before := ImportSquad(db, api, team, init);
      if before.outcome.Done? {
        PlayerStepFrame(before.db, api, team, squad[|squad| - 1]);
        SquadFrameTransitive(db, before.db, ImportSquad(db, api, team, squad).db, team);
      }
    }
  }

  // ---------------------------------------------------------------------------
  // Order, fetches and failures over a whole squad

  /** The players of `team` from position `from` on are, in order, stored players
      with the ids of `entries`, and each of them lists `team` among its teams. */
  predicate LinkedInOrder(db: Db, team: LocalId, from: nat, entries: seq<SquadEntry>)
    requires team < |db.teams|
  {
    && |db.teams[team].players| == from + |entries|
    && forall i :: from <= i < |db.teams[team].players| ==>
         var p := db.teams[team].players[i];
         p < |db.players| && db.players[p].playerId == entries[i - from].id && team in db.players[p].teams
  }

  /** A squad imported to the end leaves exactly one new reference per entry on
      the team's players, in the API's order, each naming the stored player with
      that entry's id, who in turn names the team. An entry that occurs twice is
      referenced twice. */
  lemma ImportSquadLinksEveryEntry(db: Db, api: Api, team: LocalId, squad: seq<SquadEntry>)
    requires team < |db.teams|
    ensures var r := ImportSquad(db, api, team, squad);
      r.outcome.Done? ==>
        team < |r.db.teams| && LinkedInOrder(r.db, team, |db.teams[team].players|, squad)
  {
    var from := |db.teams[team].players|;
    var P := (d: Db, s: seq<SquadEntry>) => team < |d.teams| && LinkedInOrder(d, team, from, s);
    forall d, s, e | P(d, s) && EntryStep(api, team)(d, e).outcome.Done?
      ensures P(EntryStep(api, team)(d, e).db, s + [e])
    {
      PlayerStepLinks(d, api, team, from, s, e);
    }
    FoldKeepsUntilFailure(db, squad, EntryStep(api, team), P, (d: Db, s: seq<SquadEntry>) => true);
  }

  /** A completed step appends one reference to the team's players, naming the
      stored player with the entry's id. */
  lemma PlayerStepLinks(d: Db, api: Api, team: LocalId, from: nat, init: seq<SquadEntry>, e: SquadEntry)
    requires team < |d.teams| && LinkedInOrder(d, team, from, init)
    ensures var r := PlayerStep(d, api, team, e);
      r.outcome.Done? ==> team < |r.db.teams| && LinkedInOrder(r.db, team, from, init + [e])
  {
    var r := PlayerStep(d, api, team, e);
    PlayerStepFrame(d, api, team, e);
    if r.outcome.Done? {
      match FindPlayer(d.players, e.id)
      case Some(q) =>
        ExistingEntryLinksPlayer(d, api, team, e, q);
        LinkStep(d, r.db, team, from, init, e, q);
      case None =>
        NewEntryCreatesPlayer(d, api, team, e);
        LinkStep(d, r.db, team, from, init, e, |d.players|);
    }
  }

  lemma LinkStep(d: Db, next: Db, team: LocalId, from: nat, init: seq<SquadEntry>, e: SquadEntry, p: LocalId)
    requires team < |d.teams| && LinkedInOrder(d, team, from, init)
    requires SquadFrame(d, next, team)
    requires next.teams[team].players == d.teams[team].players + [p]
    requires p < |next.players| && next.players[p].playerId == e.id && team in next.players[p].teams
    ensures LinkedInOrder(next, team, from, init + [e])
  {
    forall i | from <= i < |next.teams[team].players| - 1
      ensures var q := next.teams[team].players[i];
        q < |next.players| && next.players[q].playerId == init[i - from].id && team in next.players[q].teams
    {
      var q := d.teams[team].players[i];
      assert q < |d.players| && d.players[q].playerId == init[i - from].id && team in d.players[q].teams;
      assert next.teams[team].players[i] == q;
      assert d.players[q].(teams := []) == next.players[q].(teams := []);
      assert d.players[q].teams <= next.players[q].teams;
    }
  }

  /** Every request `r` issued is a person lookup for an id that was not stored
      in `db`, no id is looked up twice, and, when `r` completed, every id looked
      up is stored in the store `r` leaves. */
  predicate FetchedOnlyNewPlayers(db: Db, r: Run)
  {
    && (forall k :: 0 <= k < |r.issued| ==>
          r.issued[k].PersonById? && FindPlayer(db.players, r.issued[k].personId).None?)
    && (forall j, k :: 0 <= j < k < |r.issued| ==> r.issued[j] != r.issued[k])
    && (r.outcome.Done? ==> forall k :: 0 <= k < |r.issued| ==> FindPlayer(r.db.players, r.issued[k].personId).Some?)
  }

  /** Stored players are never re-fetched: a squad import looks up at the API only
      ids that were not stored when it started, each at most once, even when the
      squad lists an id twice. */
  lemma {:induction false} ImportSquadFetchesOnlyNewPlayers(db: Db, api: Api, team: LocalId, squad: seq<SquadEntry>)
    ensures FetchedOnlyNewPlayers(db, ImportSquad(db, api, team, squad))
    decreases |squad|
  {
    if squad != [] {
      var init := squad[..|squad| - 1];
      var before := ImportSquad(db, api, team, init);
      ImportSquadFetchesOnlyNewPlayers(db, api, team, init);
      if before.outcome.Done? {
        ImportSquadFrame(db, api, team, init);
        PlayerStepFetches(db, before, api, team, squad[|squad| - 1]);
      }
    }
  }

  lemma PlayerStepFetches(db: Db, before: Run, api: Api, team: LocalId, e: SquadEntry)
    requires Extends(db, before.db) && before.outcome.Done? && FetchedOnlyNewPlayers(db, before)
    ensures FetchedOnlyNewPlayers(db, Then(before, PlayerStep(before.db, api, team, e)))
  {
    var d := before.db;
    var r := PlayerStep(d, api, team, e);
    PlayerStepFrame(d, api, team, e);
    match FindPlayer(d.players, e.id)
    case Some(p) =>
      ExistingEntryLinksPlayer(d, api, team, e, p);
      FetchStep(db, before, r, e.id);
    case None =>
      NewEntryCreatesPlayer(d, api, team, e);
      if r.outcome.Done? {
        assert r.db.players[|d.players|].playerId == e.id;
      }
      FetchStep(db, before, r, e.id);
  }

  /** The requests of a completed prefix `before` followed by those of one step
      `r` for the entry with id `id`: none, or the lookup of `id` when it was not
      stored. */
  lemma FetchStep(db: Db, before: Run, r: Run, id: ExtId)
    requires Extends(db, before.db) && Extends(before.db, r.db)
    requires before.outcome.Done? && FetchedOnlyNewPlayers(db, before)
    requires (r.issued == [] && r.outcome.Done?)
      || (r.issued == [PersonById(id)] && FindPlayer(before.db.players, id).None?
          && (r.outcome.Done? ==> FindPlayer(r.db.players, id).Some?))
    ensures FetchedOnlyNewPlayers(db, Then(before, r))
  {
    if r.issued == [] {
      assert Then(before, r).issued == before.issued;
      KeptStored(before, r);
    } else {
      NewIdWasNotStored(db, before.db, id);
      FetchedOneNewPlayer(db, before, r, id);
    }
  }

  /** The ids `before` looked up are still stored after `r`, when `r` completes. */
  lemma KeptStored(before: Run, r: Run)
    requires Extends(before.db, r.db) && before.outcome.Done?
    requires forall k :: 0 <= k < |before.issued| ==> before.issued[k].PersonById?
    requires forall k :: 0 <= k < |before.issued| ==> FindPlayer(before.db.players, before.issued[k].personId).Some?
    ensures forall k :: 0 <= k < |before.issued| ==> FindPlayer(r.db.players, before.issued[k].personId).Some?
  {
    forall k | 0 <= k < |before.issued|
      ensures FindPlayer(r.db.players, before.issued[k].personId).Some?
    {
      StoredPlayerStaysStored(before.db, r.db, before.issued[k].personId);
    }
  }

  lemma FetchedOneNewPlayer(db: Db, before: Run, r: Run, id: ExtId)
    requires Extends(before.db, r.db) && before.outcome.Done? && FetchedOnlyNewPlayers(db, before)
    requires r.issued == [PersonById(id)] && FindPlayer(db.players, id).None? && FindPlayer(before.db.players, id).None?
    requires r.outcome.Done? ==> FindPlayer(r.db.players, id).Some?
    ensures FetchedOnlyNewPlayers(db, Then(before, r))
  {
    var all := before.issued + r.issued;
    assert all[|before.issued|] == PersonById(id);
    forall k | 0 <= k < |before.issued| ensures before.issued[k] != PersonById(id) {
      assert FindPlayer(before.db.players, before.issued[k].personId).Some?;
    }
    if r.outcome.Done? {
      KeptStored(before, r);
    }
  }

  lemma StoredPlayerStaysStored(a: Db, b: Db, id: ExtId)
    requires Extends(a, b) && FindPlayer(a.players, id).Some?
    ensures FindPlayer(b.players, id).Some?
  {
    var i := FindPlayer(a.players, id).value;
    assert a.players[i].(teams := []) == b.players[i].(teams := []);
    assert b.players[i].playerId == id;
  }

  lemma NewIdWasNotStored(a: Db, b: Db, id: ExtId)
    requires Extends(a, b) && FindPlayer(b.players, id).None?
    ensures FindPlayer(a.players, id).None?
  {
    if FindPlayer(a.players, id).Some? {
      StoredPlayerStaysStored(a, b, id);
    }
  }

  /** A squad import fails only when a person lookup fails; it is the last
      request issued, and no save ever clashes on the player id index. */
  lemma {:induction false} ImportSquadFailsOnlyOnPersonFetch(db: Db, api: Api, team: LocalId, squad: seq<SquadEntry>)
    ensures var r := ImportSquad(db, api, team, squad);
      r.outcome.Failed? ==>
        && |r.issued| > 0
        && r.issued[|r.issued| - 1].PersonById?
        && r.issued[|r.issued| - 1].personId !in api.persons
        && r.outcome.error == FetchFailed(r.issued[|r.issued| - 1])
    decreases |squad|
  {
    if squad != [] {
      var init := squad[..|squad| - 1];
      var before := ImportSquad(db, api, team, init);
      ImportSquadFailsOnlyOnPersonFetch(db, api, team, init);
      if before.outcome.Done? {
        PlayerStepFails(before.db, api, team, squad[|squad| - 1]);
      }
    }
  }

  lemma PlayerStepFails(d: Db, api: Api, team: LocalId, e: SquadEntry)
    ensures var r := PlayerStep(d, api, team, e);
      r.outcome.Failed? ==>
        r.issued == [PersonById(e.id)] && e.id !in api.persons && r.outcome.error == FetchFailed(PersonById(e.id))
  {
    if FindPlayer(d.players, e.id).None? {
      NewEntryCreatesPlayer(d, api, team, e);
    }
  }

  // ---------------------------------------------------------------------------
  // Invariants

  lemma PlayerStepPreservesValid(d: Db, api: Api, team: LocalId, e: SquadEntry)
    requires Valid(d) && team < |d.teams|
    ensures Valid(PlayerStep(d, api, team, e).db) && team < |PlayerStep(d, api, team, e).db.teams|
  {
    var next := PlayerStep(d, api, team, e).db;
    match FindPlayer(d.players, e.id)
    case Some(p) =>
      ExistingEntryLinksPlayer(d, api, team, e, p);
      LinkKeepsValid(d, next, team, p);
    case None =>
      NewEntryCreatesPlayer(d, api, team, e);
      if e.id in api.persons {
        CreateKeepsValid(d, next, team, next.players[|d.players|]);
      }
  }

  lemma LinkKeepsValid(d: Db, next: Db, team: LocalId, p: LocalId)
    requires team < |d.teams| && p < |d.players| && next.competitions == d.competitions
    requires |next.players| == |d.players| && (forall q :: 0 <= q < |d.players| && q != p ==> next.players[q] == d.players[q])
    requires next.players[p] == d.players[p].(teams := AddToSet(d.players[p].teams, team))
    requires |next.teams| == |d.teams| && (forall t :: 0 <= t < |d.teams| && t != team ==> next.teams[t] == d.teams[t])
    requires next.teams[team] == d.teams[team].(players := d.teams[team].players + [p])
    requires Valid(d)
    ensures Valid(next)
  {
  }

  lemma CreateKeepsValid(d: Db, next: Db, team: LocalId, pl: Player)
    requires team < |d.teams| && FindPlayer(d.players, pl.playerId).None? && pl.teams == [team]
    requires next.competitions == d.competitions && next.players == d.players + [pl]
    requires |next.teams| == |d.teams| && (forall t :: 0 <= t < |d.teams| && t != team ==> next.teams[t] == d.teams[t])
    requires next.teams[team] == d.teams[team].(players := d.teams[team].players + [|d.players|])
    requires Valid(d)
    ensures Valid(next)
  {
    CreateKeepsMirrored(d, next, team, pl);
  }

  lemma CreateKeepsMirrored(d: Db, next: Db, team: LocalId, pl: Player)
    requires team < |d.teams| && pl.teams == [team]
    requires next.competitions == d.competitions && next.players == d.players + [pl]
    requires |next.teams| == |d.teams| && (forall t :: 0 <= t < |d.teams| && t != team ==> next.teams[t] == d.teams[t])
    requires next.teams[team] == d.teams[team].(players := d.teams[team].players + [|d.players|])
    requires RefsInRange(d) && Mirrored(d)
    ensures Mirrored(next)
  {
    forall t, p | 0 <= t < |next.teams| && 0 <= p < |next.players|
      ensures p in next.teams[t].players <==> t in next.players[p].teams
    {
      if p == |d.players| {
        assert p !in d.teams[t].players;
      }
    }
  }

  /** Importing a squad into a team of a valid store leaves a valid store: every
      reference names a document, player ids stay unique, a player lists each
      team once, and each team-player link is stored in both directions. */
  lemma ImportSquadPreservesValid(db: Db, api: Api, team: LocalId, squad: seq<SquadEntry>)
    requires Valid(db) && team < |db.teams|
    ensures Valid(ImportSquad(db, api, team, squad).db)
  {
    var P := (d: Db) => Valid(d) && team < |d.teams|;
    forall d, e | P(d) ensures P(EntryStep(api, team)(d, e).db) {
      PlayerStepPreservesValid(d, api, team, e);
    }
    FoldPreserves(db, squad, EntryStep(api, team), P);
  }

  // ---------------------------------------------------------------------------
  // `importPlayers`: the squad fetch, then the squad

  /** `importPlayers` first requests the team; when that fails it stops with that
      failure and writes nothing. Either way it touches nothing but the players
      collection and the team's players, and only by growing. */
  lemma ImportPlayersFrame(db: Db, api: Api, code: ExtId, team: LocalId)
    ensures var r := ImportPlayersRun(db, api, code, team);
      && |r.issued| > 0 && r.issued[0] == TeamById(code)
      && (code !in api.squads ==> r == Run(db, [TeamById(code)], Failed(FetchFailed(TeamById(code)))))
      && SquadFrame(db, r.db, team)
  {
    if code in api.squads {
      ImportSquadFrame(db, api, team, api.squads[code]);
    } else {
      assert Extends(db, db);
    }
  }

  lemma ImportPlayersPreservesValid(db: Db, api: Api, code: ExtId, team: LocalId)
    requires Valid(db) && team < |db.teams|
    ensures Valid(ImportPlayersRun(db, api, code, team).db)
  {
    if code in api.squads {
      ImportSquadPreservesValid(db, api, team, api.squads[code]);
    }
  }

  // ---------------------------------------------------------------------------
  // Example

  /** A squad that lists the same new person twice: the person is fetched once
      and stored once with the team listed once, but the team references the
      player twice. */
  lemma RepeatedEntryIsReferencedTwice(api: Api, t: Team, e: SquadEntry)
    requires e.id in api.persons && t.players == []
    ensures var r := ImportSquad(Db([], [t], []), api, 0, [e, e]);
      && r.outcome == Done
      && r.issued == [PersonById(e.id)]
      && |r.db.players| == 1 && r.db.players[0].teams == [0]
      && |r.db.teams| == 1 && r.db.teams[0].players == [0, 0]
  {
    var db := Db([], [t], []);
    var step := EntryStep(api, 0);
    assert [e, e][..0] == [];
    FoldNext(db, [e, e], 0, step);
    var first := Fold(db, [e, e][..1], step);
    NewEntryCreatesPlayer(db, api, 0, e);
    assert first.db.players[0].playerId == e.id;
    ExistingEntryLinksPlayer(first.db, api, 0, e, 0);
    FoldNext(db, [e, e], 1, step);
    assert [e, e][..2] == [e, e];
  }
}

/** The document store: the three collections (competitions, teams, players),
    their records as written by the schemas in src/models, the lookups the
    services issue, the updates they apply, and the invariants of a store. */
module Documents {
  import opened Football

  /** A local identifier: the position of a document in its collection. */
  type LocalId = nat

  datatype Competition = Competition(
    name: string, code: string, competitionId: ExtId,
    teams: seq<LocalId>)

  /** `teamId` is the field the team import looks teams up by; `teamCode` is the
      field it stores the API's team id under. */
  datatype Team = Team(
    teamId: Option<ExtId>, teamCode: ExtId, name: string, tla: string,
    shortName: string, crest: string, website: string, founded: int,
    clubColors: string, competitions: seq<LocalId>, players: seq<LocalId>)

  datatype Player = Player(
    playerId: ExtId, name: string, position: string, dateOfBirth: string,
    nationality: string, shirtNumber: Option<int>, section: Option<string>,
    teams: seq<LocalId>)

  datatype Db = Db(competitions: seq<Competition>, teams: seq<Team>, players: seq<Player>)

  /** What an import did: the store it leaves, the requests it issued in order,
      and how it ended. */
  datatype Run = Run(db: Db, issued: seq<Request>, outcome: Outcome)

  /** Runs `first` and then `next` (which starts from `first`'s store). */
  function Then(first: Run, next: Run): Run
  {
    Run(next.db, first.issued + next.issued, next.outcome)
  }

  /** A loop over fetched items inside a try/catch that rethrows: `step` runs on
      each item in order, and the first failure ends the loop, keeping every
      earlier write. */
  function Fold<E>(db: Db, items: seq<E>, step: (Db, E) -> Run): Run
    decreases |items|
  {
    if items == [] then Run(db, [], Done)
    else
      var before := Fold(db, items[..|items| - 1], step);
      if before.outcome.Failed? then before else Then(before, step(before.db, items[|items| - 1]))
  }

  /** Folding over `s + t` is folding over `s` and then, unless that failed, over `t`. */
  lemma {:induction false} FoldAppend<E>(db: Db, s: seq<E>, t: seq<E>, step: (Db, E) -> Run)
    ensures var first := Fold(db, s, step);
      Fold(db, s + t, step) == if first.outcome.Failed? then first else Then(first, Fold(first.db, t, step))
    decreases |t|
  {
    var first := Fold(db, s, step);
    if t == [] {
      assert s + t == s;
    } else {
      var init := t[..|t| - 1];
      FoldAppend(db, s, init, step);
      assert (s + t)[..|s + t| - 1] == s + init;
      assert (s + t)[|s + t| - 1] == t[|t| - 1];
      if first.outcome.Done? {
        var mid := Fold(first.db, init, step);
        if mid.outcome.Done? {
          var last := step(mid.db, t[|t| - 1]);
          assert first.issued + mid.issued + last.issued == first.issued + (mid.issued + last.issued);
        }
      }
    }
  }

  /** A prefix that completed, extended by one item, runs `step` on that item. */
  lemma FoldNext<E>(db: Db, items: seq<E>, i: nat, step: (Db, E) -> Run)
    requires i < |items| && Fold(db, items[..i], step).outcome.Done?
    ensures var before := Fold(db, items[..i], step);
      Fold(db, items[..i + 1], step) == Then(before, step(before.db, items[i]))
  {
    assert items[..i + 1][..i] == items[..i];
    assert items[..i + 1][i] == items[i];
  }

  /** A request log that records `before` after `issued0` and then `step`
      records, after `issued0`, `before` followed by `step`. */
  lemma LogAfterStep(issued0: seq<Request>, issued1: seq<Request>, issued2: seq<Request>,
                     before: seq<Request>, step: seq<Request>)
    requires |issued0| <= |issued1| && issued1 == issued0 + before
    requires issued2 == issued1 + step
    ensures |issued0| <= |issued2| && issued2 == issued0 + issued2[|issued0|..]
    ensures issued2[|issued0|..] == before + step
  {
    assert issued2 == issued0 + (before + step);
  }

  /** Once a prefix fails, the remaining items are not processed. */
  lemma FoldStopsAtFirstFailure<E>(db: Db, items: seq<E>, k: nat, step: (Db, E) -> Run)
    requires k <= |items| && Fold(db, items[..k], step).outcome.Failed?
    ensures Fold(db, items, step) == Fold(db, items[..k], step)
  {
    FoldAppend(db, items[..k], items[k..], step);
    assert items[..k] + items[k..] == items;
  }

  /** A property of stores that every step keeps holds after the whole loop,
      whether it completes or stops early. */
  lemma {:induction false} FoldPreserves<E>(db: Db, items: seq<E>, step: (Db, E) -> Run, P: Db -> bool)
    requires P(db)
    requires forall d, e :: P(d) ==> P(step(d, e).db)
    ensures P(Fold(db, items, step).db)
    decreases |items|
  {
    if items != [] {
      FoldPreserves(db, items[..|items| - 1], step, P);
    }
  }

  /** A property `P` of a store and of the items processed so far that every
      completed step extends, and that a failed step leaves in a weaker form `Q`
      which then holds of any longer list, describes the loop's result: `P` of
      all items when it completes, `Q` of all items when it stops early. */
  lemma {:induction false} FoldKeepsUntilFailure<E>(db: Db, items: seq<E>, step: (Db, E) -> Run,
                                                    P: (Db, seq<E>) -> bool, Q: (Db, seq<E>) -> bool)
    requires P(db, [])
    requires forall d, s, e :: P(d, s) && step(d, e).outcome.Done? ==> P(step(d, e).db, s + [e])
    requires forall d, s, e :: P(d, s) && step(d, e).outcome.Failed? ==> Q(step(d, e).db, s + [e])
    requires forall d, s, t :: Q(d, s) ==> Q(d, s + t)
    ensures var r := Fold(db, items, step);
      (r.outcome.Done? ==> P(r.db, items)) && (r.outcome.Failed? ==> Q(r.db, items))
    decreases |items|
  {
    if items != [] {
      var init := items[..|items| - 1];
      FoldKeepsUntilFailure(db, init, step, P, Q);
      assert init + [items[|items| - 1]] == items;
    }
  }

  // ---------------------------------------------------------------------------
  // Reference arrays

  predicate NoDup(s: seq<LocalId>)
  {
    forall i, j :: 0 <= i < j < |s| ==> s[i] != s[j]
  }

  /** `$addToSet`: appends `x` unless it is already present. */
  function AddToSet(s: seq<LocalId>, x: LocalId): (r: seq<LocalId>)
    ensures forall y :: y in r <==> y in s || y == x
    ensures s <= r && |r| <= |s| + 1
    ensures x in s ==> r == s
    ensures NoDup(s) ==> NoDup(r)
  {
    if x in s then s else s + [x]
  }

  // ---------------------------------------------------------------------------
  // Lookups (`findOne`): the first document whose field matches

  /** The position of the first document that `matches` accepts, or none exactly
      when it accepts none. */
  function FindFirst<T>(docs: seq<T>, matches: T -> bool): (r: Option<LocalId>)
    ensures r.Some? ==> r.value < |docs| && matches(docs[r.value])
    ensures r.Some? ==> forall i :: 0 <= i < r.value ==> !matches(docs[i])
    ensures r.None? <==> forall i :: 0 <= i < |docs| ==> !matches(docs[i])
  {
    if |docs| == 0 then None
    else if matches(docs[0]) then Some(0)
    else match FindFirst(docs[1..], matches)
      case None => None
      case Some(i) => Some(i + 1)
  }

  function FindCompetitionByCode(competitions: seq<Competition>, code: string): (r: Option<LocalId>)
    ensures r.Some? ==> r.value < |competitions| && competitions[r.value].code == code
    ensures r.Some? ==> forall i :: 0 <= i < r.value ==> competitions[i].code != code
    ensures r.None? <==> forall i :: 0 <= i < |competitions| ==> competitions[i].code != code
  {
    FindFirst(competitions, (c: Competition) => c.code == code)
  }

  function FindTeamByTeamId(teams: seq<Team>, id: ExtId): (r: Option<LocalId>)
    ensures r.Some? ==> r.value < |teams| && teams[r.value].teamId == Some(id)
    ensures r.Some? ==> forall i :: 0 <= i < r.value ==> teams[i].teamId != Some(id)
    ensures r.None? <==> forall i :: 0 <= i < |teams| ==> teams[i].teamId != Some(id)
  {
    FindFirst(teams, (t: Team) => t.teamId == Some(id))
  }

  function FindTeamByTla(teams: seq<Team>, tla: string): (r: Option<LocalId>)
    ensures r.Some? ==> r.value < |teams| && teams[r.value].tla == tla
    ensures r.Some? ==> forall i :: 0 <= i < r.value ==> teams[i].tla != tla
    ensures r.None? <==> forall i :: 0 <= i < |teams| ==> teams[i].tla != tla
  {
    FindFirst(teams, (t: Team) => t.tla == tla)
  }

  function FindPlayer(players: seq<Player>, id: ExtId): (r: Option<LocalId>)
    ensures r.Some? ==> r.value < |players| && players[r.value].playerId == id
    ensures r.Some? ==> forall i :: 0 <= i < r.value ==> players[i].playerId != id
    ensures r.None? <==> forall i :: 0 <= i < |players| ==> players[i].playerId != id
  {
    FindFirst(players, (p: Player) => p.playerId == id)
  }

  /** `populate`: the documents an array of references names, in the array's
      order; a reference that names no document is dropped. */
  function Resolve<T>(docs: seq<T>, refs: seq<LocalId>): (r: seq<T>)
    ensures |r| <= |refs|
    ensures (forall k :: 0 <= k < |refs| ==> refs[k] < |docs|) ==>
      |r| == |refs| && forall k :: 0 <= k < |refs| ==> r[k] == docs[refs[k]]
  {
    if refs == [] then []
    else (if refs[0] < |docs| then [docs[refs[0]]] else []) + Resolve(docs, refs[1..])
  }

  // ---------------------------------------------------------------------------
  // Writes: `save` appends a document (failing on a unique-index violation),
  // `$push` appends a reference, `$addToSet` adds it with set semantics

  /** The unique index (code, then competitionId) that saving `c` would violate. */
  function CompetitionClash(competitions: seq<Competition>, c: Competition): Option<UniqueIndex>
  {
    if exists i :: 0 <= i < |competitions| && competitions[i].code == c.code then
      Some(CompetitionCodeIndex)
    else if exists i :: 0 <= i < |competitions| && competitions[i].competitionId == c.competitionId then
      Some(CompetitionIdIndex)
    else
      None
  }

  function InsertCompetition(db: Db, c: Competition): Result<Db>
  {
    match CompetitionClash(db.competitions, c)
    case Some(index) => Err(DuplicateKey(index))
    case None => Ok(db.(competitions := db.competitions + [c]))
  }

  /** The team schema declares no unique index, so saving a team never fails. */
  function InsertTeam(db: Db, t: Team): Db
  {
    db.(teams := db.teams + [t])
  }

  function InsertPlayer(db: Db, p: Player): Result<Db>
  {
    if FindPlayer(db.players, p.playerId).Some? then
      Err(DuplicateKey(PlayerIdIndex))
    else
      Ok(db.(players := db.players + [p]))
  }

  /** The unique indexes on competition `code` and `competitionId`: saving fails
      exactly when a stored competition has the code or the competitionId, naming
      the code index when the code clashes; a save that succeeds appends the
      competition and keeps both keys unique. */
  lemma InsertCompetitionEnforcesUniqueKeys(db: Db, c: Competition)
    ensures var r := InsertCompetition(db, c);
      && (r.Err? <==>
            exists i :: 0 <= i < |db.competitions| &&
              (db.competitions[i].code == c.code || db.competitions[i].competitionId == c.competitionId))
      && (r == Err(DuplicateKey(CompetitionCodeIndex)) <==>
            exists i :: 0 <= i < |db.competitions| && db.competitions[i].code == c.code)
      && (r.Ok? ==> r.value == Db(db.competitions + [c], db.teams, db.players))
      && (r.Ok? && UniqueKeys(db) ==> UniqueKeys(r.value))
  {
  }

  /** The unique index on `playerId`: saving fails exactly when a stored player
      has the playerId; a save that succeeds appends the player and keeps player
      ids unique. */
  lemma InsertPlayerEnforcesUniqueKeys(db: Db, p: Player)
    ensures var r := InsertPlayer(db, p);
      && (r.Err? <==> exists i :: 0 <= i < |db.players| && db.players[i].playerId == p.playerId)
      && (r.Err? ==> r.error == DuplicateKey(PlayerIdIndex))
      && (r.Ok? ==> r.value == Db(db.competitions, db.teams, db.players + [p]))
      && (r.Ok? && UniqueKeys(db) ==> UniqueKeys(r.value))
  {
  }

  // `findByIdAndUpdate` on an id that names no document matches nothing and
  // changes nothing.

  function PushCompetitionTeam(db: Db, c: LocalId, t: LocalId): Db
  {
    if c < |db.competitions| then
      db.(competitions := db.competitions[c := db.competitions[c].(teams := db.competitions[c].teams + [t])])
    else db
  }

  function AddTeamCompetition(db: Db, t: LocalId, c: LocalId): Db
  {
    if t < |db.teams| then
      db.(teams := db.teams[t := db.teams[t].(competitions := AddToSet(db.teams[t].competitions, c))])
    else db
  }

  function PushTeamPlayer(db: Db, t: LocalId, p: LocalId): Db
  {
    if t < |db.teams| then
      db.(teams := db.teams[t := db.teams[t].(players := db.teams[t].players + [p])])
    else db
  }

  function AddPlayerTeam(db: Db, p: LocalId, t: LocalId): Db
  {
    if p < |db.players| then
      db.(players := db.players[p := db.players[p].(teams := AddToSet(db.players[p].teams, t))])
    else db
  }

  // ---------------------------------------------------------------------------
  // Invariants of a store

  /** Every reference names a stored document. */
  predicate RefsInRange(db: Db)
  {
    && (forall c, t :: 0 <= c < |db.competitions| && t in db.competitions[c].teams ==> t < |db.teams|)
    && (forall t, c :: 0 <= t < |db.teams| && c in db.teams[t].competitions ==> c < |db.competitions|)
    && (forall t, p :: 0 <= t < |db.teams| && p in db.teams[t].players ==> p < |db.players|)
    && (forall p, t :: 0 <= p < |db.players| && t in db.players[p].teams ==> t < |db.teams|)
  }

  /** The unique indexes of the competition and player schemas hold. */
  predicate UniqueKeys(db: Db)
  {
    && (forall i, j :: 0 <= i < j < |db.competitions| ==> db.competitions[i].code != db.competitions[j].code)
    && (forall i, j :: 0 <= i < j < |db.competitions| ==>
          db.competitions[i].competitionId != db.competitions[j].competitionId)
    && (forall i, j :: 0 <= i < j < |db.players| ==> db.players[i].playerId != db.players[j].playerId)
  }

  /** The reference arrays the pipeline treats as sets hold no duplicate.
      A team's `players` array is not one of them. */
  predicate SetLike(db: Db)
  {
    && (forall c :: 0 <= c < |db.competitions| ==> NoDup(db.competitions[c].teams))
    && (forall t :: 0 <= t < |db.teams| ==> NoDup(db.teams[t].competitions))
    && (forall p :: 0 <= p < |db.players| ==> NoDup(db.players[p].teams))
  }

  /** Each relation is stored in both directions. */
  predicate Mirrored(db: Db)
  {
    && (forall c, t :: 0 <= c < |db.competitions| && 0 <= t < |db.teams| ==>
          (t in db.competitions[c].teams <==> c in db.teams[t].competitions))
    && (forall t, p :: 0 <= t < |db.teams| && 0 <= p < |db.players| ==>
          (p in db.teams[t].players <==> t in db.players[p].teams))
  }

  predicate Valid(db: Db)
  {
    RefsInRange(db) && UniqueKeys(db) && SetLike(db) && Mirrored(db)
  }

  /** No stored team carries the `teamId` field. The import never writes it. */
  predicate NoTeamIdField(db: Db)
  {
    forall t :: 0 <= t < |db.teams| ==> db.teams[t].teamId.None?
  }

  /** `next` grows `db` the way the import does: collections only get longer, no
      scalar field of a stored document changes, reference arrays only get longer. */
  predicate Extends(db: Db, next: Db)
  {
    && |db.competitions| <= |next.competitions|
    && |db.teams| <= |next.teams|
    && |db.players| <= |next.players|
    && (forall c :: 0 <= c < |db.competitions| ==>
          && db.competitions[c].(teams := []) == next.competitions[c].(teams := [])
          && db.competitions[c].teams <= next.competitions[c].teams)
    && (forall t :: 0 <= t < |db.teams| ==>
          && db.teams[t].(competitions := [], players := []) == next.teams[t].(competitions := [], players := [])
          && db.teams[t].competitions <= next.teams[t].competitions
          && db.teams[t].players <= next.teams[t].players)
    && (forall p :: 0 <= p < |db.players| ==>
          && db.players[p].(teams := []) == next.players[p].(teams := [])
          && db.players[p].teams <= next.players[p].teams)
  }

  lemma ExtendsTransitive(a: Db, b: Db, c: Db)
    requires Extends(a, b) && Extends(b, c)
    ensures Extends(a, c)
  {
  }

  /** An empty store, the one `Store()` starts from, satisfies both invariants the
      import lemmas assume, so they hold of every store the imports reach. */
  lemma EmptyStoreIsValid()
    ensures Valid(Db([], [], [])) && NoTeamIdField(Db([], [], []))
  {
  }

  // ---------------------------------------------------------------------------
  // The store object

  class Store {
    var competitions: seq<Competition>
    var teams: seq<Team>
    var players: seq<Player>

    function State(): Db
      reads this
    {
      Db(competitions, teams, players)
    }

    constructor ()
      ensures State() == Db([], [], [])
    {
      competitions, teams, players := [], [], [];
    }

    method SaveCompetition(c: Competition) returns (r: Result<LocalId>)
      modifies this
      ensures r.Ok? == InsertCompetition(old(State()), c).Ok?
      ensures r.Ok? ==> r.value == old(|competitions|) && State() == InsertCompetition(old(State()), c).value
      ensures r.Err? ==> r.error == InsertCompetition(old(State()), c).error && State() == old(State())
    {
      var clash := CompetitionClash(competitions, c);
      if clash.Some? {
        r := Err(DuplicateKey(clash.value));
      } else {
        r := Ok(|competitions|);
        competitions := competitions + [c];
      }
    }

    method SaveTeam(t: Team) returns (id: LocalId)
      modifies this
      ensures id == old(|teams|) && State() == InsertTeam(old(State()), t)
    {
      id := |teams|;
      teams := teams + [t];
    }

    method SavePlayer(p: Player) returns (r: Result<LocalId>)
      modifies this
      ensures r.Ok? == InsertPlayer(old(State()), p).Ok?
      ensures r.Ok? ==> r.value == old(|players|) && State() == InsertPlayer(old(State()), p).value
      ensures r.Err? ==> r.error == InsertPlayer(old(State()), p).error && State() == old(State())
    {
      if FindPlayer(players, p.playerId).Some? {
        return Err(DuplicateKey(PlayerIdIndex));
      }
      r := Ok(|players|);
      players := players + [p];
    }

    /** `Competition.findByIdAndUpdate(c, { $push: { teams: t } })` */
    method PushTeamToCompetition(c: LocalId, t: LocalId)
      modifies this
      ensures State() == PushCompetitionTeam(old(State()), c, t)
    {
      if c < |competitions| {
        competitions := competitions[c := competitions[c].(teams := competitions[c].teams + [t])];
      }
    }

    /** `Team.findByIdAndUpdate(t, { $addToSet: { competitions: c } })` */
    method AddCompetitionToTeam(t: LocalId, c: LocalId)
      modifies this
      ensures State() == AddTeamCompetition(old(State()), t, c)
    {
      if t < |teams| {
        teams := teams[t := teams[t].(competitions := AddToSet(teams[t].competitions, c))];
      }
    }

    /** `Team.findByIdAndUpdate(t, { $push: { players: p } })` */
    method PushPlayerToTeam(t: LocalId, p: LocalId)
      modifies this
      ensures State() == PushTeamPlayer(old(State()), t, p)
    {
      if t < |teams| {
        teams := teams[t := teams[t].(players := teams[t].players + [p])];
      }
    }

    /** `Player.findByIdAndUpdate(p, { $addToSet: { teams: t } })` */
    method AddTeamToPlayer(p: LocalId, t: LocalId)
      modifies this
      ensures State() == AddPlayerTeam(old(State()), p, t)
    {
      if p < |players| {
        players := players[p := players[p].(teams := AddToSet(players[p].teams, t))];
      }
    }
  }
}

/** Registering players with races, and what every roster looks like. */
module Roster {
  import opened Common
  import opened Relations
  import opened Database
  import opened Slots

  // ---- The roster invariant

  predicate IsValidBotRaceId(id: Id) {
    id in {"0", "1", "2", "3", "4", "5", "6"}
  }

  /** A human plays an existing race of their own; a bot plays a predefined race at some level. */
  predicate Fielded(races: RaceTable, p: Player) {
    if p.isBot then IsValidBotRaceId(p.raceId) && p.botLevel.Some?
    else p.raceId in races && races[p.raceId].userId == p.userId
  }

  /** Two players of one session have different slots, and two humans are different users. */
  predicate Apart(a: Player, b: Player) {
    a.sessionId == b.sessionId ==> a.order != b.order && (!a.isBot && !b.isBot ==> a.userId != b.userId)
  }

  ghost predicate RosterOk(players: PlayerTable, races: RaceTable) {
    && (forall k :: k in players ==>
          players[k].id == k && 0 <= players[k].order <= MAX_SLOT && Fielded(races, players[k]))
    && (forall j, k :: j in players && k in players && j != k ==> Apart(players[j], players[k]))
    && (forall r :: r in races ==> races[r].id == r)
  }

  // ---- Registration

  /** The request body; its other fields are overwritten. */
  datatype Registration = Registration(id: Id, raceId: Id, isBot: bool, botLevel: Option<int>, ready: bool)

  predicate OwnsRace(races: RaceTable, user: Id, raceId: Id) {
    raceId in races && races[raceId].userId == user
  }

  /** `Authorize`: only managers field bots, only members field a race of their own; a global
      manager may do anything. */
  predicate MayRegister(db: Database, principal: Principal, session: Id, params: Registration) {
    && !principal.isPending
    && (principal.isGlobalManager
        || if params.isBot then IsManager(db, principal.subject, session)
           else IsMember(db, principal.subject, session) && OwnsRace(db.races, principal.subject, params.raceId))
  }

  predicate HasPlayer(players: PlayerTable, session: Id, user: Id) {
    exists k | k in players :: players[k].sessionId == session && players[k].userId == user
  }

  /** The constraints of a row of the table. */
  predicate RowAccepted(db: Database, p: Player) {
    && p.sessionId in db.sessions && p.userId in db.users && p.raceId in db.races
    && (p.botLevel.Some? ==> p.botLevel.value <= MAX_BOT_LEVEL)
    && p.order <= MAX_SLOT
  }

  function UpdatePlayer(db: Database, principal: Principal, session: Id, params: Registration): Result<Player, Error> {
    if params.id !in db.players then Err(NotFound)
    else
      var existing := db.players[params.id];
      if existing.sessionId != session then Err(Invalid)
      else if !existing.isBot && existing.userId != principal.subject then Err(Forbidden)
      else if existing.isBot != params.isBot then Err(Invalid)
      else if !existing.isBot && existing.ready then Err(Invalid)
      else
        var updated := existing.(raceId := params.raceId, botLevel := params.botLevel);
        if RowAccepted(db, updated) then Ok(updated) else Err(Failed)
  }

  function CreatePlayer(
      db: Database, principal: Principal, session: Id, params: Registration, newId: Id, order: int)
    : Result<Player, Error>
  {
    if !params.isBot && HasPlayer(db.players, session, principal.subject) then Err(Invalid)
    else
      var user := if params.isBot then SYSTEM_USER else principal.subject;
      var created := Player(newId, session, user, params.raceId, params.isBot, params.botLevel, order,
                            params.isBot || params.ready);
      if newId !in db.players && RowAccepted(db, created) then Ok(created) else Err(Failed)
  }

  /** The row that a registration writes. */
  function Registered(
      db: Database, principal: Principal, session: Id, params: Registration, newId: Id, order: int)
    : Result<Player, Error>
  {
    if params.isBot && !IsValidBotRaceId(params.raceId) then Err(Invalid)
    else if params.isBot && params.botLevel.None? then Err(Invalid)
    else if !MayRegister(db, principal, session, params) then Err(Forbidden)
    else if params.id != "" then UpdatePlayer(db, principal, session, params)
    else CreatePlayer(db, principal, session, params, newId, order)
  }

  function WithPlayer(db: Database, p: Player): Database {
    db.(players := db.players[p.id := p])
  }

  /** It writes that row and no other. */
  lemma WritesOneRow(db: Database, p: Player)
    ensures forall k :: Entry(WithPlayer(db, p).players, k) == if k == p.id then Some(p) else Entry(db.players, k)
    ensures WithPlayer(db, p) == db.(players := WithPlayer(db, p).players)
  {
  }

  class SessionPlayerRaceCreateHandler {
    const store: Store

    constructor (store: Store)
      ensures this.store == store
    {
      this.store := store;
    }

    method Authorize(tx: Database, principal: Principal, session: Id, params: Registration) returns (ok: bool)
      ensures ok <==> MayRegister(tx, principal, session, params)
    {
      if principal.isPending {
        return false;
      }
      var manager := IsManager(tx, principal.subject, session);
      if params.isBot {
        return principal.isGlobalManager || manager;
      }
      if principal.isGlobalManager {
        return true;
      }
      var member := IsMember(tx, principal.subject, session);
      if !member && !manager {
        return false;
      }
      ok := OwnsRace(tx.races, principal.subject, params.raceId);
    }

    /** Updates the given player or creates a new one in the next free slot; `maxOrder` is what the
        database answers for the highest slot, `newId` a fresh id. */
    method Handle(principal: Principal, session: Id, params: Registration, newId: Id, maxOrder: Option<int>)
      returns (r: Result<Player, Error>)
      requires IsMaxOrder(store.db.players, session, maxOrder)
      modifies store
      ensures r == Registered(old(store.db), principal, session, params, newId, NextOrder(maxOrder))
      ensures store.db == if r.Ok? then WithPlayer(old(store.db), r.value) else old(store.db)
    {
      var tx := store.db;
      if params.isBot {
        if !IsValidBotRaceId(params.raceId) {
          return Err(Invalid);
        }
        if params.botLevel.None? {
          return Err(Invalid);
        }
      }
      var authorized := Authorize(tx, principal, session, params);
      if !authorized {
        return Err(Forbidden);
      }
      if params.id != "" {
        if params.id !in tx.players {
          return Err(NotFound);
        }
        var p := tx.players[params.id];
        if p.sessionId != session {
          return Err(Invalid);
        }
        if !p.isBot && p.userId != principal.subject {
          return Err(Forbidden);
        }
        if p.isBot != params.isBot {
          return Err(Invalid);
        }
        if !p.isBot && p.ready {
          return Err(Invalid);
        }
        p := p.(raceId := params.raceId, botLevel := params.botLevel);
        if !RowAccepted(tx, p) {
          return Err(Failed);
        }
        store.db := WithPlayer(tx, p);
        return Ok(p);
      }
      var p := Player(newId, session, "", params.raceId, params.isBot, params.botLevel, 0, params.ready);
      if params.isBot {
        p := p.(userId := SYSTEM_USER, ready := true);
      } else {
        p := p.(userId := principal.subject);
        if HasPlayer(tx.players, session, principal.subject) {
          return Err(Invalid);
        }
      }
      var nextOrder := GetNextPlayerOrder(tx.players, session, maxOrder);
      p := p.(order := nextOrder);
      if newId in tx.players || !RowAccepted(tx, p) {
        return Err(Failed);
      }
      store.db := WithPlayer(tx, p);
      r := Ok(p);
    }
  }

  /** A registration keeps the invariant exactly when the player it writes is a bot or plays a race
      of its own user, which is what the ownership check of `Authorize` is for. */
  lemma RegistrationKeepsRoster(
      db: Database, principal: Principal, session: Id, params: Registration, newId: Id, maxOrder: Option<int>)
    requires RosterOk(db.players, db.races) && IsMaxOrder(db.players, session, maxOrder)
    requires Registered(db, principal, session, params, newId, NextOrder(maxOrder)).Ok?
    ensures var p := Registered(db, principal, session, params, newId, NextOrder(maxOrder)).value;
            RosterOk(WithPlayer(db, p).players, db.races) <==> p.isBot || OwnsRace(db.races, p.userId, p.raceId)
  {
    hide IsMaxOrder, HasPlayer, RowAccepted, MayRegister, IsValidBotRaceId;
    var p := Registered(db, principal, session, params, newId, NextOrder(maxOrder)).value;
    var after := WithPlayer(db, p).players;
    BotsAreFielded(db, principal, session, params, newId, maxOrder);
    assert Fielded(db.races, after[p.id]) <==> p.isBot || OwnsRace(db.races, p.userId, p.raceId);
    PlayerStaysApart(db, principal, session, params, newId, maxOrder);
  }

  lemma BotsAreFielded(
      db: Database, principal: Principal, session: Id, params: Registration, newId: Id, maxOrder: Option<int>)
    requires Registered(db, principal, session, params, newId, NextOrder(maxOrder)).Ok?
    ensures var p := Registered(db, principal, session, params, newId, NextOrder(maxOrder)).value;
            p.isBot == params.isBot && (p.isBot ==> Fielded(db.races, p))
  {
    hide HasPlayer, RowAccepted, MayRegister, IsValidBotRaceId;
  }

  lemma PlayerStaysApart(
      db: Database, principal: Principal, session: Id, params: Registration, newId: Id, maxOrder: Option<int>)
    requires RosterOk(db.players, db.races) && IsMaxOrder(db.players, session, maxOrder)
    requires Registered(db, principal, session, params, newId, NextOrder(maxOrder)).Ok?
    ensures var p := Registered(db, principal, session, params, newId, NextOrder(maxOrder)).value;
            && 0 <= p.order <= MAX_SLOT
            && (forall k :: k in db.players && k != p.id ==> Apart(db.players[k], p) && Apart(p, db.players[k]))
  {
    var p := Registered(db, principal, session, params, newId, NextOrder(maxOrder)).value;
    forall k | k in db.players && k != p.id
      ensures Apart(db.players[k], p) && Apart(p, db.players[k])
    {
      if params.id != "" {
        assert Apart(db.players[k], db.players[p.id]) && Apart(db.players[p.id], db.players[k]);
      } else {
        assert Seated(db.players, session, k) <==> db.players[k].sessionId == session;
      }
    }
  }

  /** So no one but a global manager can break it. */
  lemma UserKeepsRoster(
      db: Database, principal: Principal, session: Id, params: Registration, newId: Id, maxOrder: Option<int>)
    requires RosterOk(db.players, db.races) && IsMaxOrder(db.players, session, maxOrder)
    requires Registered(db, principal, session, params, newId, NextOrder(maxOrder)).Ok?
    requires !principal.isGlobalManager || params.isBot
    ensures var p := Registered(db, principal, session, params, newId, NextOrder(maxOrder)).value;
            RosterOk(WithPlayer(db, p).players, db.races)
  {
    hide RosterOk;
    RegistrationKeepsRoster(db, principal, session, params, newId, maxOrder);
  }

  /** Nobody writes a human row but their own, and then only while it is not ready; what is written has
      the race and the level of the request; an update changes those and nothing else, a creation takes
      a seat above all others. */
  lemma OnlyOwnRows(
      db: Database, principal: Principal, session: Id, params: Registration, newId: Id, maxOrder: Option<int>, k: Id)
    requires RosterOk(db.players, db.races) && IsMaxOrder(db.players, session, maxOrder)
    requires Registered(db, principal, session, params, newId, NextOrder(maxOrder)).Ok?
    ensures var p := Registered(db, principal, session, params, newId, NextOrder(maxOrder)).value;
            && p.sessionId == session && p.isBot == params.isBot
            && p.raceId == params.raceId && p.botLevel == params.botLevel
            && (if p.isBot then !principal.isGlobalManager ==> IsManager(db, principal.subject, session)
                else p.userId == principal.subject)
            && p.id == (if params.id != "" then params.id else newId)
            && (p.id in db.players <==> params.id != "")
            && (p.id in db.players ==>
                  && p == db.players[p.id].(raceId := params.raceId, botLevel := params.botLevel)
                  && (p.ready ==> p.isBot))
            && (p.id !in db.players ==>
                  p.ready == (p.isBot || params.ready) && (p.isBot ==> p.userId == "system"))
            && (p.id !in db.players && Seated(db.players, session, k) ==>
                  db.players[k].order < p.order && (p.isBot || db.players[k].userId != p.userId))
  {
    if params.id == "" && Seated(db.players, session, k) {
      assert db.players[k].sessionId == session;
    }
  }

  /** The request itself is in order: a bot needs a predefined race and a level. */
  predicate InOrder(params: Registration) {
    params.isBot ==> params.raceId in {"0", "1", "2", "3", "4", "5", "6"} && params.botLevel.Some?
  }

  /** Managers field bots, members field a race of their own, a global manager anything; pending users
      nothing. */
  predicate MayField(db: Database, principal: Principal, session: Id, params: Registration) {
    var flag := Entry(db.members, RelKey(principal.subject, session));
    && !principal.isPending
    && (principal.isGlobalManager
        || (params.isBot && flag == Some(true))
        || (!params.isBot && flag.Some?
            && params.raceId in db.races && db.races[params.raceId].userId == principal.subject))
  }

  /** The row that the request names can be changed by it. */
  predicate MayChange(row: Player, principal: Principal, session: Id, params: Registration) {
    && row.sessionId == session && row.isBot == params.isBot
    && (!row.isBot ==> row.userId == principal.subject && !row.ready)
  }

  predicate NotSeatedYet(players: PlayerTable, session: Id, user: Id) {
    forall k | k in players :: !(players[k].sessionId == session && players[k].userId == user)
  }

  /** What the table asks of the race and the level. */
  predicate Storable(db: Database, session: Id, user: Id, order: int, params: Registration) {
    && session in db.sessions && user in db.users && params.raceId in db.races
    && order <= 15 && (params.botLevel.Some? ==> params.botLevel.value <= 4)
  }

  /** When a registration succeeds, in terms of the tables: the request is in order, the principal may
      field that, and either the named row can be changed, or there is a seat to take. */
  lemma RegistersIff(
      db: Database, principal: Principal, session: Id, params: Registration, newId: Id, order: int)
    ensures var r, row := Registered(db, principal, session, params, newId, order), Entry(db.players, params.id);
            && (r.Ok? <==>
                  && InOrder(params) && MayField(db, principal, session, params)
                  && if params.id != "" then
                       && row.Some? && MayChange(row.value, principal, session, params)
                       && Storable(db, session, row.value.userId, row.value.order, params)
                     else
                       && (params.isBot || NotSeatedYet(db.players, session, principal.subject))
                       && newId !in db.players
                       && Storable(db, session, if params.isBot then "system" else principal.subject, order, params))
            && (r == Err(NotFound) <==>
                  InOrder(params) && MayField(db, principal, session, params) && params.id != "" && row.None?)
            && (!InOrder(params) ==> r == Err(Invalid))
            && (InOrder(params) && !MayField(db, principal, session, params) ==> r == Err(Forbidden))
  {
  }

  // ---- Races

  /** The uploaded race belongs to the uploader; `accepted` stands for the limit and the validation
      of the file. */
  function CreateRace(db: Database, principal: Principal, newId: Id, data: string, accepted: bool): Outcome {
    if !accepted || newId in db.races || principal.subject !in db.users then Err(Failed)
    else Ok(db.(races := db.races[newId := Race(newId, principal.subject, data)]))
  }

  predicate RaceInUse(players: PlayerTable, raceId: Id) {
    exists k | k in players :: players[k].raceId == raceId
  }

  function DeleteRace(db: Database, principal: Principal, pathUser: Id, raceId: Id): Outcome {
    if !principal.isGlobalManager && pathUser != principal.subject then Err(Forbidden)
    else if RaceInUse(db.players, raceId) then Err(Conflict)
    else if raceId !in db.races then Err(NotFound)
    else Ok(db.(races := db.races - {raceId}))
  }

  /** In terms of the tables: an uploaded race belongs to whoever uploads it. */
  lemma CreatesIff(db: Database, principal: Principal, newId: Id, data: string, accepted: bool)
    ensures var outcome := CreateRace(db, principal, newId, data, accepted);
            && (outcome.Ok? <==> accepted && newId !in db.races && principal.subject in db.users)
            && (outcome.Ok? ==>
                  && (forall r :: Entry(outcome.value.races, r) ==
                                  if r == newId then Some(Race(newId, principal.subject, data)) else Entry(db.races, r))
                  && outcome.value == db.(races := outcome.value.races))
  {
  }

  /** In terms of the tables: a race is deleted exactly when it is there, nobody plays it, and the path
      is that of the principal or the principal a global manager; and only that race goes. */
  lemma DeletesIff(db: Database, principal: Principal, pathUser: Id, raceId: Id)
    ensures var outcome := DeleteRace(db, principal, pathUser, raceId);
            var may := principal.isGlobalManager || pathUser == principal.subject;
            var used := exists k :: k in db.players && db.players[k].raceId == raceId;
            && (outcome == Err(Forbidden) <==> !may)
            && (outcome == Err(Conflict) <==> may && used)
            && (outcome == Err(NotFound) <==> may && !used && raceId !in db.races)
            && (outcome.Ok? <==> may && !used && raceId in db.races)
            && (outcome.Ok? ==>
                  && (forall r :: Entry(outcome.value.races, r) == if r == raceId then None else Entry(db.races, r))
                  && outcome.value == db.(races := outcome.value.races))
  {
  }

  /** The count of rows that use the race, computed as the query does. */
  function UseCount(players: PlayerTable, raceId: Id): nat {
    |set k | k in players && players[k].raceId == raceId|
  }

  method HandleRaceDelete(store: Store, principal: Principal, pathUser: Id, raceId: Id) returns (error: Option<Error>)
    modifies store
    ensures var outcome := DeleteRace(old(store.db), principal, pathUser, raceId);
            && store.db == Committed(old(store.db), outcome)
            && error == if outcome.Ok? then None else Some(outcome.error)
  {
    var tx := store.db;
    if !(principal.isGlobalManager || pathUser == principal.subject) {
      return Some(Forbidden);
    }
    var uses := set k | k in tx.players && tx.players[k].raceId == raceId;
    assert uses == {} <==> !RaceInUse(tx.players, raceId) by {
      if k :| k in tx.players && tx.players[k].raceId == raceId {
        assert k in uses;
      }
    }
    if UseCount(tx.players, raceId) > 0 {
      return Some(Conflict);
    }
    if raceId !in tx.races {
      return Some(NotFound);
    }
    store.db := tx.(races := tx.races - {raceId});
    error := None;
  }

  /** Whoever deletes whatever race: no player loses theirs. */
  lemma RaceStepsKeepRoster(db: Database, principal: Principal, pathUser: Id, raceId: Id, data: string, accepted: bool)
    requires RosterOk(db.players, db.races)
    ensures var outcome := CreateRace(db, principal, raceId, data, accepted);
            outcome.Ok? ==> RosterOk(outcome.value.players, outcome.value.races)
    ensures var outcome := DeleteRace(db, principal, pathUser, raceId);
            outcome.Ok? ==> RosterOk(outcome.value.players, outcome.value.races)
  {
  }

  // ---- Row removal and normalisation

  lemma RemovalKeepsRoster(players: PlayerTable, races: RaceTable, gone: set<Id>)
    requires RosterOk(players, races)
    ensures RosterOk(players - gone, races)
  {
  }

  lemma ReadyKeepsRoster(players: PlayerTable, races: RaceTable, id: Id, ready: bool)
    requires RosterOk(players, races) && id in players
    ensures RosterOk(players[id := players[id].(ready := ready)], races)
  {
  }

  /** On a roster that satisfies the invariant normalisation cannot fail, and keeps it. */
  lemma NormaliseKeepsRoster(players: PlayerTable, races: RaceTable, session: Id, rows: seq<Player>)
    requires RosterOk(players, races) && IsRoster(players, session, rows)
    ensures SlotsFit(rows, |rows|)
    ensures RosterOk(AfterSteps(players, rows, |rows|), races)
  {
    hide AfterSteps;
    StrictlyAscending(players, races, session, rows);
    var after := AfterSteps(players, rows, |rows|);
    forall i | 0 <= i < |rows|
      ensures i <= rows[i].order <= MAX_SLOT
    {
      SlotsGrow(rows, i);
    }
    forall k | k in players
      ensures k in after && after[k] == players[k].(order := after[k].order) && 0 <= after[k].order <= MAX_SLOT
    {
      OnlySlotsChange(players, rows, |rows|, k);
      if i :| 0 <= i < |rows| && rows[i].id == k {
        SlotAfterSteps(players, rows, |rows|, i);
      }
    }
    forall j, k | j in players && k in players && j != k
      ensures Apart(after[j], after[k])
    {
      assert Apart(players[j], players[k]);
      if players[j].sessionId == players[k].sessionId {
        NormalisedApart(players, races, session, rows, j, k);
      }
    }
    forall k
      ensures k in after <==> k in players
    {
      OnlySlotsChange(players, rows, |rows|, k);
    }
  }

  lemma StrictlyAscending(players: PlayerTable, races: RaceTable, session: Id, rows: seq<Player>)
    requires RosterOk(players, races) && IsRoster(players, session, rows)
    ensures forall i :: 0 <= i < |rows| ==> 0 <= rows[i].order <= MAX_SLOT
    ensures forall i, j :: 0 <= i < j < |rows| ==> rows[i].order < rows[j].order
  {
    forall i | 0 <= i < |rows|
      ensures Seated(players, session, rows[i].id) && 0 <= rows[i].order <= MAX_SLOT
    {
    }
    forall i, j | 0 <= i < j < |rows|
      ensures rows[i].order < rows[j].order
    {
      assert Apart(players[rows[i].id], players[rows[j].id]);
    }
  }

  lemma NormalisedApart(players: PlayerTable, races: RaceTable, session: Id, rows: seq<Player>, j: Id, k: Id)
    requires RosterOk(players, races) && IsRoster(players, session, rows)
    requires j in players && k in players && j != k && players[j].sessionId == players[k].sessionId
    ensures var after := AfterSteps(players, rows, |rows|);
            j in after && k in after && after[j].order != after[k].order
  {
    hide AfterSteps, Fielded;
    if players[j].sessionId == session {
      StrictlyAscending(players, races, session, rows);
      NoClashOnTheWay(players, session, rows, |rows|, j, k);
    } else {
      assert !Seated(players, session, j) && !Seated(players, session, k);
      OnlySlotsChange(players, rows, |rows|, j);
      OnlySlotsChange(players, rows, |rows|, k);
      assert Apart(players[j], players[k]);
    }
  }
}

/** Starting a game, in three phases. */
module GameStart {
  import opened Common
  import opened Relations
  import opened Base64
  import opened GameFiles
  import opened Database
  import opened Slots
  import opened Roster
  import opened NewGame
  import opened Sessions

  /** What handles binary files: the year of a host file, whether a race file is valid, and the
      processing of race files before a new game. */
  datatype Env = Env(yearOf: HeaderReader, validRace: Bytes -> bool, process: Bytes -> Bytes)

  /** What phase 1 hands to the later phases. */
  datatype Generation = Generation(
    session: Id, snapshot: SessionRow, players: seq<Player>, races: seq<Race>, rules: Rules)

  // ---- Phase 1

  predicate AllReady(players: seq<Player>) {
    forall i :: 0 <= i < |players| ==> players[i].ready
  }

  predicate ValidRace(env: Env, race: Race) {
    Decode(race.data).Some? && env.validRace(Decode(race.data).value)
  }

  predicate AllValid(env: Env, races: seq<Race>) {
    forall i :: 0 <= i < |races| ==> ValidRace(env, races[i])
  }

  /** The answers of the queries of phase 1. */
  datatype Answers = Answers(roster: seq<Player>, ruleset: Option<Id>, races: seq<Race>)

  ghost predicate AnswersOk(db: Database, session: Id, a: Answers) {
    && IsRoster(db.players, session, a.roster)
    && RulesetFound(db.rulesets, session, a.ruleset)
    && IsSelection(db.races, HumanRaceIds(a.roster), a.races)
  }

  datatype Begun = Begun(db: Database, gen: Generation)

  /** Validates under the lock of the session row and moves the session to "starting". */
  function BeginStart(env: Env, db: Database, principal: Principal, session: Id, a: Answers): Result<Begun, Error>
    requires a.ruleset.Some? ==> IsRulesetOf(db.rulesets, session, a.ruleset.value)
  {
    if !IsAuthorizedManager(db, principal, session) then Err(Forbidden)
    else if session !in db.sessions then Err(NotFound)
    else if db.sessions[session].state != Pending then Err(Invalid)
    else if !SlotsFit(a.roster, |a.roster|) then Err(Failed)
    else
      var players := Slotted(a.roster);
      var races := JoinedByOwner(players, a.races);
      if !AllReady(players) then Err(PreconditionFailed)
      else if a.ruleset.None? then Err(Failed)
      else if !AllValid(env, races) then Err(Invalid)
      else
        var starting := db.sessions[session].(state := Starting);
        Ok(Begun(
          db.(players := AfterSteps(db.players, a.roster, |a.roster|), sessions := db.sessions[session := starting]),
          Generation(session, starting, players, races, db.rulesets[a.ruleset.value].rules)))
  }

  // ---- What phase 1 asks for and what it leaves, in terms of the tables

  /** A race that the join by owner brings in: some human of the session plays it, and its owner is
      a human of the session. */
  ghost predicate Brought(db: Database, session: Id, race: Race) {
    && race.id in db.races && db.races[race.id] == race
    && (exists k :: Seated(db.players, session, k) && !db.players[k].isBot && db.players[k].raceId == race.id)
    && (exists k :: Seated(db.players, session, k) && !db.players[k].isBot && db.players[k].userId == race.userId)
  }

  ghost predicate EveryoneReady(db: Database, session: Id) {
    forall k :: Seated(db.players, session, k) ==> db.players[k].ready
  }

  ghost predicate EveryRaceValid(env: Env, db: Database, session: Id) {
    forall race :: Brought(db, session, race) ==>
      Decode(race.data).Some? && env.validRace(Decode(race.data).value)
  }

  /** The one thing that the rows must fit: beyond slot 15 nobody may have to move. */
  ghost predicate RoomForAll(roster: seq<Player>) {
    forall i :: 15 < i < |roster| ==> roster[i].order == i
  }

  /** When phase 1 succeeds, and what each of its errors means. */
  lemma BeginsIff(env: Env, db: Database, principal: Principal, session: Id, a: Answers)
    requires AnswersOk(db, session, a)
    ensures var begun := BeginStart(env, db, principal, session, a);
            var manages := !principal.isPending
              && (principal.isGlobalManager || Entry(db.members, RelKey(principal.subject, session)) == Some(true));
            var row := Entry(db.sessions, session);
            var pending := manages && row.Some? && row.value.state == Pending && RoomForAll(a.roster);
            var ruled := exists r :: IsRulesetOf(db.rulesets, session, r);
            && (begun == Err(Forbidden) <==> !manages)
            && (begun == Err(NotFound) <==> manages && row.None?)
            && (begun == Err(PreconditionFailed) <==> pending && !EveryoneReady(db, session))
            && (begun == Err(Failed) <==>
                  || (manages && row.Some? && row.value.state == Pending && !RoomForAll(a.roster))
                  || (pending && EveryoneReady(db, session) && !ruled))
            && (begun == Err(Invalid) <==>
                  || (manages && row.Some? && row.value.state != Pending)
                  || (pending && EveryoneReady(db, session) && ruled && !EveryRaceValid(env, db, session)))
            && (begun.Ok? <==>
                  && pending && EveryoneReady(db, session) && ruled && EveryRaceValid(env, db, session))
  {
    hide IsRoster, IsSelection, ValidRace, AfterSteps, JoinedByOwner, Brought, EveryoneReady, EveryRaceValid;
    var players := Slotted(a.roster);
    ReadyRows(db, session, a.roster);
    ValidRows(env, db, session, a);
    assert RoomForAll(a.roster) <==> SlotsFit(a.roster, |a.roster|);
    hide SlotsFit, RoomForAll, IsRulesetOf, AllReady, AllValid;
  }

  lemma ReadyRows(db: Database, session: Id, roster: seq<Player>)
    requires IsRoster(db.players, session, roster)
    ensures AllReady(Slotted(roster)) <==> EveryoneReady(db, session)
  {
    var players := db.players;
    if AllReady(Slotted(roster)) {
      forall k | Seated(players, session, k)
        ensures players[k].ready
      {
        var i :| 0 <= i < |roster| && roster[i].id == k;
        assert Slotted(roster)[i].ready;
      }
    }
    if EveryoneReady(db, session) {
      forall i | 0 <= i < |roster|
        ensures Slotted(roster)[i].ready
      {
        assert Seated(players, session, roster[i].id);
      }
    }
  }

  /** The joined list is made of exactly those races. */
  lemma {:induction false} BroughtIsJoined(db: Database, session: Id, a: Answers, race: Race)
    requires AnswersOk(db, session, a)
    ensures race in JoinedByOwner(Slotted(a.roster), a.races) <==> Brought(db, session, race)
  {
    hide JoinedByOwner, HasHuman, HumanRaceIds;
    JoinedIn(Slotted(a.roster), a.races, race);
    HumanRows(db.players, session, a.roster, race.userId);
    if race in a.races {
      var i :| 0 <= i < |a.races| && a.races[i] == race;
      RaceOfSomeone(db.players, session, a.roster, race.id);
    }
    if Brought(db, session, race) {
      RaceOfSomeone(db.players, session, a.roster, race.id);
      var i :| 0 <= i < |a.races| && a.races[i].id == race.id;
      assert a.races[i] == race;
    }
  }

  lemma HumanRows(players: PlayerTable, session: Id, roster: seq<Player>, user: Id)
    requires IsRoster(players, session, roster)
    ensures HasHuman(Slotted(roster), user) <==>
            exists k :: Seated(players, session, k) && !players[k].isBot && players[k].userId == user
  {
    if i :| 0 <= i < |Slotted(roster)| && !Slotted(roster)[i].isBot && Slotted(roster)[i].userId == user {
      assert Seated(players, session, roster[i].id);
    }
    if k :| Seated(players, session, k) && !players[k].isBot && players[k].userId == user {
      var i :| 0 <= i < |roster| && roster[i].id == k;
      assert Slotted(roster)[i].userId == user && !Slotted(roster)[i].isBot;
    }
  }

  lemma {:induction false} RaceOfSomeone(players: PlayerTable, session: Id, roster: seq<Player>, id: Id)
    requires IsRoster(players, session, roster)
    ensures id in HumanRaceIds(roster) <==>
            exists k :: Seated(players, session, k) && !players[k].isBot && players[k].raceId == id
  {
    hide HumanRaceIds;
    if id in HumanRaceIds(roster) {
      var i := RaceIdOf(roster, id);
      assert Seated(players, session, roster[i].id);
    }
    if k :| Seated(players, session, k) && !players[k].isBot && players[k].raceId == id {
      var i :| 0 <= i < |roster| && roster[i].id == k;
      RaceIdIn(roster, i);
    }
  }

  lemma {:induction false} ValidRows(env: Env, db: Database, session: Id, a: Answers)
    requires AnswersOk(db, session, a)
    ensures AllValid(env, JoinedByOwner(Slotted(a.roster), a.races)) <==> EveryRaceValid(env, db, session)
  {
    hide AnswersOk, JoinedByOwner, Decode, Brought;
    var joined := JoinedByOwner(Slotted(a.roster), a.races);
    forall race
      ensures race in joined <==> Brought(db, session, race)
    {
      BroughtIsJoined(db, session, a, race);
    }
    assert AllValid(env, joined) <==> forall race :: race in joined ==> ValidRace(env, race);
  }

  /** What phase 1 commits: the session is "starting", its players are listed by slot without gaps,
      and nothing else in any table changes. */
  ghost predicate StartingOf(before: Database, after: Database, session: Id, players: seq<Player>) {
    && session in before.sessions
    && Entry(after.sessions, session) == Some(before.sessions[session].(state := Starting))
    && (forall o :: o != session ==> SameSession(before, after, o))
    && after == before.(sessions := after.sessions, players := after.players)
    && after.players.Keys == before.players.Keys
    && (forall k :: k in before.players ==>
          after.players[k] == before.players[k].(order := after.players[k].order))
    && IsRoster(after.players, session, players)
    && (forall i :: 0 <= i < |players| ==> players[i].order == i)
  }

  /** What phase 1 hands on: the committed row and players, the races of the players, and the rules
      of the session. */
  ghost predicate HandsOn(before: Database, after: Database, session: Id, gen: Generation) {
    && gen.session == session && Entry(after.sessions, session) == Some(gen.snapshot)
    && (forall race :: race in gen.races <==> Brought(before, session, race))
    && (exists r :: IsRulesetOf(before.rulesets, session, r) && before.rulesets[r].rules == gen.rules)
    && (forall i :: 0 <= i < |gen.players| ==> gen.players[i].ready)
  }

  lemma {:induction false} BegunTables(env: Env, db: Database, principal: Principal, session: Id, a: Answers)
    requires AnswersOk(db, session, a) && BeginStart(env, db, principal, session, a).Ok?
    ensures var Begun(after, gen) := BeginStart(env, db, principal, session, a).value;
            StartingOf(db, after, session, gen.players) && HandsOn(db, after, session, gen)
  {
    hide AfterSteps, SlotsFit, AllValid, JoinedByOwner, Brought, IsSelection, IsRoster;
    var Begun(after, gen) := BeginStart(env, db, principal, session, a).value;
    NormalisedIsRoster(db.players, session, a.roster);
    OnlySeatsMove(db.players, session, a.roster);
    forall race
      ensures race in gen.races <==> Brought(db, session, race)
    {
      BroughtIsJoined(db, session, a, race);
    }
  }

  lemma {:induction false} OnlySeatsMove(players: PlayerTable, session: Id, roster: seq<Player>)
    requires IsRoster(players, session, roster)
    ensures var after := AfterSteps(players, roster, |roster|);
            && after.Keys == players.Keys
            && (forall k :: k in players ==> after[k] == players[k].(order := after[k].order))
            && (forall k :: k in players && players[k].sessionId != session ==> after[k] == players[k])
  {
    hide AfterSteps;
    forall k
      ensures var after := AfterSteps(players, roster, |roster|);
              && (k in after <==> k in players)
              && (k in players ==> after[k] == players[k].(order := after[k].order))
              && (k in players && players[k].sessionId != session ==> after[k] == players[k])
    {
      OnlySlotsChange(players, roster, |roster|, k);
    }
  }

  // ---- Phase 2

  /** The input of stars.exe can be prepared: every bot has a level, every human a race file. */
  predicate Generable(gen: Generation) {
    Levelled(gen.players) && RaceFilesOf(Humans(gen.players), gen.races).Ok?
  }

  /** What stars.exe makes a new game from: the definition, and a directory with the race files. */
  datatype NewGameInput = NewGameInput(session: Id, name: string, rules: Rules, lines: seq<RaceLine>, dir: Dir)

  function InputOf(env: Env, gen: Generation, dir: Dir): Option<NewGameInput> {
    if !Generable(gen) then None
    else
      var files := RaceFilesOf(Humans(gen.players), gen.races).value;
      Some(NewGameInput(gen.session, gen.snapshot.name, gen.rules, LinesOf(gen.players),
                        WithRaceFiles(dir, files, |files|, env.process)))
  }

  /** What is stored of the directory that stars.exe leaves behind. */
  function NewFiles(env: Env, players: seq<Player>, dir: Dir): Option<SessionFiles> {
    match TurnFilesOf(dir, players)
    case None => None
    case Some(g) => Hydrated(g, env.yearOf)
  }

  /** Phase 2: `dir` is the directory of the session before it, and `stars` what stars.exe makes of its
      input, none when it fails. */
  function Generated(env: Env, gen: Generation, dir: Dir, stars: NewGameInput -> Option<Dir>): Option<SessionFiles> {
    match InputOf(env, gen, dir)
    case None => None
    case Some(input) => match stars(input) case None => None case Some(after) => NewFiles(env, gen.players, after)
  }

  // ---- Phase 3

  predicate FilesAccepted(db: Database, session: Id, files: SessionFiles) {
    session in db.sessions && FileKey(session, files.year) !in db.files && files.year >= FIRST_YEAR
  }

  /** Inserts the files and writes the whole row as it was in phase 1, but "started". */
  function SaveStart(db: Database, gen: Generation, files: SessionFiles): Outcome {
    if !FilesAccepted(db, gen.session, files) then Err(Failed)
    else Ok(db.(files := db.files[FileKey(gen.session, files.year) := files],
                sessions := db.sessions[gen.session := gen.snapshot.(state := Started)]))
  }

  /** The compensating transaction: re-reads the row and sets it to "pending", whatever it was. */
  function RevertStart(db: Database, session: Id): Database {
    if session !in db.sessions then db
    else db.(sessions := db.sessions[session := db.sessions[session].(state := Pending)])
  }

  /** When phase 3 commits and what it writes, in terms of the tables. */
  lemma SavesIff(db: Database, gen: Generation, files: SessionFiles)
    ensures var outcome, key := SaveStart(db, gen, files), FileKey(gen.session, files.year);
            && (outcome.Ok? <==> gen.session in db.sessions && key !in db.files && files.year >= 2400)
            && (outcome.Err? ==> outcome.error == Failed)
            && (outcome.Ok? ==>
                  && (forall k :: Entry(outcome.value.files, k) == if k == key then Some(files) else Entry(db.files, k))
                  && Entry(outcome.value.sessions, gen.session) == Some(gen.snapshot.(state := Started))
                  && (forall o :: o != gen.session ==> SameSession(db, outcome.value, o))
                  && outcome.value == db.(files := outcome.value.files, sessions := outcome.value.sessions))
  {
  }

  /** The compensation touches the state of its own session and nothing else. */
  lemma RevertsOneState(db: Database, session: Id)
    ensures var after := RevertStart(db, session);
            && Entry(after.sessions, session) ==
               (if session in db.sessions then Some(db.sessions[session].(state := Pending)) else None)
            && (forall o :: o != session ==> SameSession(db, after, o))
            && after == db.(sessions := after.sessions)
  {
  }

  class GameCreateHandler {
    const store: Store
    const env: Env

    constructor (store: Store, env: Env)
      ensures this.store == store && this.env == env
    {
      this.store, this.env := store, env;
    }

    method Begin(principal: Principal, session: Id, a: Answers) returns (r: Result<Generation, Error>)
      requires AnswersOk(store.db, session, a)
      modifies store
      ensures var begun := BeginStart(env, old(store.db), principal, session, a);
              && store.db == (if begun.Ok? then begun.value.db else old(store.db))
              && r == (if begun.Ok? then Ok(begun.value.gen) else Err(begun.error))
      ensures r.Ok? ==>
                && EveryoneReady(old(store.db), session)
                && StartingOf(old(store.db), store.db, session, r.value.players)
                && HandsOn(old(store.db), store.db, session, r.value)
    {
      hide StartingOf, HandsOn, EveryoneReady, EveryRaceValid;
      hide IsRoster, IsSelection, SlotsFit, AfterSteps, JoinedByOwner, Decode;
      if !IsAuthorizedManager(store.db, principal, session) {
        return Err(Forbidden);
      }
      var tx := store.db;
      if session !in tx.sessions {
        return Err(NotFound);
      }
      var sessionDB := tx.sessions[session];
      if sessionDB.state != Pending {
        return Err(Invalid);
      }
      var players := new Player[|a.roster|](i requires 0 <= i < |a.roster| => a.roster[i]);
      assert players[..] == a.roster;
      var table := new PlayerRows(tx.players);
      var normalized := table.NormalizePlayerOrders(players);
      if !normalized {
        return Err(Failed);
      }
      var sprs, normalizedRows := players[..], table.rows;
      for i := 0 to |sprs|
        invariant forall j :: 0 <= j < i ==> sprs[j].ready
      {
        if !sprs[i].ready {
          return Err(PreconditionFailed);
        }
      }
      if a.ruleset.None? {
        return Err(Failed);
      }
      SameRaceIds(a.roster);
      var races := PlayerRaces(sprs, tx.races, a.races);
      var faults := 0;
      for i := 0 to |races|
        invariant faults >= 0 && store.db == tx
        invariant faults == 0 <==> forall j :: 0 <= j < i ==> ValidRace(env, races[j])
      {
        var raw := B64Decode(races[i].data);
        if raw.None? || !env.validRace(raw.value) {
          faults := faults + 1;
        }
      }
      if faults > 0 {
        return Err(Invalid);
      }
      BegunTables(env, tx, principal, session, a);
      BeginsIff(env, tx, principal, session, a);
      sessionDB := sessionDB.(state := Starting);
      store.db := tx.(players := normalizedRows, sessions := tx.sessions[session := sessionDB]);
      r := Ok(Generation(session, sessionDB, sprs, races, tx.rulesets[a.ruleset.value].rules));
    }

    method Generate(gen: Generation, dir: Dir, stars: NewGameInput -> Option<Dir>) returns (r: Option<SessionFiles>)
      ensures r == Generated(env, gen, dir, stars)
    {
      hide RaceFilesOf, TurnFilesOf, Hydrated, LinesOf;
      var lines := ComputeRaces(gen.players);
      if lines.None? {
        return None;
      }
      var raceFiles := NewRaceFiles(gen.players, gen.races);
      if raceFiles.Err? {
        return None;
      }
      var ready := SaveRaceFilesToSessionDir(dir, raceFiles.value, env.process);
      var after := stars(NewGameInput(gen.session, gen.snapshot.name, gen.rules, lines.value, ready));
      if after.None? {
        return None;
      }
      var gameFiles := GameFilesForTurn(after.value, gen.players);
      if gameFiles.None? {
        return None;
      }
      r := HydrateSessionFiles(gameFiles.value, env.yearOf);
    }

    method Save(gen: Generation, files: SessionFiles) returns (error: Option<Error>)
      modifies store
      ensures var outcome := SaveStart(old(store.db), gen, files);
              && store.db == Committed(old(store.db), outcome)
              && error == if outcome.Ok? then None else Some(outcome.error)
    {
      var tx := store.db;
      if !FilesAccepted(tx, gen.session, files) {
        return Some(Failed);
      }
      tx := tx.(files := tx.files[FileKey(gen.session, files.year) := files]);
      var sessionDB := gen.snapshot.(state := Started);
      tx := tx.(sessions := tx.sessions[gen.session := sessionDB]);
      store.db := tx;
      error := None;
    }

    method RevertSessionState(session: Id)
      modifies store
      ensures store.db == RevertStart(old(store.db), session)
    {
      if session !in store.db.sessions {
        return;
      }
      var sessionDB := store.db.sessions[session];
      sessionDB := sessionDB.(state := Pending);
      store.db := store.db.(sessions := store.db.sessions[session := sessionDB]);
    }

    /** The whole request when nothing comes in between: either the game is started and its first
        turn returned, or everything is as before, except that slots may have been normalised. The
        turn of the requester is always in range. */
    method Handle(principal: Principal, session: Id, a: Answers, dir: Dir, stars: NewGameInput -> Option<Dir>)
      returns (r: Result<PlayerFiles, Error>)
      requires AnswersOk(store.db, session, a)
      modifies store
      ensures r.Ok? <==>
                && BeginStart(env, old(store.db), principal, session, a).Ok?
                && var Begun(begun, gen) := BeginStart(env, old(store.db), principal, session, a).value;
                   && Generated(env, gen, dir, stars).Some?
                   && SaveStart(begun, gen, Generated(env, gen, dir, stars).value).Ok?
      ensures r.Err? ==>
                || store.db == old(store.db)
                || store.db == old(store.db).(players := AfterSteps(old(store.db).players, a.roster, |a.roster|))
      ensures r.Ok? ==>
                && var Begun(begun, gen) := BeginStart(env, old(store.db), principal, session, a).value;
                   && var files := Generated(env, gen, dir, stars).value;
                      && SaveStart(begun, gen, files) == Ok(store.db)
                      && 0 <= SlotOf(gen.players, principal.subject) < |files.turns|
                      && r.value == ToTurnFiles(files, SlotOf(gen.players, principal.subject))
    {
      hide IsRoster, IsSelection, SlotsFit, AfterSteps, JoinedByOwner, ValidRace, InputOf, EveryoneReady, StartingOf,
        HandsOn;
      ghost var before := store.db;
      var begun := Begin(principal, session, a);
      if begun.Err? {
        return Err(begun.error);
      }
      var gen := begun.value;
      RevertUndoes(env, before, principal, session, a);
      var files := Generate(gen, dir, stars);
      if files.None? {
        RevertSessionState(session);
        return Err(Failed);
      }
      var error := Save(gen, files.value);
      if error.Some? {
        RevertSessionState(session);
        return Err(error.value);
      }
      var playerOrder := FindPlayerOrder(gen.players, principal.subject);
      SlotInRange(gen.players, principal.subject);
      r := Ok(ToTurnFiles(files.value, playerOrder));
    }
  }

  lemma {:induction false} SameRaceIds(players: seq<Player>)
    ensures HumanRaceIds(Slotted(players)) == HumanRaceIds(players)
  {
    if players != [] {
      var init := players[..|players| - 1];
      SameRaceIds(init);
      assert Slotted(players)[..|players| - 1] == Slotted(init);
    }
  }

  /** A start that is reverted leaves nothing behind but normalised slots. */
  lemma RevertUndoes(env: Env, db: Database, principal: Principal, session: Id, a: Answers)
    requires a.ruleset.Some? ==> IsRulesetOf(db.rulesets, session, a.ruleset.value)
    requires BeginStart(env, db, principal, session, a).Ok?
    ensures RevertStart(BeginStart(env, db, principal, session, a).value.db, session) ==
            db.(players := AfterSteps(db.players, a.roster, |a.roster|))
  {
    hide SlotsFit, AfterSteps, JoinedByOwner, AllValid;
    var reverted := RevertStart(BeginStart(env, db, principal, session, a).value.db, session);
    assert reverted.sessions == db.sessions;
  }

  lemma {:induction false} SlotInRange(players: seq<Player>, user: Id)
    requires forall i :: 0 <= i < |players| ==> players[i].order >= 0
    ensures 0 <= SlotOf(players, user) <= MaxOrder(players)
  {
    if i :| 0 <= i < |players| && SlotOf(players, user) == players[i].order {
    } else {
      SlotIsSomeones(players, user);
    }
  }

  lemma {:induction false} SlotIsSomeones(players: seq<Player>, user: Id)
    ensures SlotOf(players, user) == 0 || exists i :: 0 <= i < |players| && SlotOf(players, user) == players[i].order
  {
    if players != [] && players[0].userId != user {
      SlotIsSomeones(players[1..], user);
      if i :| 0 <= i < |players| - 1 && SlotOf(players, user) == players[1..][i].order {
        assert players[i + 1] == players[1..][i];
      }
    }
  }

  // ---- Files made for a new year

  /** Files made by the server carry the year of their own host file and can be read back. */
  ghost predicate Readable(env: Env, files: SessionFiles) {
    && FromSessionFiles(files).Some?
    && env.yearOf(FromSessionFiles(files).value.hostFile) == Some(files.year)
  }

  /** Every part that is stored for a new year is what the directory holds, under the year of its host
      file, each player's turn in their slot, and no orders yet. */
  lemma NewFilesAreReadable(env: Env, players: seq<Player>, dir: Dir)
    requires NewFiles(env, players, dir).Some?
    ensures var files := NewFiles(env, players, dir).value;
            && Readable(env, files) && files.orders == []
            && UniverseFile in dir && Decode(files.universe) == Some(dir[UniverseFile])
            && HostFile in dir && Decode(files.hostFile) == Some(dir[HostFile])
            && env.yearOf(dir[HostFile]) == Some(files.year)
            && FromSessionFiles(files).value.hostFile == dir[HostFile]
            && (forall i :: 0 <= i < |players| ==>
                  && 0 <= players[i].order < |files.turns|
                  && TurnFile(players[i].order + 1) in dir
                  && Decode(files.turns[players[i].order]) == Some(dir[TurnFile(players[i].order + 1)]))
  {
    hide FromSessionFiles, TurnsOf, AllWritten, Decode, Encode;
    var g := TurnFilesOf(dir, players).value;
    StoreThenLoad(g, env.yearOf);
    TurnsBySlot(dir, players);
    DecodeEncode(g.universe);
    DecodeEncode(g.hostFile);
    forall i | 0 <= i < |g.turns|
      ensures Decode(Encode(g.turns[i])) == Some(g.turns[i])
    {
      DecodeEncode(g.turns[i]);
    }
  }

  lemma NewFilesAreNew(env: Env, players: seq<Player>, dir: Dir)
    requires NewFiles(env, players, dir).Some?
    ensures Readable(env, NewFiles(env, players, dir).value) && NewFiles(env, players, dir).value.orders == []
  {
    hide NewFiles, Readable, Decode;
    NewFilesAreReadable(env, players, dir);
  }

  /** Files are stored for a new year exactly when the directory is complete and its host file has a
      year. */
  lemma NewFilesIff(env: Env, players: seq<Player>, dir: Dir)
    ensures NewFiles(env, players, dir).Some? <==>
            && UniverseFile in dir && HostFile in dir && env.yearOf(dir[HostFile]).Some?
            && forall i :: 0 <= i < |players| ==> players[i].order >= 0 && TurnFile(players[i].order + 1) in dir
  {
  }

  /** Under the roster invariant every start that gets past phase 1 can be prepared: no bot is
      without a level, and no human's race is missing or unreadable. */
  lemma BegunIsGenerable(env: Env, db: Database, principal: Principal, session: Id, a: Answers)
    requires RosterOk(db.players, db.races) && AnswersOk(db, session, a)
    requires BeginStart(env, db, principal, session, a).Ok?
    ensures Generable(BeginStart(env, db, principal, session, a).value.gen)
  {
    hide AfterSteps, SlotsFit, IsSelection, IsRoster, RosterOk, JoinedByOwner, RaceFilesOf, AnswersOk, Fielded;
    SelectionOf(db, session, a);
    var gen := BeginStart(env, db, principal, session, a).value.gen;
    RosterHasOneRaceEach(db, session, a.roster);
    SameRaceIds(a.roster);
    EachPlaysTheirOwnRace(gen.players, db.races, a.races);
    AllFilesFound(Humans(gen.players), gen.races);
    AllRacesDecode(env, gen.players, gen.races);
    forall i | 0 <= i < |gen.players| && gen.players[i].isBot
      ensures gen.players[i].botLevel.Some?
    {
      BotHasLevel(db, session, a.roster, i);
    }
  }

  /** What stars.exe is given for a new game: the session's name and rules, and a line for each player
      of the roster that phase 1 left, by slot; a bot's line has its race and level, and that of a human
      names a file with that human's own race. */
  ghost predicate IsInputFor(env: Env, db: Database, gen: Generation, input: NewGameInput) {
    && input.session == gen.session && input.name == gen.snapshot.name && input.rules == gen.rules
    && |input.lines| == |gen.players|
    && (forall i :: 0 <= i < |gen.players| && gen.players[i].isBot ==>
          && gen.players[i].botLevel.Some?
          && input.lines[i] == BotLine(gen.players[i].raceId, gen.players[i].botLevel.value))
    && (forall i :: 0 <= i < |gen.players| && !gen.players[i].isBot ==>
          NamesOwnRace(input.dir, input.lines[i], gen.players[i], db.races, env.process))
  }

  lemma BegunInput(env: Env, db: Database, principal: Principal, session: Id, a: Answers)
    requires RosterOk(db.players, db.races) && AnswersOk(db, session, a)
    requires BeginStart(env, db, principal, session, a).Ok?
    ensures var gen := BeginStart(env, db, principal, session, a).value.gen;
            && InputOf(env, gen, map[]).Some?
            && IsInputFor(env, db, gen, InputOf(env, gen, map[]).value)
  {
    hide AfterSteps, SlotsFit, IsSelection, IsRoster, RosterOk, JoinedByOwner, RaceFilesOf, AnswersOk, AllValid,
      WithRaceFiles, NamesOwnRace, OneRaceEach, HumanRaceIds;
    BegunIsGenerable(env, db, principal, session, a);
    SelectionOf(db, session, a);
    var gen := BeginStart(env, db, principal, session, a).value.gen;
    RosterHasOneRaceEach(db, session, a.roster);
    SameRaceIds(a.roster);
    var input := InputOf(env, gen, map[]).value;
    forall i | 0 <= i < |gen.players| && !gen.players[i].isBot
      ensures NamesOwnRace(input.dir, input.lines[i], gen.players[i], db.races, env.process)
    {
      LineNamesOwnRace(gen.players, db.races, a.races, env.process, i);
    }
  }

  /** So the files of a new game are what stars.exe made of that input. */
  lemma GamesAreMadeFromInput(
      env: Env, db: Database, principal: Principal, session: Id, a: Answers, stars: NewGameInput -> Option<Dir>)
    returns (input: NewGameInput)
    requires RosterOk(db.players, db.races) && AnswersOk(db, session, a)
    requires BeginStart(env, db, principal, session, a).Ok?
    ensures var gen := BeginStart(env, db, principal, session, a).value.gen;
            && IsInputFor(env, db, gen, input)
            && Generated(env, gen, map[], stars) ==
               if stars(input).Some? then NewFiles(env, gen.players, stars(input).value) else None
  {
    hide InputOf, IsInputFor, NewFiles, BeginStart, RosterOk, AnswersOk;
    SelectionOf(db, session, a);
    BegunInput(env, db, principal, session, a);
    input := InputOf(env, BeginStart(env, db, principal, session, a).value.gen, map[]).value;
  }

  lemma SelectionOf(db: Database, session: Id, a: Answers)
    requires AnswersOk(db, session, a)
    ensures IsSelection(db.races, HumanRaceIds(a.roster), a.races) && IsRoster(db.players, session, a.roster)
    ensures a.ruleset.Some? ==> IsRulesetOf(db.rulesets, session, a.ruleset.value)
  {
  }

  lemma RosterHasOneRaceEach(db: Database, session: Id, rows: seq<Player>)
    requires RosterOk(db.players, db.races) && IsRoster(db.players, session, rows)
    ensures OneRaceEach(Slotted(rows), db.races)
  {
    var players := Slotted(rows);
    forall i | 0 <= i < |rows|
      ensures Fielded(db.races, players[i])
    {
      assert Fielded(db.races, db.players[rows[i].id]);
    }
    forall i, j | 0 <= i < j < |rows| && !players[i].isBot && !players[j].isBot
      ensures players[i].userId != players[j].userId
    {
      assert Apart(db.players[rows[i].id], db.players[rows[j].id]);
    }
  }

  lemma BotHasLevel(db: Database, session: Id, rows: seq<Player>, i: nat)
    requires RosterOk(db.players, db.races) && IsRoster(db.players, session, rows)
    requires i < |rows| && rows[i].isBot
    ensures rows[i].botLevel.Some?
  {
    assert Fielded(db.races, db.players[rows[i].id]);
  }

  lemma {:induction false} AllRacesDecode(env: Env, players: seq<Player>, races: seq<Race>)
    requires AllValid(env, races) && RaceFilesOf(Humans(players), races) != Err(RaceNotFound)
    ensures RaceFilesOf(Humans(players), races).Ok?
  {
    NoUndecodable(env, Humans(players), races);
    var files := RaceFilesOf(Humans(players), races);
    assert files.Err? ==> files.error == RaceNotFound || files.error == UndecodableRace;
  }

  lemma {:induction false} NoUndecodable(env: Env, humans: seq<Player>, races: seq<Race>)
    requires AllValid(env, races)
    ensures RaceFilesOf(humans, races) != Err(UndecodableRace)
  {
    hide Decode;
    if humans != [] {
      NoUndecodable(env, humans[..|humans| - 1], races);
      assert forall r :: r in races ==> ValidRace(env, r);
    }
  }
}

/** A run of the protocol: a game of a human and a bot, from nothing to its first turn. */
module Scenario {
  import opened Common
  import Base64
  import opened Relations
  import opened GameFiles
  import opened Database
  import opened Roster
  import opened Slots
  import opened NewGame
  import opened Sessions
  import opened GameStart
  import opened Turns
  import opened Protocol
  import opened Safety

  /** The ids and contents of a small game: a human with a race of their own, and a bot. */
  datatype Cast = Cast(
    user: Id, session: Id, ruleset: Id, rules: Rules, raceId: Id, raceBytes: Bytes, human: Id, bot: Id, level: int)

  /** The human's user and the predefined races are known, and the two new ids are two. */
  ghost predicate Possible(env: Env, init: World, c: Cast) {
    && Init(init) && c.user in init.db.users && SYSTEM_USER in init.db.users
    && "0" in init.db.races && c.raceId !in init.db.races
    && env.validRace(c.raceBytes) && c.human != c.bot && c.level <= MAX_BOT_LEVEL
  }

  function Player0(c: Cast, ready: bool): Player {
    Player(c.human, c.session, c.user, c.raceId, false, None, 0, ready)
  }

  function Player1(c: Cast): Player {
    Player(c.bot, c.session, SYSTEM_USER, "0", true, Some(c.level), 1, true)
  }

  function OwnRace(c: Cast): Race {
    Race(c.raceId, c.user, Base64.Encode(c.raceBytes))
  }

  function TheManager(c: Cast): Principal {
    Principal(c.user, false, false)
  }

  function TheAnswers(c: Cast): Answers {
    Answers([Player0(c, true), Player1(c)], Some(c.ruleset), [OwnRace(c)])
  }

  /** Before the start: the session is pending with its rules, and its players are these. */
  ghost predicate Prepared(w: World, c: Cast, players: PlayerTable) {
    && w.db.sessions == map[c.session := SessionRow("", true, Pending, true, Some(c.ruleset))]
    && w.db.rulesets == map[c.ruleset := RulesetRow(c.session, Clamped(c.rules))]
    && w.db.files == map[] && w.db.players == players && w.starts == map[]
    && IsManager(w.db, c.user, c.session) && c.user in w.db.users && SYSTEM_USER in w.db.users
    && "0" in w.db.races && c.raceId != "0"
  }

  /** The directory that stars.exe leaves behind for two players in some year. */
  ghost predicate Complete(env: Env, dir: Dir, year: int) {
    && UniverseFile in dir && HostFile in dir && TurnFile(1) in dir && TurnFile(2) in dir
    && env.yearOf(dir[HostFile]) == Some(year)
  }

  /** The game of the two is started: their turns are stored for the first year, which is announced,
      and its universe was made from the rules that were set. */
  ghost predicate IsPlayed(v: World, c: Cast, dir: Dir) {
    && c.session in v.db.sessions && v.db.sessions[c.session].state == Started
    && v.db.players == map[c.human := Player0(c, true), c.bot := Player1(c)]
    && var key := FileKey(c.session, FIRST_YEAR);
       && v.db.files.Keys == {key} && key in v.announced && v.db.files[key].orders == []
       && TurnFile(1) in dir && TurnFile(2) in dir
       && v.db.files[key].turns == [Base64.Encode(dir[TurnFile(1)]), Base64.Encode(dir[TurnFile(2)])]
       && c.session in v.origins && v.origins[c.session] == Clamped(c.rules)
  }

  /** Any user can create a session, set its rules, upload a race, register and become ready, add a
      bot, and start the game of the two: the steps are enabled and lead to a started session with
      the turns of both players stored for the first year, generated from those rules. */
  lemma AGameCanStart(env: Env, init: World, c: Cast, dir: Dir) returns (steps: seq<Step>, v: World)
    requires Possible(env, init, c) && Complete(env, dir, 2400)
    ensures Run(env, init, steps) == Some(v) && IsPlayed(v, c, dir)
  {
    hide Possible, Prepared, NextDb, NextStart, Run;
    var w;
    steps, w := AGameCanBegin(env, init, c);
    ProduceIsEnabled(env, w, c, dir);
    steps, w := ExtendRun(env, init, steps, w, Produce(0, dir));
    SaveIsEnabled(env, w);
    steps, v := ExtendRun(env, init, steps, w, Save(0));
  }

  /** ... up to the end of phase 1. */
  lemma AGameCanBegin(env: Env, init: World, c: Cast) returns (steps: seq<Step>, v: World)
    requires Possible(env, init, c)
    ensures Run(env, init, steps) == Some(v)
    ensures v.db.players == map[c.human := Player0(c, true), c.bot := Player1(c)] && v.db.files == map[]
    ensures c.session in v.db.sessions && 0 in v.starts && v.starts[0] == TheStart(c)
  {
    hide Possible, Prepared, NextDb, NextStart, Run;
    var p, w := TheManager(c), init;
    steps, w := AGameCanBePrepared(env, init, c);
    RegisterIsEnabled(w, c);
    steps, w := ExtendRun(
      env, init, steps, w, Register(p, c.session, Registration("", c.raceId, false, None, false), c.human, None));
    ReadyIsEnabled(w, c);
    steps, w := ExtendRun(env, init, steps, w, SetReady(c.human, true));
    BotIsEnabled(env, init, w, c);
    steps, w := ExtendRun(
      env, init, steps, w, Register(p, c.session, Registration("", "0", true, Some(c.level), false), c.bot, Some(0)));
    BeginIsEnabled(env, init, w, c);
    steps, v := ExtendRun(env, init, steps, w, Begin(0, p, c.session, TheAnswers(c)));
  }

  function TheStart(c: Cast): Start {
    var starting := SessionRow("", true, Starting, true, Some(c.ruleset));
    Start(Generation(c.session, starting, [Player0(c, true), Player1(c)], [OwnRace(c)], Clamped(c.rules)), Generating)
  }

  /** ... up to the rules and the race. */
  lemma AGameCanBePrepared(env: Env, init: World, c: Cast) returns (steps: seq<Step>, w: World)
    requires Possible(env, init, c)
    ensures Run(env, init, steps) == Some(w)
    ensures Prepared(w, c, map[]) && c.raceId in w.db.races && w.db.races[c.raceId] == OwnRace(c)
  {
    hide Init, NextDb, Run;
    var p := TheManager(c);
    w := init;
    NothingRun(env, init);
    CreateIsEnabled(init, c.user, c.session);
    steps, w := ExtendRun(env, init, [], w, CreateSession(c.session, "", true, false, [Target(c.user, true)]));
    RulesAreEnabled(w, p, c.session, c.rules, c.ruleset);
    steps, w := ExtendRun(env, init, steps, w, PutRules(p, c.session, c.rules, None, c.ruleset, true));
    RaceIsEnabled(w, c);
    steps, w := ExtendRun(env, init, steps, w, AddRace(p, c.raceId, Base64.Encode(c.raceBytes), true));
  }

  /** A start that crashes in phase 2 leaves an orphan. */
  lemma AnOrphanIsReachable(env: Env, init: World, c: Cast) returns (steps: seq<Step>, v: World)
    requires Possible(env, init, c)
    ensures Run(env, init, steps) == Some(v) && Orphan(v, c.session)
  {
    hide Run, Possible, Orphan, Inv, Next;
    var w;
    steps, w := AGameCanBegin(env, init, c);
    PossibleStarts(env, init, c);
    Reachable(env, init, steps);
    CrashOrphans(env, w, 0);
    steps, v := ExtendRun(env, init, steps, w, Crash(0));
  }

  lemma PossibleStarts(env: Env, init: World, c: Cast)
    requires Possible(env, init, c)
    ensures Init(init) && c.human != c.bot
  {
  }

  /** A pending session with a manager and nothing else. */
  ghost predicate Fresh(w: World, user: Id, session: Id) {
    && w.db.sessions == map[session := SessionRow("", true, Pending, false, None)]
    && w.db.rulesets == map[] && w.db.files == map[] && w.db.players == map[]
    && IsManager(w.db, user, session) && w.starts == map[]
  }

  lemma CreateIsEnabled(w: World, user: Id, session: Id)
    requires Init(w) && user in w.db.users
    ensures var next := NextDb(w, CreateSession(session, "", true, false, [Target(user, true)]));
            && next.Some? && Fresh(next.value, user, session)
            && next.value.db.users == w.db.users && next.value.db.races == w.db.races
  {
    var list := [Target(user, true)];
    hide Replaced;
    var v := NextDb(w, CreateSession(session, "", true, false, list)).value;
    assert list[0].id == user;
    assert Entry(v.db.members, RelKey(user, session)) == Given(list, user) == Some(true);
  }

  lemma RulesAreEnabled(w: World, p: Principal, session: Id, rules: Rules, ruleset: Id)
    requires Fresh(w, p.subject, session)
    ensures var next := NextDb(w, PutRules(p, session, rules, None, ruleset, true));
            && next.Some? && next.value.starts == map[] && IsManager(next.value.db, p.subject, session)
            && next.value.db.sessions == map[session := SessionRow("", true, Pending, true, Some(ruleset))]
            && next.value.db.rulesets == map[ruleset := RulesetRow(session, Clamped(rules))]
            && next.value.db.files == map[] && next.value.db.players == map[]
            && next.value.db.users == w.db.users && next.value.db.races == w.db.races
  {
    hide Clamped;
  }

  lemma RaceIsEnabled(w: World, c: Cast)
    requires Prepared(w, c, map[]) && c.raceId !in w.db.races
    ensures var next := NextDb(w, AddRace(TheManager(c), c.raceId, Base64.Encode(c.raceBytes), true));
            && next.Some? && Prepared(next.value, c, map[])
            && c.raceId in next.value.db.races && next.value.db.races[c.raceId] == OwnRace(c)
  {
    hide Base64.Encode, Clamped;
  }

  lemma RegisterIsEnabled(w: World, c: Cast)
    requires Prepared(w, c, map[]) && c.raceId in w.db.races && w.db.races[c.raceId] == OwnRace(c)
    ensures var step := Register(
              TheManager(c), c.session, Registration("", c.raceId, false, None, false), c.human, None);
            && NextDb(w, step).Some?
            && Prepared(NextDb(w, step).value, c, map[c.human := Player0(c, false)])
            && NextDb(w, step).value.db.races == w.db.races
  {
    hide Base64.Encode, Clamped;
    assert forall k :: !Seated(w.db.players, c.session, k);
  }

  lemma ReadyIsEnabled(w: World, c: Cast)
    requires Prepared(w, c, map[c.human := Player0(c, false)])
    ensures var next := NextDb(w, SetReady(c.human, true));
            && next.Some? && Prepared(next.value, c, map[c.human := Player0(c, true)])
            && next.value.db.races == w.db.races
  {
    hide Clamped;
  }

  lemma BotIsEnabled(env: Env, init: World, w: World, c: Cast)
    requires Prepared(w, c, map[c.human := Player0(c, true)]) && Possible(env, init, c)
    ensures var step := Register(
              TheManager(c), c.session, Registration("", "0", true, Some(c.level), false), c.bot, Some(0));
            && NextDb(w, step).Some?
            && Prepared(NextDb(w, step).value, c, map[c.human := Player0(c, true), c.bot := Player1(c)])
            && NextDb(w, step).value.db.races == w.db.races
  {
    TheBotRegisters(env, init, w, c);
    hide Registered, IsMaxOrder, Clamped, Possible;
  }

  lemma TheBotRegisters(env: Env, init: World, w: World, c: Cast)
    requires Prepared(w, c, map[c.human := Player0(c, true)]) && Possible(env, init, c)
    ensures IsMaxOrder(w.db.players, c.session, Some(0))
    ensures Registered(w.db, TheManager(c), c.session, Registration("", "0", true, Some(c.level), false), c.bot, 1) ==
            Ok(Player1(c))
  {
    hide Clamped, Init;
    assert Seated(w.db.players, c.session, c.human);
  }

  lemma BeginIsEnabled(env: Env, init: World, w: World, c: Cast)
    requires Prepared(w, c, map[c.human := Player0(c, true), c.bot := Player1(c)]) && Possible(env, init, c)
    requires c.raceId in w.db.races && w.db.races[c.raceId] == OwnRace(c)
    ensures var next := NextStart(env, w, Begin(0, TheManager(c), c.session, TheAnswers(c)));
            && next.Some? && 0 in next.value.starts && next.value.starts[0] == TheStart(c)
            && next.value.db.files == map[]
            && next.value.db.players == map[c.human := Player0(c, true), c.bot := Player1(c)]
            && c.session in next.value.db.sessions
  {
    TheAnswersAreRight(w.db, c);
    TheGameBegins(env, init, w, c);
    hide BeginStart, AnswersOk, Clamped, Possible, Prepared;
  }

  lemma TheGameBegins(env: Env, init: World, w: World, c: Cast)
    requires Prepared(w, c, map[c.human := Player0(c, true), c.bot := Player1(c)]) && Possible(env, init, c)
    requires c.raceId in w.db.races && w.db.races[c.raceId] == OwnRace(c)
    ensures w.starts == map[] && IsRulesetOf(w.db.rulesets, c.session, c.ruleset)
    ensures var db := w.db.(sessions := w.db.sessions[c.session := TheStart(c).gen.snapshot]);
            && BeginStart(env, w.db, TheManager(c), c.session, TheAnswers(c)) == Ok(Begun(db, TheStart(c).gen))
            && db.files == map[] && db.players == map[c.human := Player0(c, true), c.bot := Player1(c)]
  {
    TheRosterIsNormal(w.db, c);
    RaceIsValid(env, c);
    hide AfterSteps, SlotsFit, Slotted, JoinedByOwner, AllReady, ValidRace, Clamped, Init, Base64.Encode;
  }

  lemma RaceIsValid(env: Env, c: Cast)
    requires env.validRace(c.raceBytes)
    ensures ValidRace(env, OwnRace(c))
  {
    Base64.DecodeEncode(c.raceBytes);
    hide Base64.Encode, Base64.Decode;
  }

  lemma TheAnswersAreRight(db: Database, c: Cast)
    requires db.players == map[c.human := Player0(c, true), c.bot := Player1(c)] && c.human != c.bot
    requires c.raceId in db.races && db.races[c.raceId] == OwnRace(c)
    requires IsRulesetOf(db.rulesets, c.session, c.ruleset)
    ensures AnswersOk(db, c.session, TheAnswers(c))
  {
    hide Base64.Encode;
    var rows, h, b := TheAnswers(c).roster, Player0(c, true), Player1(c);
    assert rows[0].id == c.human && rows[1].id == c.bot;
    TwoHumanRaceIds(h, b);
    var races := TheAnswers(c).races;
    assert races[0].id == c.raceId;
  }

  lemma TwoHumanRaceIds(h: Player, b: Player)
    requires !h.isBot && b.isBot
    ensures HumanRaceIds([h, b]) == [h.raceId]
  {
    assert [h, b][..1] == [h] && [h][..0] == [];
    assert HumanRaceIds([h]) == [h.raceId];
  }

  lemma TheRosterIsNormal(db: Database, c: Cast)
    requires db.players == map[c.human := Player0(c, true), c.bot := Player1(c)] && c.human != c.bot
    ensures var rows := TheAnswers(c).roster;
            && Slotted(rows) == rows && SlotsFit(rows, |rows|) && AfterSteps(db.players, rows, |rows|) == db.players
            && JoinedByOwner(rows, [OwnRace(c)]) == [OwnRace(c)] && AllReady(rows)
  {
    hide Base64.Encode, AfterSteps;
    var rows := TheAnswers(c).roster;
    NothingToDo(db.players, rows, |rows|);
    assert rows[..1] == [rows[0]] && rows[..1][..0] == [];
    assert OfOwner([OwnRace(c)], c.user) == [OwnRace(c)] by {
      assert [OwnRace(c)][..0] == [];
    }
    assert JoinedByOwner(rows[..1], [OwnRace(c)]) == [OwnRace(c)];
  }

  lemma ProduceIsEnabled(env: Env, w: World, c: Cast, dir: Dir)
    requires 0 in w.starts && w.starts[0] == TheStart(c)
    requires Complete(env, dir, 2400)
    ensures var next := NextStart(env, w, Produce(0, dir));
            && next.Some? && next.value.db == w.db && 0 in next.value.starts
            && next.value.starts[0].gen == w.starts[0].gen && next.value.starts[0].phase.Produced?
            && next.value.starts[0].phase.files.year == FIRST_YEAR && next.value.starts[0].phase.files.orders == []
            && next.value.starts[0].phase.files.turns ==
               [Base64.Encode(dir[TurnFile(1)]), Base64.Encode(dir[TurnFile(2)])]
  {
    TheStartIsGenerable(c);
    TheFiles(env, c, dir, 2400);
    hide Generable, NewFiles, Base64.Encode;
  }

  lemma TheStartIsGenerable(c: Cast)
    ensures Generable(TheStart(c).gen)
  {
    Base64.DecodeEncode(c.raceBytes);
    hide Base64.Encode, Base64.Decode;
    var h, b := Player0(c, true), Player1(c);
    assert [h, b][..1] == [h] && [h][..0] == [];
    assert Humans([h]) == [h] && Humans([h, b]) == [h];
    assert RaceFilesOf([], [OwnRace(c)]) == Ok([]);
    assert FileOf(h, [OwnRace(c)]).Ok?;
  }

  lemma TheFiles(env: Env, c: Cast, dir: Dir, year: int)
    requires Complete(env, dir, year)
    ensures var files := NewFiles(env, [Player0(c, true), Player1(c)], dir);
            && files.Some? && files.value.year == year && files.value.orders == []
            && files.value.turns == [Base64.Encode(dir[TurnFile(1)]), Base64.Encode(dir[TurnFile(2)])]
  {
    hide Base64.Encode;
    var players := [Player0(c, true), Player1(c)];
    NormalisedHasNoGap(players);
    assert Slotted(players) == players;
    TurnsAreBySlot(dir, players, 0);
    TurnsAreBySlot(dir, players, 1);
    hide TurnsOf, MaxOrder;
    assert |TurnsOf(dir, players, 2)| == 2;
  }

  lemma SaveIsEnabled(env: Env, w: World)
    requires 0 in w.starts && w.starts[0].phase.Produced? && w.starts[0].phase.files.year == FIRST_YEAR
    requires w.starts[0].gen.session in w.db.sessions && w.db.files == map[]
    ensures var next := NextStart(env, w, Save(0));
            var session := w.starts[0].gen.session;
            && next.Some? && session in next.value.db.sessions && next.value.db.sessions[session].state == Started
            && next.value.db.players == w.db.players
            && next.value.db.files.Keys == {FileKey(session, FIRST_YEAR)}
            && next.value.db.files[FileKey(session, FIRST_YEAR)] == w.starts[0].phase.files
            && FileKey(session, FIRST_YEAR) in next.value.announced
            && session in next.value.origins && next.value.origins[session] == w.starts[0].gen.rules
  {
  }

  // ---- One turn later

  lemma {:induction false} FreshToken(used: set<Token>) returns (t: Token)
    ensures forall u :: u in used ==> u < t
    decreases |used|
  {
    if u :| u in used {
      var below := FreshToken(used - {u});
      t := if u < below then below else u + 1;
      assert forall x :: x in used ==> x == u || x in used - {u};
    } else {
      t := 0;
    }
  }

  /** Two years are stored: the first with the human's order, and the second with the new turns of both
      players, which is announced. */
  ghost predicate IsSecondYear(v: World, c: Cast, data: string, dir: Dir) {
    var first, second := FileKey(c.session, 2400), FileKey(c.session, 2401);
    && v.db.files.Keys == {first, second} && v.db.files[first].orders == [data, ""]
    && TurnFile(1) in dir && TurnFile(2) in dir && v.db.files[second].orders == []
    && v.db.files[second].turns == [Base64.Encode(dir[TurnFile(1)]), Base64.Encode(dir[TurnFile(2)])]
    && second in v.announced
  }

  /** And the game goes on: the human can submit orders, and with them the next turn can be generated. */
  lemma ATurnCanFollow(env: Env, init: World, c: Cast, dir: Dir, data: string, later: Dir)
    returns (steps: seq<Step>, v: World)
    requires Possible(env, init, c) && Complete(env, dir, 2400) && Complete(env, later, 2401)
    requires Base64.Decode(data).Some?
    ensures Run(env, init, steps) == Some(v) && IsSecondYear(v, c, data, later)
  {
    hide Possible, NextTurn, Run, Inv, IsPlayed, Ordered, IsSecondYear, Complete;
    var w;
    steps, w := AGameCanStart(env, init, c, dir);
    PossibleStarts(env, init, c);
    SubmitIsEnabled(env, w, c, dir, data);
    steps, w := ExtendRun(env, init, steps, w, Submit(c.session, c.human, 2400, data, true));
    Reachable(env, init, steps);
    var t := FreshToken(w.turns.Keys);
    TakeIsEnabled(env, w, c, dir, data, t);
    var roster := TheAnswers(c).roster;
    steps, w := ExtendRun(env, init, steps, w, TakeTurn(t, c.session, 2400, roster));
    WriteIsEnabled(env, w, c, data, t, later);
    steps, v := ExtendRun(env, init, steps, w, WriteTurn(t, later));
  }

  /** The first year is stored, with the human's order. */
  ghost predicate Ordered(w: World, c: Cast, data: string) {
    && c.session in w.db.sessions && c.human != c.bot
    && w.db.players == map[c.human := Player0(c, true), c.bot := Player1(c)]
    && w.db.files.Keys == {FileKey(c.session, 2400)}
    && w.db.files[FileKey(c.session, 2400)].orders == [data, ""]
  }

  lemma SubmitIsEnabled(env: Env, w: World, c: Cast, dir: Dir, data: string)
    requires IsPlayed(w, c, dir) && c.human != c.bot && Base64.Decode(data).Some?
    ensures var next := NextTurn(env, w, Submit(c.session, c.human, 2400, data, true));
            next.Some? && Ordered(next.value, c, data)
  {
    hide Base64.Encode, Base64.Decode;
    SubmitsIff(w.db, c.session, c.human, 2400, data, true);
    var key := FileKey(c.session, 2400);
    assert IsLastYear(w.db.files, c.session, 2400);
    var f := SubmitOrder(w.db, c.session, c.human, 2400, data, true).value.files[key];
    assert f.orders == [data, ""];
    hide SubmitOrder;
  }

  lemma TakeIsEnabled(env: Env, w: World, c: Cast, dir: Dir, data: string, t: Token)
    requires Inv(env, w) && Ordered(w, c, data) && t !in w.turns
    ensures var next := NextTurn(env, w, TakeTurn(t, c.session, 2400, TheAnswers(c).roster));
            && next.Some? && Ordered(next.value, c, data) && t in next.value.turns
            && next.value.turns[t].job.session == c.session && next.value.turns[t].job.year == 2400
            && next.value.turns[t].job.players == [Player0(c, true), Player1(c)]
            && env.yearOf(next.value.turns[t].job.input.hostFile) == Some(2400)
  {
    hide Inv, FromSessionFiles, Base64.Encode;
    StoredIsReadable(env, w, FileKey(c.session, 2400));
    YearIsKey(env, w, FileKey(c.session, 2400));
    var rows := TheAnswers(c).roster;
    assert IsRoster(w.db.players, c.session, rows) by {
      assert rows[0].id == c.human && rows[1].id == c.bot;
    }
    hide IsRoster;
  }

  lemma YearIsKey(env: Env, w: World, key: FileKey)
    requires Inv(env, w) && key in w.db.files
    ensures w.db.files[key].year == key.year
  {
    hide RosterOk, LinksOk, OriginsOk, StartsOk, TurnsOk, HistoryOk, Readable, HasGame;
    assert FileOk(env, w.db.sessions, w.db.files, key);
  }

  lemma WriteIsEnabled(env: Env, w: World, c: Cast, data: string, t: Token, later: Dir)
    requires Ordered(w, c, data) && t in w.turns && Complete(env, later, 2401)
    requires w.turns[t].job.session == c.session && w.turns[t].job.year == 2400
    requires w.turns[t].job.players == [Player0(c, true), Player1(c)]
    requires env.yearOf(w.turns[t].job.input.hostFile) == Some(2400)
    ensures var next := NextTurn(env, w, WriteTurn(t, later));
            next.Some? && IsSecondYear(next.value, c, data, later)
  {
    TheFiles(env, c, later, 2401);
    hide NewFiles, Base64.Encode;
  }
}

/** Where things come from, over every run: what each step leaves alone, and which earlier step is
    behind a start, a game, a turn and an order. */
module History {
  import opened Common
  import Base64
  import opened Relations
  import opened GameFiles
  import opened Database
  import opened Roster
  import opened Slots
  import opened NewGame
  import opened Sessions
  import opened GameStart
  import opened Turns
  import opened Protocol
  import opened Safety

  // ---- One session at a time

  /** The sessions that a step is about. */
  function About(w: World, step: Step): set<Id> {
    match step
    case Begin(_, _, session, _) => {session}
    case Save(t) => if t in w.starts then {w.starts[t].gen.session} else {}
    case Revert(t) => if t in w.starts then {w.starts[t].gen.session} else {}
    case WriteTurn(t, _) => if t in w.turns then {w.turns[t].job.session} else {}
    case Submit(session, _, _, _, _) => {session}
    case CreateSession(session, _, _, _, _) => {session}
    case Edit(_, _, body) => {body.id}
    case Delete(_, session) => {session}
    case ToArchive(_, session) => {session}
    case PutRules(_, session, _, _, _, _) => {session}
    case ToJoin(_, session, _, _) => {session}
    case ToAccept(_, i) => if i in w.db.invitations then {w.db.invitations[i].sessionId} else {}
    case Invite(_, session, _) => {session}
    case Register(_, session, _, _, _) => {session}
    case RemovePlayers(gone) => set k | k in gone && k in w.db.players :: w.db.players[k].sessionId
    case Normalise(session, _) => {session}
    case SetReady(k, _) => if k in w.db.players then {w.db.players[k].sessionId} else {}
    case _ => {}
  }

  /** No account and no race changes. */
  predicate SameAccounts(a: Database, b: Database) {
    a.users == b.users && a.races == b.races
  }

  lemma SameItself(db: Database, o: Id)
    ensures SameSession(db, db, o)
  {
  }

  lemma {:induction false} StartsKeepOthers(env: Env, w: World, step: Step, o: Id)
    requires step.Begin? || step.Produce? || step.Fail? || step.Save? || step.Revert? || step.Crash?
    requires NextStart(env, w, step).Some? && o !in About(w, step)
    ensures SameSession(w.db, NextStart(env, w, step).value.db, o)
    ensures SameAccounts(w.db, NextStart(env, w, step).value.db)
  {
    hide SameSession, AnswersOk, Generable, NewFiles;
    SameItself(w.db, o);
    if step.Begin? {
      SelectionOf(w.db, step.session, step.answers);
      if BeginStart(env, w.db, step.principal, step.session, step.answers).Ok? {
        BegunTables(env, w.db, step.principal, step.session, step.answers);
      }
      hide BeginStart;
    } else {
      var start := w.starts[step.token];
      RevertsOneState(w.db, start.gen.session);
      if start.phase.Produced? {
        SavesIff(w.db, start.gen, start.phase.files);
      }
      hide SaveStart, RevertStart;
    }
  }

  lemma {:induction false} TurnsKeepOthers(env: Env, w: World, step: Step, o: Id)
    requires step.TakeTurn? || step.WriteTurn? || step.DropTurn? || step.Submit?
    requires NextTurn(env, w, step).Some? && o !in About(w, step)
    ensures SameSession(w.db, NextTurn(env, w, step).value.db, o) && SameAccounts(w.db, NextTurn(env, w, step).value.db)
  {
    hide SameSession, NewFiles, IsRoster, IsLastYear, ReadTurn, SaveTurn, SubmitOrder;
    SameItself(w.db, o);
    if step.WriteTurn? {
      var job := w.turns[step.token].job;
      SavesTurnIff(w.db, job, NewFiles(env, job.players, step.dir).value);
    } else if step.Submit? {
      SubmitsIff(w.db, step.session, step.player, step.year, step.data, step.accepted);
    }
  }

  /** Whatever a step does, it does to the sessions that it is about: every row of every other session
      stays. No account changes, and races come and go by their own steps only. */
  lemma {:induction false} OthersUntouched(env: Env, w: World, step: Step, o: Id)
    requires Inv(env, w) && Next(env, w, step).Some? && o !in About(w, step)
    ensures SameSession(w.db, Next(env, w, step).value.db, o)
    ensures Next(env, w, step).value.db.users == w.db.users
    ensures !step.AddRace? && !step.DropRace? ==> Next(env, w, step).value.db.races == w.db.races
  {
    hide Inv, SameSession, NextStart, NextTurn, NextDb;
    if step.Begin? || step.Produce? || step.Fail? || step.Save? || step.Revert? || step.Crash? {
      StartsKeepOthers(env, w, step, o);
    } else if step.TakeTurn? || step.WriteTurn? || step.DropTurn? || step.Submit? {
      TurnsKeepOthers(env, w, step, o);
    } else if step.CreateSession? || step.Edit? || step.Delete? || step.ToArchive? || step.PutRules? {
      SessionsKeepOthers(w, step, o);
    } else if step.ToJoin? || step.ToAccept? || step.Invite? {
      MembersKeepOthers(w, step, o);
    } else {
      RostersKeepOthers(env, w, step, o);
    }
  }

  lemma {:induction false} SessionsKeepOthers(w: World, step: Step, o: Id)
    requires step.CreateSession? || step.Edit? || step.Delete? || step.ToArchive? || step.PutRules?
    requires NextDb(w, step).Some? && o !in About(w, step)
    ensures SameSession(w.db, NextDb(w, step).value.db, o) && SameAccounts(w.db, NextDb(w, step).value.db)
  {
    hide SameSession, Created, EditSession, WithoutSession, Archive, SetRules, NoTraceOf;
    SameItself(w.db, o);
    match step
    case CreateSession(s, name, isPrivate, rulesIsSet, list) =>
      CreateKeepsOthers(w.db, s, name, isPrivate, rulesIsSet, list, o);
    case Edit(principal, path, body) =>
      if EditSession(w.db, principal, path, body).Ok? {
        OtherSessionKept(w.db, principal, path, body, o);
        SessionIsEdited(w.db, principal, path, body, "");
      }
    case Delete(_, s) => CascadeIsExact(w.db, s);
    case ToArchive(principal, s) => ArchivedIff(w.db, principal, s);
    case PutRules(principal, s, rules, found, newId, accepted) =>
      if RulesetFound(w.db.rulesets, s, found) && SetRules(w.db, principal, s, rules, found, newId, accepted).Ok? {
        RulesAreWritten(w.db, principal, s, rules, found, newId, accepted);
      }
  }

  lemma {:induction false} CreateKeepsOthers(
      db: Database, s: Id, name: string, isPrivate: bool, rulesIsSet: bool, list: seq<Target>, o: Id)
    requires Created(db, s, name, isPrivate, rulesIsSet, list).Ok? ==> o != s
    ensures Created(db, s, name, isPrivate, rulesIsSet, list).Ok? ==>
              && SameSession(db, Created(db, s, name, isPrivate, rulesIsSet, list).value, o)
              && SameAccounts(db, Created(db, s, name, isPrivate, rulesIsSet, list).value)
  {
    hide Given, Replaced, CanUpsert, SameSession;
    if Created(db, s, name, isPrivate, rulesIsSet, list).Ok? {
      OnlyOneSession(db, Created(db, s, name, isPrivate, rulesIsSet, list).value.sessions, s, list, o);
    }
  }

  lemma {:induction false} MembersKeepOthers(w: World, step: Step, o: Id)
    requires step.ToJoin? || step.ToAccept? || step.Invite?
    requires NextDb(w, step).Some? && o !in About(w, step)
    ensures SameSession(w.db, NextDb(w, step).value.db, o) && SameAccounts(w.db, NextDb(w, step).value.db)
  {
    hide SameSession, Join, Accept, IsInvited;
    SameItself(w.db, o);
    match step
    case ToJoin(principal, s, limit, found) =>
      if Join(w.db, principal, s, limit, found).Ok? {
        OnlyVisitorsJoin(w.db, principal, s, limit, found, "");
        JoinKeepsOthers(w.db, Join(w.db, principal, s, limit, found).value, principal.subject, s, found, o);
      }
    case ToAccept(principal, i) =>
      if Accept(w.db, principal, i).Ok? {
        AcceptJoins(w.db, principal, i);
        var s := w.db.invitations[i].sessionId;
        JoinKeepsOthers(w.db, Accept(w.db, principal, i).value, principal.subject, s, Some(i), o);
      }
    case Invite(newId, s, user) => InviteKeepsOthers(w.db, newId, s, user, o);
  }

  lemma AcceptJoins(db: Database, principal: Principal, i: Id)
    requires Accept(db, principal, i).Ok?
    ensures i in db.invitations
    ensures Joined(db, Accept(db, principal, i).value, principal.subject, db.invitations[i].sessionId, Some(i))
    ensures InvitationFound(db, principal.subject, db.invitations[i].sessionId, Some(i))
  {
  }

  lemma JoinKeepsOthers(before: Database, after: Database, user: Id, s: Id, found: Option<Id>, o: Id)
    requires Joined(before, after, user, s, found) && InvitationFound(before, user, s, found) && o != s
    ensures SameSession(before, after, o) && SameAccounts(before, after)
  {
    forall i
      ensures Inviting(before, o, i) == Inviting(after, o, i)
    {
      assert Entry(after.invitations, i) == if found == Some(i) then None else Entry(before.invitations, i);
    }
  }

  lemma InviteKeepsOthers(db: Database, newId: Id, s: Id, user: Id, o: Id)
    requires o != s
    ensures SameSession(db, Committed(db, Invited(db, newId, s, user)), o)
    ensures SameAccounts(db, Committed(db, Invited(db, newId, s, user)))
  {
  }

  lemma OnlyPlayers(db: Database, players: PlayerTable, races: RaceTable, o: Id)
    requires forall k :: Playing(db.(players := players), o, k) == Playing(db, o, k)
    ensures SameSession(db, db.(players := players, races := races), o)
  {
    var after := db.(players := players, races := races);
    assert forall k :: Playing(after, o, k) == Playing(db.(players := players), o, k);
  }

  predicate ChangesRoster(step: Step) {
    || step.Register? || step.AddRace? || step.DropRace? || step.RemovePlayers? || step.Normalise? || step.SetReady?
  }

  lemma {:induction false} RostersKeepOthers(env: Env, w: World, step: Step, o: Id)
    requires ChangesRoster(step)
    requires Inv(env, w) && NextDb(w, step).Some? && o !in About(w, step)
    ensures SameSession(w.db, NextDb(w, step).value.db, o)
    ensures NextDb(w, step).value.db.users == w.db.users
    ensures !step.AddRace? && !step.DropRace? ==> NextDb(w, step).value.db.races == w.db.races
  {
    hide Inv, SameSession, Registered, RaceInUse, IsMaxOrder, AfterSteps, IsRoster, RosterOk;
    SameItself(w.db, o);
    var v := NextDb(w, step).value;
    if step.Register? {
      var Register(principal, s, params, newId, maxOrder) := step;
      KeysAreIds(env, w);
      if Registered(w.db, principal, s, params, newId, NextOrder(maxOrder)).Ok? {
        RegisteredSeat(w.db, principal, s, params, newId, NextOrder(maxOrder));
      }
    } else if step.Normalise? {
      OnlySeatsMove(w.db.players, step.session, step.roster);
    }
    forall k
      ensures Playing(w.db.(players := v.db.players), o, k) == Playing(w.db, o, k)
    {
      if step.RemovePlayers? && k in step.gone && k in w.db.players {
        assert w.db.players[k].sessionId in About(w, step);
      }
    }
    OnlyPlayers(w.db, v.db.players, v.db.races, o);
  }

  lemma KeysAreIds(env: Env, w: World)
    requires Inv(env, w)
    ensures forall k :: k in w.db.players ==> w.db.players[k].id == k
  {
    hide LinksOk, FilesOk, OriginsOk, StartsOk, TurnsOk, HistoryOk, Fielded;
  }

  lemma RegisteredSeat(
      db: Database, principal: Principal, s: Id, params: Registration, newId: Id, order: int)
    requires forall k :: k in db.players ==> db.players[k].id == k
    requires Registered(db, principal, s, params, newId, order).Ok?
    ensures var p := Registered(db, principal, s, params, newId, order).value;
            p.sessionId == s && (p.id in db.players ==> db.players[p.id].sessionId == s)
  {
  }

  // ---- What is behind a start

  /** The step took the session from pending to starting: on behalf of a manager, with every player
      ready and every race valid, and the start is what it handed on. */
  ghost predicate Began(env: Env, u: World, step: Step, v: World, t: Token, gen: Generation) {
    && step.Begin? && step.token == t && step.session == gen.session
    && !step.principal.isPending
    && (step.principal.isGlobalManager
        || Entry(u.db.members, RelKey(step.principal.subject, gen.session)) == Some(true))
    && gen.session in u.db.sessions && u.db.sessions[gen.session].state == Pending
    && EveryoneReady(u.db, gen.session) && EveryRaceValid(env, u.db, gen.session)
    && StartingOf(u.db, v.db, gen.session, gen.players) && HandsOn(u.db, v.db, gen.session, gen)
  }

  /** `holds` of the world before the n-th step, the step, and the world after it. */
  ghost predicate AtStep(env: Env, init: World, steps: seq<Step>, n: nat, holds: (World, Step, World) -> bool) {
    && n < |steps| && Run(env, init, steps[..n]).Some? && Run(env, init, steps[..n + 1]).Some?
    && holds(Run(env, init, steps[..n]).value, steps[n], Run(env, init, steps[..n + 1]).value)
  }

  lemma {:induction false} EarlierStep(
      env: Env, init: World, steps: seq<Step>, n: nat, holds: (World, Step, World) -> bool)
    requires steps != [] && AtStep(env, init, steps[..|steps| - 1], n, holds)
    ensures AtStep(env, init, steps, n, holds)
  {
    hide Run;
    var init' := steps[..|steps| - 1];
    assert init'[..n] == steps[..n] && init'[..n + 1] == steps[..n + 1];
  }

  lemma {:induction false} LastStep(env: Env, init: World, steps: seq<Step>, holds: (World, Step, World) -> bool)
    requires steps != [] && Run(env, init, steps).Some?
    ensures Run(env, init, steps[..|steps| - 1]).Some?
    ensures Next(env, Run(env, init, steps[..|steps| - 1]).value, steps[|steps| - 1]) == Run(env, init, steps)
    ensures holds(Run(env, init, steps[..|steps| - 1]).value, steps[|steps| - 1], Run(env, init, steps).value) ==>
              AtStep(env, init, steps, |steps| - 1, holds)
  {
    hide Next;
    assert steps[..|steps|] == steps;
  }

  /** A start in flight after a step was in flight before it, or the step began it. */
  lemma {:induction false} StartComesFrom(env: Env, w: World, step: Step, t: Token)
    requires Next(env, w, step).Some? && t in Next(env, w, step).value.starts
    ensures var v := Next(env, w, step).value;
            (t in w.starts && v.starts[t].gen == w.starts[t].gen) || Began(env, w, step, v, t, v.starts[t].gen)
  {
    hide NextTurn, NextDb, NextStart;
    if step.Begin? || step.Produce? || step.Fail? || step.Save? || step.Revert? || step.Crash? {
      StartAmongStarts(env, w, step, t);
    } else if step.TakeTurn? || step.WriteTurn? || step.DropTurn? || step.Submit? {
      TurnLeavesSessions(env, w, step);
    } else {
      DbLeavesStarts(w, step);
    }
  }

  lemma {:induction false} StartAmongStarts(env: Env, w: World, step: Step, t: Token)
    requires step.Begin? || step.Produce? || step.Fail? || step.Save? || step.Revert? || step.Crash?
    requires NextStart(env, w, step).Some? && t in NextStart(env, w, step).value.starts
    ensures var v := NextStart(env, w, step).value;
            (t in w.starts && v.starts[t].gen == w.starts[t].gen) || Began(env, w, step, v, t, v.starts[t].gen)
  {
    hide Generable, NewFiles, SaveStart, RevertStart;
    if step.Begin? {
      SelectionOf(w.db, step.session, step.answers);
      BeginsIff(env, w.db, step.principal, step.session, step.answers);
      if BeginStart(env, w.db, step.principal, step.session, step.answers).Ok? {
        BegunTables(env, w.db, step.principal, step.session, step.answers);
      }
      hide BeginStart, AnswersOk, StartingOf, HandsOn, EveryoneReady, EveryRaceValid;
    }
  }

  lemma DbLeavesStarts(w: World, step: Step)
    requires NextDb(w, step).Some?
    ensures NextDb(w, step).value.starts == w.starts
  {
    hide Created, EditSession, DeleteSession, Archive, SetRules, Join, Accept, Registered, CreateRace, DeleteRace,
      IsMaxOrder, IsRoster, AfterSteps, RulesetFound, InvitationFound, HarmlessEdit;
  }

  /** Over every run: behind each start in flight there is the step that began it. */
  lemma {:induction false} EveryStartWasBegun(env: Env, init: World, steps: seq<Step>, t: Token) returns (n: nat)
    requires init.starts == map[] && Run(env, init, steps).Some? && t in Run(env, init, steps).value.starts
    ensures var gen := Run(env, init, steps).value.starts[t].gen;
            AtStep(env, init, steps, n, (u, step, v) => Began(env, u, step, v, t, gen))
  {
    hide Run, Next, Began, AtStep;
    var gen := Run(env, init, steps).value.starts[t].gen;
    if steps == [] {
      NothingRun(env, init);
      assert false;
    } else {
      var init', holds := steps[..|steps| - 1], (u: World, step: Step, v: World) => Began(env, u, step, v, t, gen);
      LastStep(env, init, steps, holds);
      StartComesFrom(env, Run(env, init, init').value, steps[|steps| - 1], t);
      if t in Run(env, init, init').value.starts && Run(env, init, init').value.starts[t].gen == gen {
        n := EveryStartWasBegun(env, init, init', t);
        EarlierStep(env, init, steps, n, holds);
      } else {
        n := |steps| - 1;
      }
    }
  }

  // ---- What is behind a game

  /** A session that has a game and had none before the step was saved by it. */
  ghost predicate GameAppears(w: World, v: World, s: Id) {
    && s in v.db.sessions && HasGame(v.db.sessions[s])
    && !(s in w.db.sessions && HasGame(w.db.sessions[s]))
  }

  lemma {:induction false} NewGameIsSaved(env: Env, w: World, step: Step, s: Id)
    requires Inv(env, w) && Next(env, w, step).Some? && GameAppears(w, Next(env, w, step).value, s)
    ensures step.Save? && step.token in w.starts && w.starts[step.token].gen.session == s
    ensures s in Next(env, w, step).value.origins
    ensures Next(env, w, step).value.origins[s] == w.starts[step.token].gen.rules
  {
    hide NextTurn, NextDb, NextStart, Inv;
    if step.Begin? || step.Produce? || step.Fail? || step.Save? || step.Revert? || step.Crash? {
      NewGameAmongStarts(env, w, step, s);
    } else if step.TakeTurn? || step.WriteTurn? || step.DropTurn? || step.Submit? {
      TurnLeavesSessions(env, w, step);
    } else if ChangesSessions(step) {
      NothingAppearsInDb(w, step);
    } else {
      DbLeavesGames(w, step);
    }
  }

  lemma {:induction false} NewGameAmongStarts(env: Env, w: World, step: Step, s: Id)
    requires step.Begin? || step.Produce? || step.Fail? || step.Save? || step.Revert? || step.Crash?
    requires NextStart(env, w, step).Some? && GameAppears(w, NextStart(env, w, step).value, s)
    ensures step.Save? && step.token in w.starts && w.starts[step.token].gen.session == s
    ensures var v := NextStart(env, w, step).value; s in v.origins && v.origins[s] == w.starts[step.token].gen.rules
  {
    hide Generable, NewFiles, AnswersOk, Slotted, SlotsFit, AfterSteps, JoinedByOwner, AllValid, AllReady,
      IsAuthorizedManager;
  }

  /** No game appears and no file does. */
  ghost predicate NothingAppears(w: World, v: World) {
    && (forall s :: !GameAppears(w, v, s))
    && (forall k :: k in v.db.files ==> Entry(w.db.files, k) == Some(v.db.files[k]))
  }

  lemma {:induction false} NothingAppearsInDb(w: World, step: Step)
    requires ChangesSessions(step) && NextDb(w, step).Some?
    ensures NothingAppears(w, NextDb(w, step).value)
  {
    hide NothingAppears;
    if step.ToArchive? {
      RowSteps(w, step);
      ArchiveAddsNothing(w, step.principal, step.session);
    } else if step.PutRules? {
      RowSteps(w, step);
      var PutRules(principal, session, rules, found, newId, accepted) := step;
      RulesAddNothing(w, principal, session, rules, found, newId, accepted);
    } else if step.Edit? {
      EditAddsNothing(w, step);
    } else {
      CreateOrDeleteAddsNothing(w, step);
    }
    hide NextDb;
  }

  lemma ArchiveAddsNothing(w: World, principal: Principal, session: Id)
    ensures NothingAppears(w, InDb(w, Archive(w.db, principal, session)))
  {
    hide IsAuthorizedManager;
  }

  lemma RulesAddNothing(
      w: World, principal: Principal, session: Id, rules: Rules, found: Option<Id>, newId: Id, accepted: bool)
    ensures NothingAppears(w, InDb(w, SetRules(w.db, principal, session, rules, found, newId, accepted)))
  {
    hide IsManager, Clamped;
  }

  lemma EditAddsNothing(w: World, step: Step)
    requires step.Edit? && NextDb(w, step).Some?
    ensures NothingAppears(w, NextDb(w, step).value)
  {
    hide NextDb, EditSession;
    EditIsEdited(w, step);
    if EditSession(w.db, step.principal, step.session, step.body).Ok? {
      EditedRow(w, step.principal, step.session, step.body);
    }
  }

  lemma CreateOrDeleteAddsNothing(w: World, step: Step)
    requires (step.CreateSession? || step.Delete?) && NextDb(w, step).Some?
    ensures NothingAppears(w, NextDb(w, step).value)
  {
    hide CanUpsert, Replaced, IsAuthorizedManager;
  }

  /** The step began what became the game of the session, from these rules. */
  ghost predicate BeganGame(env: Env, u: World, step: Step, v: World, s: Id, rules: Rules) {
    exists t, gen :: Began(env, u, step, v, t, gen) && gen.session == s && gen.rules == rules
  }

  lemma {:induction false} StartBeganGame(
      env: Env, init: World, steps: seq<Step>, n: nat, t: Token, gen: Generation)
    requires AtStep(env, init, steps, n, (u, step, v) => Began(env, u, step, v, t, gen))
    ensures AtStep(env, init, steps, n, (u, step, v) => BeganGame(env, u, step, v, gen.session, gen.rules))
  {
    hide Run, Began;
  }

  /** Over every run: behind each started or archived session there is the step that began its game, on
      behalf of a manager, with every player ready, and from the rules on record. */
  lemma {:induction false} EveryGameWasBegun(env: Env, init: World, steps: seq<Step>, s: Id) returns (n: nat)
    requires Init(init) && Run(env, init, steps).Some?
    requires s in Run(env, init, steps).value.db.sessions && HasGame(Run(env, init, steps).value.db.sessions[s])
    ensures s in Run(env, init, steps).value.origins
    ensures var rules := Run(env, init, steps).value.origins[s];
            AtStep(env, init, steps, n, (u, step, v) => BeganGame(env, u, step, v, s, rules))
  {
    hide Init, Run, Next, BeganGame, AtStep, HasGame, Inv;
    var v := Run(env, init, steps).value;
    if steps == [] {
      NothingRun(env, init);
      NoSessionsYet(init);
      assert false;
    } else {
      var init' := steps[..|steps| - 1];
      LastStep(env, init, steps, (_, _, _) => true);
      var w := Run(env, init, init').value;
      Reachable(env, init, init');
      if GameAppears(w, v, s) {
        NewGameIsSaved(env, w, steps[|steps| - 1], s);
        var t := steps[|steps| - 1].token;
        NoSessionsYet(init);
        n := EveryStartWasBegun(env, init, init', t);
        StartBeganGame(env, init, init', n, t, w.starts[t].gen);
      } else {
        n := EveryGameWasBegun(env, init, init', s);
        SameOrigin(env, w, steps[|steps| - 1], s);
      }
      EarlierStep(env, init, steps, n, (u, step, x) => BeganGame(env, u, step, x, s, v.origins[s]));
    }
  }

  lemma NoSessionsYet(init: World)
    requires Init(init)
    ensures init.db.sessions == map[] && init.starts == map[] && init.turns == map[] && init.db.files == map[]
  {
  }

  lemma SameOrigin(env: Env, w: World, step: Step, s: Id)
    requires Inv(env, w) && Next(env, w, step).Some?
    requires s in w.db.sessions && HasGame(w.db.sessions[s]) && s in w.origins
    requires s in Next(env, w, step).value.db.sessions
    ensures s in Next(env, w, step).value.origins && Next(env, w, step).value.origins[s] == w.origins[s]
  {
    hide Inv, Next, HasGame, FilesStay;
    LiveIsUsed(env, w);
    StepEvolves(env, w, step, s);
  }

  // ---- What is behind a turn

  /** The step read the turn: the roster as it was, and everything that was stored for the year. */
  ghost predicate Took(u: World, step: Step, t: Token, taken: Taken) {
    var job := taken.job;
    && step.TakeTurn? && step.token == t && step.session == job.session && step.year == job.year
    && IsRoster(u.db.players, job.session, job.players)
    && job.session in u.db.sessions && Entry(u.db.files, FileKey(job.session, job.year)) == Some(taken.stored)
    && IsDecoded(taken.stored, job.input)
  }

  lemma {:induction false} TurnComesFrom(env: Env, w: World, step: Step, t: Token)
    requires Next(env, w, step).Some? && t in Next(env, w, step).value.turns
    ensures var v := Next(env, w, step).value;
            (t in w.turns && v.turns[t] == w.turns[t]) || Took(w, step, t, v.turns[t])
  {
    hide NextTurn, NextDb, NextStart, Took;
    if step.TakeTurn? || step.WriteTurn? || step.DropTurn? || step.Submit? {
      TurnAmongTurns(env, w, step, t);
    } else if step.Begin? || step.Produce? || step.Fail? || step.Save? || step.Revert? || step.Crash? {
      StartsLeaveTurns(env, w, step);
    } else {
      DbLeavesTurns(w, step);
    }
  }

  lemma {:induction false} TurnAmongTurns(env: Env, w: World, step: Step, t: Token)
    requires step.TakeTurn? || step.WriteTurn? || step.DropTurn? || step.Submit?
    requires NextTurn(env, w, step).Some? && t in NextTurn(env, w, step).value.turns
    ensures var v := NextTurn(env, w, step).value;
            (t in w.turns && v.turns[t] == w.turns[t]) || Took(w, step, t, v.turns[t])
  {
    hide IsRoster, IsDecoded, NewFiles, ReadTurn, SaveTurn, SubmitOrder, IsLastYear;
    if step.TakeTurn? {
      ReadsIff(w.db, step.session, step.year, step.roster);
    }
  }

  lemma StartsLeaveTurns(env: Env, w: World, step: Step)
    requires step.Begin? || step.Produce? || step.Fail? || step.Save? || step.Revert? || step.Crash?
    requires NextStart(env, w, step).Some?
    ensures NextStart(env, w, step).value.turns == w.turns
  {
    hide AnswersOk, BeginStart, Generable, NewFiles, SaveStart, RevertStart;
  }

  lemma DbLeavesTurns(w: World, step: Step)
    requires NextDb(w, step).Some?
    ensures NextDb(w, step).value.turns == w.turns
  {
    hide Created, EditSession, DeleteSession, Archive, SetRules, Join, Accept, Registered, CreateRace, DeleteRace,
      IsMaxOrder, IsRoster, AfterSteps, RulesetFound, InvitationFound, HarmlessEdit;
  }

  /** Over every run: behind each turn that is being generated there is the step that read it, and what
      it read is all that was stored then, orders included, with the players of that moment. */
  lemma {:induction false} EveryTurnWasTaken(env: Env, init: World, steps: seq<Step>, t: Token) returns (n: nat)
    requires init.turns == map[] && Run(env, init, steps).Some? && t in Run(env, init, steps).value.turns
    ensures var taken := Run(env, init, steps).value.turns[t];
            AtStep(env, init, steps, n, (u, step, _) => Took(u, step, t, taken))
  {
    hide Run, Next, Took, AtStep;
    var taken := Run(env, init, steps).value.turns[t];
    if steps == [] {
      NothingRun(env, init);
      assert false;
    } else {
      var init', holds := steps[..|steps| - 1], (u: World, step: Step, _: World) => Took(u, step, t, taken);
      LastStep(env, init, steps, holds);
      TurnComesFrom(env, Run(env, init, init').value, steps[|steps| - 1], t);
      if t in Run(env, init, init').value.turns && Run(env, init, init').value.turns[t] == taken {
        n := EveryTurnWasTaken(env, init, init', t);
        EarlierStep(env, init, steps, n, holds);
      } else {
        n := |steps| - 1;
      }
    }
  }

  /** And as long as the session is there, what a turn is generated from is what is stored for its year,
      up to orders that came later. */
  lemma TurnsAreUpToDate(env: Env, init: World, steps: seq<Step>, t: Token)
    requires Init(init) && Run(env, init, steps).Some? && t in Run(env, init, steps).value.turns
    ensures var w := Run(env, init, steps).value;
            var Taken(job, stored) := w.turns[t];
            && IsDecoded(stored, job.input) && stored.year == job.year
            && (job.session in w.db.sessions ==>
                  && FileKey(job.session, job.year) in w.db.files
                  && OnlyOrdersAdded(stored, w.db.files[FileKey(job.session, job.year)]))
  {
    hide Run, RosterOk, LinksOk, FilesOk, OriginsOk, StartsOk, HistoryOk, Readable, Base64.Decode, OnlyOrdersAdded;
    Reachable(env, init, steps);
    var w := Run(env, init, steps).value;
    assert TurnOk(env, w.db.sessions.Keys, w.db.files, w.used, w.turns[t]);
  }

  // ---- What is behind an order

  /** The step submitted this order, on behalf of the player who then sat in that slot, when the year was
      the last of the session. */
  ghost predicate Submitted(u: World, step: Step, key: FileKey, slot: int, data: string) {
    && step.Submit? && step.accepted && step.session == key.sessionId && step.year == key.year && step.data == data
    && step.player in u.db.players && u.db.players[step.player].sessionId == key.sessionId
    && u.db.players[step.player].order == slot
    && IsLastYear(u.db.files, key.sessionId, key.year)
  }

  /** Stored files that were not there like this before the step are new and without orders, or got one
      order by a submission. */
  lemma {:induction false} FileComesFrom(env: Env, w: World, step: Step, key: FileKey)
    requires Inv(env, w) && Next(env, w, step).Some? && key in Next(env, w, step).value.db.files
    ensures var f := Next(env, w, step).value.db.files[key];
            if step.Submit? then OrdersAdded(w, Next(env, w, step).value, step)
            else Entry(w.db.files, key) == Some(f) || f.orders == []
  {
    hide NextTurn, NextDb, NextStart, Inv, OrdersAdded;
    if step.Begin? || step.Produce? || step.Fail? || step.Save? || step.Revert? || step.Crash? {
      FileAmongStarts(env, w, step, key);
    } else if step.TakeTurn? || step.WriteTurn? || step.DropTurn? {
      FileAmongTurns(env, w, step, key);
    } else if step.Submit? {
      SubmitAddsOrders(env, w, step);
    } else if ChangesSessions(step) {
      NothingAppearsInDb(w, step);
    } else {
      DbLeavesGames(w, step);
    }
  }

  lemma {:induction false} FileAmongStarts(env: Env, w: World, step: Step, key: FileKey)
    requires step.Begin? || step.Produce? || step.Fail? || step.Save? || step.Revert? || step.Crash?
    requires Inv(env, w) && NextStart(env, w, step).Some? && key in NextStart(env, w, step).value.db.files
    ensures var f := NextStart(env, w, step).value.db.files[key]; Entry(w.db.files, key) == Some(f) || f.orders == []
  {
    hide RosterOk, LinksOk, FilesOk, OriginsOk, TurnsOk, HistoryOk, Generable, LinedUp, RulesAre, Readable, NewFiles,
      AnswersOk, Slotted, SlotsFit, AfterSteps, AllValid, AllReady, IsAuthorizedManager;
    if step.Begin? {
      SelectionOf(w.db, step.session, step.answers);
    } else if step.token in w.starts {
      assert StartOk(env, w.db.sessions, w.db.rulesets, w.used, w.starts[step.token]);
    }
  }

  lemma {:induction false} FileAmongTurns(env: Env, w: World, step: Step, key: FileKey)
    requires step.TakeTurn? || step.WriteTurn? || step.DropTurn?
    requires NextTurn(env, w, step).Some? && key in NextTurn(env, w, step).value.db.files
    ensures var f := NextTurn(env, w, step).value.db.files[key]; Entry(w.db.files, key) == Some(f) || f.orders == []
  {
    hide IsRoster, ReadTurn, NewFiles, Readable, Base64.Decode;
    if step.WriteTurn? {
      NewFilesAreNew(env, w.turns[step.token].job.players, step.dir);
    }
  }

  /** Over every run: behind each stored order there is a submission of exactly this text for this year
      by the player in this slot. */
  lemma {:induction false} EveryOrderWasSubmitted(env: Env, init: World, steps: seq<Step>, key: FileKey, slot: nat)
    returns (n: nat)
    requires Init(init) && Run(env, init, steps).Some? && key in Run(env, init, steps).value.db.files
    requires OrderAt(Run(env, init, steps).value.db.files[key].orders, slot) != ""
    ensures var data := OrderAt(Run(env, init, steps).value.db.files[key].orders, slot);
            AtStep(env, init, steps, n, (u, step, _) => Submitted(u, step, key, slot, data))
  {
    hide Init, Run, Next, AtStep, Inv, Submitted, OrderAt;
    var v := Run(env, init, steps).value;
    if steps == [] {
      NothingRun(env, init);
      NoSessionsYet(init);
      assert false;
    } else {
      var init', data := steps[..|steps| - 1], OrderAt(v.db.files[key].orders, slot);
      var holds := (u: World, step: Step, _: World) => Submitted(u, step, key, slot, data);
      LastStep(env, init, steps, holds);
      var w := Run(env, init, init').value;
      Reachable(env, init, init');
      OrderComesFrom(env, w, steps[|steps| - 1], key, slot);
      if Submitted(w, steps[|steps| - 1], key, slot, data) {
        n := |steps| - 1;
      } else {
        n := EveryOrderWasSubmitted(env, init, init', key, slot);
        EarlierStep(env, init, steps, n, holds);
      }
    }
  }

  lemma {:induction false} OrderComesFrom(env: Env, w: World, step: Step, key: FileKey, slot: nat)
    requires Inv(env, w) && Next(env, w, step).Some? && key in Next(env, w, step).value.db.files
    requires OrderAt(Next(env, w, step).value.db.files[key].orders, slot) != ""
    ensures var data := OrderAt(Next(env, w, step).value.db.files[key].orders, slot);
            || (key in w.db.files && OrderAt(w.db.files[key].orders, slot) == data)
            || Submitted(w, step, key, slot, data)
  {
    hide Inv, Next, IsLastYear;
    FileComesFrom(env, w, step, key);
    if step.Submit? && Next(env, w, step).value != w {
      LastYearOnly(env, w, step);
      if key != FileKey(step.session, step.year) {
        assert Entry(Next(env, w, step).value.db.files, key) == Entry(w.db.files, key);
      }
    }
  }

  lemma LastYearOnly(env: Env, w: World, step: Step)
    requires step.Submit? && Next(env, w, step).Some? && FileKey(step.session, step.year) in w.db.files
    ensures IsLastYear(w.db.files, step.session, step.year)
  {
    hide SubmitOrder, IsLastYear;
  }
}

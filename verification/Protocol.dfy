/**
 Everything at once: starts in their phases, turn generation, and the other transactions, in any
 order. Every transaction is one step; stars.exe is an oracle whose host file says year 2400 for a
 new game and one year more than its input for a turn.
 */
module Protocol {
  import opened Common
  import Base64
  import opened Relations
  import opened GameFiles
  import opened Database
  import opened Slots
  import opened Roster
  import opened Sessions
  import opened GameStart
  import opened Turns

  /** Where a start is between phase 1 and its end. */
  datatype Phase = Generating | Produced(files: SessionFiles) | Failing

  datatype Start = Start(gen: Generation, phase: Phase)

  /** A turn that is being generated, and the files as they were when it was read. */
  datatype Taken = Taken(job: TurnJob, stored: SessionFiles)

  type Token = nat

  /** The database, the requests in flight, and what has happened: the ids given to sessions, the
      rules each universe was generated from, the files inserted and the turns announced. */
  datatype World = World(
    db: Database,
    starts: map<Token, Start>,
    turns: map<Token, Taken>,
    used: set<Id>,
    origins: map<Id, Rules>,
    inserted: set<FileKey>,
    announced: set<FileKey>)

  datatype Step =
    // starting a game
    | Begin(token: Token, principal: Principal, session: Id, answers: Answers)
    | Produce(token: Token, dir: Dir)
    | Fail(token: Token)
    | Save(token: Token)
    | Revert(token: Token)
    | Crash(token: Token)
    // generating a turn
    | TakeTurn(token: Token, session: Id, year: int, roster: seq<Player>)
    | WriteTurn(token: Token, dir: Dir)
    | DropTurn(token: Token)
    | Submit(session: Id, player: Id, year: int, data: string, accepted: bool)
    // sessions
    | CreateSession(session: Id, name: string, isPrivate: bool, rulesIsSet: bool, list: seq<Target>)
    | Edit(principal: Principal, session: Id, body: SessionBody)
    | Delete(principal: Principal, session: Id)
    | ToArchive(principal: Principal, session: Id)
    | PutRules(principal: Principal, session: Id, rules: Rules, found: Option<Id>, newId: Id, accepted: bool)
    | ToJoin(principal: Principal, session: Id, limit: Option<nat>, invitation: Option<Id>)
    | ToAccept(principal: Principal, invitationId: Id)
    | Invite(newId: Id, session: Id, user: Id)
    // rosters
    | Register(principal: Principal, session: Id, params: Registration, newId: Id, maxOrder: Option<int>)
    | AddRace(principal: Principal, newId: Id, data: string, accepted: bool)
    | DropRace(principal: Principal, pathUser: Id, raceId: Id)
    | RemovePlayers(gone: set<Id>)
    | Normalise(session: Id, roster: seq<Player>)
    | SetReady(player: Id, ready: bool)

  ghost function InDb(w: World, outcome: Outcome): World {
    w.(db := Committed(w.db, outcome))
  }

  /** A new session has a fresh id and is pending, without a link to rules. */
  ghost function Created(
      db: Database, session: Id, name: string, isPrivate: bool, rulesIsSet: bool, list: seq<Target>): Outcome {
    var row := SessionRow(name, isPrivate, Pending, rulesIsSet, None);
    if !CanUpsert(db.users, db.sessions.Keys + {session}, BySession, session, list) then Err(Failed)
    else Ok(db.(sessions := db.sessions[session := row], members := Replaced(db.members, BySession, session, list)))
  }

  /** After an update of a session, whatever the body says. */
  ghost function Edited(w: World, principal: Principal, path: Id, body: SessionBody): World {
    match EditSession(w.db, principal, path, body)
    case Err(_) => w
    case Ok(db) => w.(db := db, used := w.used + {body.id})
  }

  /** The updates that are steps: of a session without rules, or with an id that was never used, to a
      state without a game. `EditKeepsInvIff` says what the others do. */
  predicate HarmlessEdit(w: World, body: SessionBody) {
    && (body.state == Some(Pending) || body.state == Some(Starting))
    && if body.id in w.db.sessions then w.db.sessions[body.id].rulesetId.None? else body.id !in w.used
  }

  function Invited(db: Database, newId: Id, session: Id, user: Id): Outcome {
    if session !in db.sessions || user !in db.users || newId in db.invitations then Err(Failed)
    else Ok(db.(invitations := db.invitations[newId := Invitation(session, user)]))
  }

  // ---- One step; none when it is not enabled

  ghost function NextStart(env: Env, w: World, step: Step): Option<World>
    requires step.Begin? || step.Produce? || step.Fail? || step.Save? || step.Revert? || step.Crash?
  {
    if step.Begin? then
      if step.token in w.starts || !AnswersOk(w.db, step.session, step.answers) then None
      else
        match BeginStart(env, w.db, step.principal, step.session, step.answers)
        case Err(_) => Some(w)
        case Ok(Begun(db, gen)) => Some(w.(db := db, starts := w.starts[step.token := Start(gen, Generating)]))
    else if step.token !in w.starts then None
    else
      var gen, phase := w.starts[step.token].gen, w.starts[step.token].phase;
      match step
      case Produce(t, dir) =>
        if !phase.Generating? || !Generable(gen) || NewFiles(env, gen.players, dir).None? then None
        else
          var files := NewFiles(env, gen.players, dir).value;
          if files.year != FIRST_YEAR then None
          else Some(w.(starts := w.starts[t := Start(gen, Produced(files))]))
      case Fail(t) =>
        if phase.Failing? then None else Some(w.(starts := w.starts[t := Start(gen, Failing)]))
      case Save(t) =>
        if !phase.Produced? then None
        else
          (match SaveStart(w.db, gen, phase.files)
           case Err(_) => Some(w.(starts := w.starts[t := Start(gen, Failing)]))
           case Ok(db) =>
             var key := FileKey(gen.session, phase.files.year);
             Some(w.(db := db, starts := w.starts - {t}, origins := w.origins[gen.session := gen.rules],
                     inserted := w.inserted + {key}, announced := w.announced + {key})))
      case Revert(t) =>
        if !phase.Failing? then None
        else Some(w.(db := RevertStart(w.db, gen.session), starts := w.starts - {t}))
      case Crash(t) => Some(w.(starts := w.starts - {t}))
      case _ => None
  }

  ghost function NextTurn(env: Env, w: World, step: Step): Option<World>
    requires step.TakeTurn? || step.WriteTurn? || step.DropTurn? || step.Submit?
  {
    match step
    case TakeTurn(t, session, year, roster) =>
      if t in w.turns || !IsRoster(w.db.players, session, roster) then None
      else
        (match ReadTurn(w.db, session, year, roster)
         case Err(_) => Some(w)
         case Ok(job) => Some(w.(turns := w.turns[t := Taken(job, w.db.files[FileKey(session, year)])])))
    case WriteTurn(t, dir) =>
      if t !in w.turns || NewFiles(env, w.turns[t].job.players, dir).None? then None
      else
        var job, files := w.turns[t].job, NewFiles(env, w.turns[t].job.players, dir).value;
        if env.yearOf(job.input.hostFile) != Some(files.year - 1) then None
        else
          (match SaveTurn(w.db, job, files)
           case Err(_) => Some(w.(turns := w.turns - {t}))
           case Ok(db) =>
             Some(w.(db := db, turns := w.turns - {t},
                     inserted := w.inserted + {FileKey(job.session, files.year)},
                     announced := w.announced + {FileKey(job.session, job.year + 1)})))
    case DropTurn(t) => if t in w.turns then Some(w.(turns := w.turns - {t})) else None
    case Submit(session, player, year, data, accepted) =>
      if FileKey(session, year) in w.db.files && !IsLastYear(w.db.files, session, year) then None
      else Some(InDb(w, SubmitOrder(w.db, session, player, year, data, accepted)))
    case _ => None
  }

  /** Every other step is one transaction. Human players are registered by users, not by global
      managers. */
  ghost function NextDb(w: World, step: Step): Option<World> {
    match step
    case CreateSession(session, name, isPrivate, rulesIsSet, list) =>
      if session in w.used then None
      else Some(InDb(w, Created(w.db, session, name, isPrivate, rulesIsSet, list)).(used := w.used + {session}))
    case Edit(principal, path, body) =>
      if HarmlessEdit(w, body) then Some(Edited(w, principal, path, body)) else None
    case Delete(principal, session) => Some(InDb(w, DeleteSession(w.db, principal, session)))
    case ToArchive(principal, session) => Some(InDb(w, Archive(w.db, principal, session)))
    case PutRules(principal, session, rules, found, newId, accepted) =>
      if RulesetFound(w.db.rulesets, session, found)
      then Some(InDb(w, SetRules(w.db, principal, session, rules, found, newId, accepted))) else None
    case ToJoin(principal, session, limit, invitation) =>
      if InvitationFound(w.db, principal.subject, session, invitation)
      then Some(InDb(w, Join(w.db, principal, session, limit, invitation))) else None
    case ToAccept(principal, invitation) => Some(InDb(w, Accept(w.db, principal, invitation)))
    case Invite(newId, session, user) => Some(InDb(w, Invited(w.db, newId, session, user)))
    case Register(principal, session, params, newId, maxOrder) =>
      if IsMaxOrder(w.db.players, session, maxOrder) && (!principal.isGlobalManager || params.isBot) then
        (match Registered(w.db, principal, session, params, newId, NextOrder(maxOrder))
         case Err(_) => Some(w)
         case Ok(p) => Some(w.(db := WithPlayer(w.db, p))))
      else None
    case AddRace(principal, newId, data, accepted) => Some(InDb(w, CreateRace(w.db, principal, newId, data, accepted)))
    case DropRace(principal, pathUser, raceId) => Some(InDb(w, DeleteRace(w.db, principal, pathUser, raceId)))
    case RemovePlayers(gone) => Some(w.(db := w.db.(players := w.db.players - gone)))
    case Normalise(session, roster) =>
      if IsRoster(w.db.players, session, roster)
      then Some(w.(db := w.db.(players := AfterSteps(w.db.players, roster, |roster|)))) else None
    case SetReady(player, ready) =>
      if player in w.db.players
      then Some(w.(db := w.db.(players := w.db.players[player := w.db.players[player].(ready := ready)]))) else None
    case _ => None
  }

  ghost function Next(env: Env, w: World, step: Step): Option<World> {
    if step.Begin? || step.Produce? || step.Fail? || step.Save? || step.Revert? || step.Crash?
    then NextStart(env, w, step)
    else if step.TakeTurn? || step.WriteTurn? || step.DropTurn? || step.Submit? then NextTurn(env, w, step)
    else NextDb(w, step)
  }

  /** The world after the steps; none when one of them was not enabled. */
  ghost function Run(env: Env, w: World, steps: seq<Step>): Option<World> {
    if steps == [] then Some(w)
    else
      match Run(env, w, steps[..|steps| - 1])
      case None => None
      case Some(v) => Next(env, v, steps[|steps| - 1])
  }

  // ---- The invariant

  predicate HasGame(row: SessionRow) {
    row.state == Started || row.state == Archived
  }

  /** A session links to a ruleset exactly when that ruleset names the session, so it has at most
      one. */
  ghost predicate LinksOk(sessions: map<Id, SessionRow>, rulesets: map<Id, RulesetRow>) {
    && (forall s, r :: s in sessions ==> (sessions[s].rulesetId == Some(r) <==> IsRulesetOf(rulesets, s, r)))
    && (forall r :: r in rulesets ==> rulesets[r].sessionId in sessions)
  }

  ghost predicate FileOk(env: Env, sessions: map<Id, SessionRow>, files: map<FileKey, SessionFiles>, k: FileKey)
    requires k in files
  {
    && k.sessionId in sessions && HasGame(sessions[k.sessionId])
    && FIRST_YEAR <= k.year == files[k].year && Readable(env, files[k])
    && (k.year > FIRST_YEAR ==> FileKey(k.sessionId, k.year - 1) in files)
  }

  /** Files exist exactly for sessions with a game, from the first year on without a gap. */
  ghost predicate FilesOk(env: Env, sessions: map<Id, SessionRow>, files: map<FileKey, SessionFiles>) {
    && (forall k :: k in files ==> FileOk(env, sessions, files, k))
    && (forall s :: s in sessions && HasGame(sessions[s]) ==> FileKey(s, FIRST_YEAR) in files)
  }

  ghost predicate RulesAre(link: Option<Id>, rulesets: map<Id, RulesetRow>, rules: Rules) {
    link.Some? && link.value in rulesets && rulesets[link.value].rules == rules
  }

  ghost predicate OriginsOk(sessions: map<Id, SessionRow>, rulesets: map<Id, RulesetRow>, origins: map<Id, Rules>) {
    forall s :: s in sessions && HasGame(sessions[s]) ==>
      s in origins && RulesAre(sessions[s].rulesetId, rulesets, origins[s])
  }

  /** The players of a start: of its session, by slot without gaps, and all of them ready. */
  predicate LinedUp(gen: Generation) {
    forall i :: 0 <= i < |gen.players| ==>
      gen.players[i].ready && gen.players[i].order == i && gen.players[i].sessionId == gen.session
  }

  /** While a start is in flight its session is as phase 1 left it, or deleted. */
  ghost predicate StartOk(
      env: Env, sessions: map<Id, SessionRow>, rulesets: map<Id, RulesetRow>, used: set<Id>, start: Start) {
    var gen := start.gen;
    && gen.session in used && gen.snapshot.state == Starting && Generable(gen) && LinedUp(gen)
    && (gen.session in sessions ==>
          sessions[gen.session] == gen.snapshot && RulesAre(gen.snapshot.rulesetId, rulesets, gen.rules))
    && (start.phase.Produced? ==>
          start.phase.files.year == FIRST_YEAR && Readable(env, start.phase.files) && start.phase.files.orders == [])
  }

  ghost predicate StartsOk(
      env: Env, sessions: map<Id, SessionRow>, rulesets: map<Id, RulesetRow>, used: set<Id>,
      starts: map<Token, Start>) {
    && (forall t :: t in starts ==> StartOk(env, sessions, rulesets, used, starts[t]))
    && (forall t, u :: t in starts && u in starts && t != u ==> starts[t].gen.session != starts[u].gen.session)
  }

  /** A turn is generated from all that was stored for the year of the message, orders included. Those
      files are still there, at most with more orders, unless the session is gone. */
  ghost predicate TurnOk(env: Env, live: set<Id>, files: map<FileKey, SessionFiles>, used: set<Id>, taken: Taken) {
    var job := taken.job;
    && job.session in used && FIRST_YEAR <= job.year == taken.stored.year && Readable(env, taken.stored)
    && FromSessionFiles(taken.stored) == Some(job.input) && env.yearOf(job.input.hostFile) == Some(job.year)
    && (job.session in live ==>
          && FileKey(job.session, job.year) in files
          && OnlyOrdersAdded(taken.stored, files[FileKey(job.session, job.year)]))
  }

  ghost predicate TurnsOk(
      env: Env, live: set<Id>, files: map<FileKey, SessionFiles>, used: set<Id>, turns: map<Token, Taken>) {
    forall t :: t in turns ==> TurnOk(env, live, files, used, turns[t])
  }

  ghost predicate HistoryOk(
      live: set<Id>, files: map<FileKey, SessionFiles>, used: set<Id>,
      inserted: set<FileKey>, announced: set<FileKey>) {
    && announced <= inserted && live <= used
    && (forall k :: k in files ==> k in inserted)
    && (forall k :: k in inserted ==> k.sessionId in used && (k.sessionId in live ==> k in files))
  }

  ghost predicate Inv(env: Env, w: World) {
    && RosterOk(w.db.players, w.db.races)
    && LinksOk(w.db.sessions, w.db.rulesets)
    && FilesOk(env, w.db.sessions, w.db.files)
    && OriginsOk(w.db.sessions, w.db.rulesets, w.origins)
    && StartsOk(env, w.db.sessions, w.db.rulesets, w.used, w.starts)
    && TurnsOk(env, w.db.sessions.Keys, w.db.files, w.used, w.turns)
    && HistoryOk(w.db.sessions.Keys, w.db.files, w.used, w.inserted, w.announced)
  }

  /** No session yet; races are keyed by their id. */
  ghost predicate Init(w: World) {
    && w.db.sessions == map[] && w.db.rulesets == map[] && w.db.files == map[] && w.db.players == map[]
    && (forall r :: r in w.db.races ==> w.db.races[r].id == r)
    && w.starts == map[] && w.turns == map[] && w.used == {} && w.inserted == {} && w.announced == {}
  }

  // ---- Small changes that keep the invariant

  lemma {:induction false} ForgetStart(env: Env, w: World, t: Token)
    requires Inv(env, w)
    ensures Inv(env, w.(starts := w.starts - {t}))
  {
    hide RosterOk, LinksOk, FilesOk, OriginsOk, StartOk, TurnsOk, HistoryOk;
  }

  lemma {:induction false} LinksKeep(
      sessions: map<Id, SessionRow>, rulesets: map<Id, RulesetRow>, s: Id, row: SessionRow)
    requires LinksOk(sessions, rulesets) && s in sessions && row.rulesetId == sessions[s].rulesetId
    ensures LinksOk(sessions[s := row], rulesets)
  {
    hide IsRulesetOf;
  }

  lemma {:induction false} FilesKeep(
      env: Env, sessions: map<Id, SessionRow>, files: map<FileKey, SessionFiles>, s: Id, row: SessionRow)
    requires FilesOk(env, sessions, files) && s in sessions && HasGame(row) == HasGame(sessions[s])
    ensures FilesOk(env, sessions[s := row], files)
  {
    hide Readable, HasGame;
    forall k | k in files
      ensures FileOk(env, sessions[s := row], files, k)
    {
      assert FileOk(env, sessions, files, k);
    }
  }

  lemma {:induction false} StartsKeep(
      env: Env, sessions: map<Id, SessionRow>, rulesets: map<Id, RulesetRow>, used: set<Id>, starts: map<Token, Start>,
      s: Id, row: SessionRow)
    requires StartsOk(env, sessions, rulesets, used, starts)
    requires forall t :: t in starts ==> starts[t].gen.session != s
    ensures StartsOk(env, sessions[s := row], rulesets, used, starts)
  {
    hide Readable, Generable, RulesAre;
    forall t | t in starts
      ensures StartOk(env, sessions[s := row], rulesets, used, starts[t])
    {
      assert StartOk(env, sessions, rulesets, used, starts[t]);
    }
  }

  lemma OriginsKeep(
      sessions: map<Id, SessionRow>, rulesets: map<Id, RulesetRow>, origins: map<Id, Rules>, s: Id, row: SessionRow)
    requires OriginsOk(sessions, rulesets, origins) && s in sessions
    requires row.rulesetId == sessions[s].rulesetId && HasGame(row) == HasGame(sessions[s])
    ensures OriginsOk(sessions[s := row], rulesets, origins)
  {
    hide RulesAre, HasGame;
  }

  /** A row may change if no start is in flight for it and it keeps its link and having a game. */
  lemma {:induction false} ChangeRow(env: Env, w: World, s: Id, row: SessionRow)
    requires Inv(env, w) && s in w.db.sessions
    requires row.rulesetId == w.db.sessions[s].rulesetId && HasGame(row) == HasGame(w.db.sessions[s])
    requires forall t :: t in w.starts ==> w.starts[t].gen.session != s
    ensures Inv(env, w.(db := w.db.(sessions := w.db.sessions[s := row])))
  {
    hide RosterOk, LinksOk, FilesOk, OriginsOk, StartsOk, TurnsOk, HistoryOk, HasGame;
    assert w.db.sessions[s := row].Keys == w.db.sessions.Keys;
    OriginsKeep(w.db.sessions, w.db.rulesets, w.origins, s, row);
    LinksKeep(w.db.sessions, w.db.rulesets, s, row);
    FilesKeep(env, w.db.sessions, w.db.files, s, row);
    StartsKeep(env, w.db.sessions, w.db.rulesets, w.used, w.starts, s, row);
  }

  lemma {:induction false} AddStart(env: Env, w: World, t: Token, start: Start)
    requires Inv(env, w) && StartOk(env, w.db.sessions, w.db.rulesets, w.used, start)
    requires forall u :: u in w.starts && u != t ==> w.starts[u].gen.session != start.gen.session
    ensures Inv(env, w.(starts := w.starts[t := start]))
  {
    hide RosterOk, LinksOk, FilesOk, OriginsOk, StartOk, TurnsOk, HistoryOk;
  }

  lemma {:induction false} ChangeRoster(env: Env, w: World, players: PlayerTable, races: RaceTable)
    requires Inv(env, w) && RosterOk(players, races)
    ensures Inv(env, w.(db := w.db.(players := players, races := races)))
  {
    hide RosterOk, LinksOk, FilesOk, OriginsOk, StartsOk, TurnsOk, HistoryOk;
  }

  /** No start is in flight for a session in another state. */
  lemma {:induction false} NotInFlight(env: Env, w: World, s: Id)
    requires Inv(env, w) && s in w.db.sessions && w.db.sessions[s].state != Starting
    ensures forall t :: t in w.starts ==> w.starts[t].gen.session != s
  {
    hide RosterOk, LinksOk, FilesOk, OriginsOk, TurnsOk, HistoryOk, Generable, RulesAre, Readable;
    forall t | t in w.starts
      ensures w.starts[t].gen.session != s
    {
      assert StartOk(env, w.db.sessions, w.db.rulesets, w.used, w.starts[t]);
    }
  }

  // ---- Starting a game

  lemma {:induction false} BeginKeepsInv(env: Env, w: World, step: Step)
    requires Inv(env, w) && step.Begin? && NextStart(env, w, step).Some?
    ensures Inv(env, NextStart(env, w, step).value)
  {
    hide RosterOk, LinksOk, FilesOk, OriginsOk, StartsOk, TurnsOk, HistoryOk, Generable, AnswersOk, Slotted, SlotsFit,
      AfterSteps, NewGame.JoinedByOwner, AllValid, AllReady, IsAuthorizedManager, RulesAre;
    var Begin(t, principal, s, a) := step;
    SelectionOf(w.db, s, a);
    if BeginStart(env, w.db, principal, s, a).Ok? {
      var Begun(db, gen) := BeginStart(env, w.db, principal, s, a).value;
      NotInFlight(env, w, s);
      BegunIsGenerable(env, w.db, principal, s, a);
      NormaliseKeepsRoster(w.db.players, w.db.races, s, a.roster);
      var w1 := w.(db := w.db.(players := db.players));
      ChangeRoster(env, w, db.players, db.races);
      assert w1 == w.(db := w.db.(players := db.players, races := db.races));
      ChangeRow(env, w1, s, gen.snapshot);
      var w2 := w1.(db := w1.db.(sessions := w1.db.sessions[s := gen.snapshot]));
      assert w2.db == db;
      LinkedRules(w.db, s, a.ruleset.value);
      LiveIsUsed(env, w);
      BegunLinesUp(env, w.db, principal, s, a);
      AddStart(env, w2, t, Start(gen, Generating));
    }
  }

  lemma BegunLinesUp(env: Env, db: Database, principal: Principal, session: Id, a: Answers)
    requires AnswersOk(db, session, a)
    requires BeginStart(env, db, principal, session, a).Ok?
    ensures LinedUp(BeginStart(env, db, principal, session, a).value.gen)
  {
    BegunTables(env, db, principal, session, a);
    hide BeginStart, AnswersOk, Brought;
  }

  lemma LiveIsUsed(env: Env, w: World)
    requires Inv(env, w)
    ensures w.db.sessions.Keys <= w.used
  {
    hide RosterOk, LinksOk, FilesOk, OriginsOk, StartsOk, TurnsOk;
  }

  lemma LinkedRules(db: Database, s: Id, r: Id)
    requires LinksOk(db.sessions, db.rulesets) && s in db.sessions && IsRulesetOf(db.rulesets, s, r)
    ensures RulesAre(db.sessions[s].rulesetId, db.rulesets, db.rulesets[r].rules)
  {
  }

  lemma {:induction false} PhaseKeepsInv(env: Env, w: World, step: Step)
    requires Inv(env, w) && (step.Produce? || step.Fail? || step.Crash?) && NextStart(env, w, step).Some?
    ensures Inv(env, NextStart(env, w, step).value)
  {
    hide RosterOk, LinksOk, FilesOk, OriginsOk, TurnsOk, HistoryOk, Generable, LinedUp, RulesAre, Readable, NewFiles;
    var start := w.starts[step.token];
    assert StartOk(env, w.db.sessions, w.db.rulesets, w.used, start);
    match step
    case Produce(t, dir) =>
      NewFilesAreNew(env, start.gen.players, dir);
      AddStart(env, w, t, Start(start.gen, Produced(NewFiles(env, start.gen.players, dir).value)));
    case Fail(t) => AddStart(env, w, t, Start(start.gen, Failing));
    case Crash(t) => ForgetStart(env, w, t);
  }

  lemma {:induction false} RevertKeepsInv(env: Env, w: World, step: Step)
    requires Inv(env, w) && step.Revert? && NextStart(env, w, step).Some?
    ensures Inv(env, NextStart(env, w, step).value)
  {
    hide RosterOk, LinksOk, FilesOk, OriginsOk, TurnsOk, HistoryOk, Generable, RulesAre, Readable;
    var gen := w.starts[step.token].gen;
    assert StartOk(env, w.db.sessions, w.db.rulesets, w.used, w.starts[step.token]);
    var w1 := w.(starts := w.starts - {step.token});
    ForgetStart(env, w, step.token);
    if gen.session in w.db.sessions {
      ChangeRow(env, w1, gen.session, gen.snapshot.(state := Pending));
    }
  }

  /** Phase 3 writes the row as it is, but "started": nothing in between is overwritten. */
  lemma SaveKeepsTheRow(env: Env, w: World, t: Token)
    requires Inv(env, w) && t in w.starts && w.starts[t].gen.session in w.db.sessions
    ensures w.starts[t].gen.snapshot.(state := Started) == w.db.sessions[w.starts[t].gen.session].(state := Started)
    ensures w.starts[t].gen.snapshot.rulesetId.Some?
    ensures IsRulesetOf(w.db.rulesets, w.starts[t].gen.session, w.starts[t].gen.snapshot.rulesetId.value)
  {
    hide RosterOk, FilesOk, OriginsOk, TurnsOk, HistoryOk, Generable, Readable;
    assert StartOk(env, w.db.sessions, w.db.rulesets, w.used, w.starts[t]);
  }

  lemma {:induction false} SaveKeepsInv(env: Env, w: World, step: Step)
    requires Inv(env, w) && step.Save? && NextStart(env, w, step).Some?
    ensures Inv(env, NextStart(env, w, step).value)
  {
    hide RosterOk, LinksOk, FilesOk, OriginsOk, TurnsOk, HistoryOk, Generable, RulesAre, Readable, IsRulesetOf;
    var t := step.token;
    var start := w.starts[t];
    assert StartOk(env, w.db.sessions, w.db.rulesets, w.used, start);
    if SaveStart(w.db, start.gen, start.phase.files).Err? {
      AddStart(env, w, t, Start(start.gen, Failing));
    } else {
      var w1 := w.(starts := w.starts - {t});
      ForgetStart(env, w, t);
      StartedGame(env, w1, start.gen, start.phase.files);
    }
  }

  lemma {:induction false} StartedGame(env: Env, w: World, gen: Generation, files: SessionFiles)
    requires Inv(env, w) && gen.session in w.db.sessions && !HasGame(w.db.sessions[gen.session])
    requires w.db.sessions[gen.session] == gen.snapshot && RulesAre(gen.snapshot.rulesetId, w.db.rulesets, gen.rules)
    requires forall t :: t in w.starts ==> w.starts[t].gen.session != gen.session
    requires files.year == FIRST_YEAR && Readable(env, files)
    ensures var key := FileKey(gen.session, files.year);
            var db := w.db.(files := w.db.files[key := files],
                            sessions := w.db.sessions[gen.session := gen.snapshot.(state := Started)]);
            Inv(env, w.(db := db, origins := w.origins[gen.session := gen.rules],
                        inserted := w.inserted + {key}, announced := w.announced + {key}))
  {
    hide RosterOk, LinksOk, FilesOk, OriginsOk, StartsOk, TurnsOk, HistoryOk, RulesAre, Readable;
    var s, row, key := gen.session, gen.snapshot.(state := Started), FileKey(gen.session, files.year);
    assert w.db.sessions[s := row].Keys == w.db.sessions.Keys;
    LinksKeep(w.db.sessions, w.db.rulesets, s, row);
    StartsKeep(env, w.db.sessions, w.db.rulesets, w.used, w.starts, s, row);
    FirstFile(env, w.db.sessions, w.db.files, s, row, files);
    NoFileYet(env, w.db.sessions, w.db.files, key);
    FirstOrigin(w.db.sessions, w.db.rulesets, w.origins, s, row, gen.rules);
    OneMoreFile(env, w, key, files);
  }

  lemma {:induction false} NoFileYet(
      env: Env, sessions: map<Id, SessionRow>, files: map<FileKey, SessionFiles>, key: FileKey)
    requires FilesOk(env, sessions, files) && key.sessionId in sessions && !HasGame(sessions[key.sessionId])
    ensures key !in files
  {
    hide Readable, HasGame;
    assert key in files ==> FileOk(env, sessions, files, key);
  }

  lemma {:induction false} FirstFile(
      env: Env, sessions: map<Id, SessionRow>, files: map<FileKey, SessionFiles>, s: Id, row: SessionRow,
      f: SessionFiles)
    requires FilesOk(env, sessions, files) && s in sessions && !HasGame(sessions[s]) && HasGame(row)
    requires f.year == FIRST_YEAR && Readable(env, f)
    ensures FilesOk(env, sessions[s := row], files[FileKey(s, f.year) := f])
  {
    hide Readable, HasGame;
    var sessions', files' := sessions[s := row], files[FileKey(s, f.year) := f];
    forall k | k in files'
      ensures FileOk(env, sessions', files', k)
    {
      if k in files {
        assert FileOk(env, sessions, files, k);
      }
    }
  }

  lemma FirstOrigin(
      sessions: map<Id, SessionRow>, rulesets: map<Id, RulesetRow>, origins: map<Id, Rules>, s: Id, row: SessionRow,
      rules: Rules)
    requires OriginsOk(sessions, rulesets, origins) && RulesAre(row.rulesetId, rulesets, rules)
    ensures OriginsOk(sessions[s := row], rulesets, origins[s := rules])
  {
    hide RulesAre;
  }

  /** Turns in flight and the history do not mind one more file of a live session. */
  lemma {:induction false} OneMoreFile(env: Env, w: World, key: FileKey, f: SessionFiles)
    requires Inv(env, w) && key.sessionId in w.db.sessions && key !in w.db.files
    ensures TurnsOk(env, w.db.sessions.Keys, w.db.files[key := f], w.used, w.turns)
    ensures HistoryOk(w.db.sessions.Keys, w.db.files[key := f], w.used, w.inserted + {key}, w.announced + {key})
  {
    hide RosterOk, LinksOk, FilesOk, OriginsOk, StartsOk, Readable, FromSessionFiles, OnlyOrdersAdded;
    forall t | t in w.turns
      ensures TurnOk(env, w.db.sessions.Keys, w.db.files[key := f], w.used, w.turns[t])
    {
      assert TurnOk(env, w.db.sessions.Keys, w.db.files, w.used, w.turns[t]);
    }
  }

  // ---- Generating turns

  lemma {:induction false} TakeTurnKeepsInv(env: Env, w: World, step: Step)
    requires Inv(env, w) && step.TakeTurn? && NextTurn(env, w, step).Some?
    ensures Inv(env, NextTurn(env, w, step).value)
  {
    hide RosterOk, LinksOk, OriginsOk, StartsOk, HistoryOk, IsRoster, FromSessionFiles, HasGame;
    var TakeTurn(t, s, year, roster) := step;
    if ReadTurn(w.db, s, year, roster).Ok? {
      assert FileOk(env, w.db.sessions, w.db.files, FileKey(s, year));
      LiveIsUsed(env, w);
    }
  }

  lemma {:induction false} WriteTurnKeepsInv(env: Env, w: World, step: Step)
    requires Inv(env, w) && step.WriteTurn? && NextTurn(env, w, step).Some?
    ensures Inv(env, NextTurn(env, w, step).value)
  {
    hide RosterOk, LinksOk, FilesOk, OriginsOk, StartsOk, TurnsOk, HistoryOk, NewFiles, Readable;
    var job, files := w.turns[step.token].job, NewFiles(env, w.turns[step.token].job.players, step.dir).value;
    var w1 := w.(turns := w.turns - {step.token});
    ForgetTurn(env, w, step.token);
    NewFilesAreNew(env, job.players, step.dir);
    if SaveTurn(w.db, job, files).Ok? {
      var key := FileKey(job.session, files.year);
      OneMoreFile(env, w1, key, files);
      NextFile(env, w.db.sessions, w.db.files, job, files);
    }
  }

  lemma {:induction false} SubmitKeepsInv(env: Env, w: World, step: Step)
    requires Inv(env, w) && step.Submit? && NextTurn(env, w, step).Some?
    ensures Inv(env, NextTurn(env, w, step).value)
  {
    hide RosterOk, LinksOk, FilesOk, OriginsOk, StartsOk, TurnsOk, HistoryOk, IsLastYear, WithOrder, Readable,
      Base64.Decode;
    var Submit(session, player, year, data, accepted) := step;
    if SubmitOrder(w.db, session, player, year, data, accepted).Ok? {
      var key := FileKey(session, year);
      StoredIsReadable(env, w, key);
      SubmittedFiles(env, w.db.files[key], w.db.players[player].order, data);
      ReplaceFile(env, w, key, WithOrder(w.db.files[key], w.db.players[player].order, data).value);
    }
  }

  lemma StoredIsReadable(env: Env, w: World, key: FileKey)
    requires Inv(env, w) && key in w.db.files
    ensures Readable(env, w.db.files[key])
  {
    hide RosterOk, LinksOk, OriginsOk, StartsOk, TurnsOk, HistoryOk, Readable, HasGame;
    assert FileOk(env, w.db.sessions, w.db.files, key);
  }

  lemma {:induction false} ReplaceFile(env: Env, w: World, key: FileKey, f: SessionFiles)
    requires Inv(env, w) && key in w.db.files && Readable(env, f) && OnlyOrdersAdded(w.db.files[key], f)
    ensures Inv(env, w.(db := w.db.(files := w.db.files[key := f])))
  {
    hide RosterOk, LinksOk, OriginsOk, StartsOk, Readable, HasGame, TurnOk, OnlyOrdersAdded;
    SameYear(w.db.files[key], f);
    forall k | k in w.db.files
      ensures FileOk(env, w.db.sessions, w.db.files[key := f], k)
    {
      assert FileOk(env, w.db.sessions, w.db.files, k);
    }
    forall t | t in w.turns
      ensures TurnOk(env, w.db.sessions.Keys, w.db.files[key := f], w.used, w.turns[t])
    {
      MoreOrders(env, w.db.sessions.Keys, w.db.files, w.used, w.turns[t], key, f);
    }
  }

  lemma SameYear(f: SessionFiles, g: SessionFiles)
    requires OnlyOrdersAdded(f, g)
    ensures f.year == g.year
  {
  }

  lemma MoreOrders(
      env: Env, live: set<Id>, files: map<FileKey, SessionFiles>, used: set<Id>, taken: Taken, key: FileKey,
      f: SessionFiles)
    requires TurnOk(env, live, files, used, taken) && key in files && OnlyOrdersAdded(files[key], f)
    ensures TurnOk(env, live, files[key := f], used, taken)
  {
    hide Readable, OnlyOrdersAdded, FromSessionFiles;
    if taken.job.session in live && FileKey(taken.job.session, taken.job.year) == key {
      OnlyOrdersAddedTwice(taken.stored, files[key], f);
    }
  }

  lemma {:induction false} ForgetTurn(env: Env, w: World, t: Token)
    requires Inv(env, w) && t in w.turns
    ensures Inv(env, w.(turns := w.turns - {t}))
    ensures TurnOk(env, w.db.sessions.Keys, w.db.files, w.used, w.turns[t])
  {
    hide RosterOk, LinksOk, FilesOk, OriginsOk, StartsOk, TurnOk, HistoryOk;
  }

  lemma {:induction false} NextFile(
      env: Env, sessions: map<Id, SessionRow>, files: map<FileKey, SessionFiles>, job: TurnJob, f: SessionFiles)
    requires FilesOk(env, sessions, files) && Readable(env, f) && f.year == job.year + 1
    requires FileKey(job.session, job.year) in files && FileKey(job.session, f.year) !in files
    ensures FilesOk(env, sessions, files[FileKey(job.session, f.year) := f])
  {
    hide Readable, HasGame;
    var files' := files[FileKey(job.session, f.year) := f];
    assert FileOk(env, sessions, files, FileKey(job.session, job.year));
    forall k | k in files'
      ensures FileOk(env, sessions, files', k)
    {
      if k in files {
        assert FileOk(env, sessions, files, k);
      }
    }
  }

  // ---- The other transactions

  lemma {:induction false} ArchiveKeepsInv(env: Env, w: World, step: Step)
    requires Inv(env, w) && step.ToArchive? && NextDb(w, step).Some?
    ensures Inv(env, NextDb(w, step).value)
  {
    hide RosterOk, LinksOk, FilesOk, OriginsOk, StartsOk, TurnsOk, HistoryOk, IsAuthorizedManager;
    if Archive(w.db, step.principal, step.session).Ok? {
      var row := w.db.sessions[step.session];
      NotInFlight(env, w, step.session);
      ChangeRow(env, w, step.session, row.(state := Archived));
    }
  }

  lemma {:induction false} RulesKeepInv(env: Env, w: World, step: Step)
    requires Inv(env, w) && step.PutRules? && NextDb(w, step).Some?
    ensures Inv(env, NextDb(w, step).value)
  {
    hide RosterOk, LinksOk, FilesOk, OriginsOk, StartsOk, TurnsOk, HistoryOk, IsRulesetOf, RulesetFound;
    var PutRules(principal, s, rules, found, newId, accepted) := step;
    if SetRules(w.db, principal, s, rules, found, newId, accepted).Ok? {
      NotInFlight(env, w, s);
      var after := NextDb(w, step).value;
      var r := if found.Some? then found.value else newId;
      var row := RulesetRow(s, Clamped(rules));
      assert after.db.sessions.Keys == w.db.sessions.Keys;
      LinksAfterRules(w.db.sessions, w.db.rulesets, s, found, newId, row);
      var sessions := after.db.sessions;
      if found.None? {
        FilesKeep(env, w.db.sessions, w.db.files, s, sessions[s]);
        StartsKeep(env, w.db.sessions, w.db.rulesets, w.used, w.starts, s, sessions[s]);
        FirstOriginUnchanged(w.db.sessions, w.db.rulesets, w.origins, s, sessions[s]);
      }
      RulesOfOthersStay(env, sessions, w.db.rulesets, w.used, w.starts, w.origins, s, r, row);
    }
  }

  /** What remains to be known after a rules step: the ruleset written belongs to no other session. */
  lemma {:induction false} LinksAfterRules(
      sessions: map<Id, SessionRow>, rulesets: map<Id, RulesetRow>, s: Id, found: Option<Id>, newId: Id,
      row: RulesetRow)
    requires LinksOk(sessions, rulesets) && s in sessions && RulesetFound(rulesets, s, found) && row.sessionId == s
    requires found.None? ==> newId !in rulesets
    ensures found.Some? ==> LinksOk(sessions, rulesets[found.value := row])
    ensures found.None? ==>
              LinksOk(sessions[s := sessions[s].(rulesIsSet := true, rulesetId := Some(newId))], rulesets[newId := row])
    ensures forall o :: o in sessions && o != s ==>
              sessions[o].rulesetId != Some(if found.Some? then found.value else newId)
  {
    if found.None? {
      assert forall r :: !IsRulesetOf(rulesets, s, r);
    }
  }

  lemma FirstOriginUnchanged(
      sessions: map<Id, SessionRow>, rulesets: map<Id, RulesetRow>, origins: map<Id, Rules>, s: Id, row: SessionRow)
    requires OriginsOk(sessions, rulesets, origins) && !HasGame(row)
    ensures OriginsOk(sessions[s := row], rulesets, origins)
  {
    hide RulesAre;
  }

  lemma {:induction false} RulesOfOthersStay(
      env: Env, sessions: map<Id, SessionRow>, rulesets: map<Id, RulesetRow>, used: set<Id>, starts: map<Token, Start>,
      origins: map<Id, Rules>, s: Id, r: Id, row: RulesetRow)
    requires StartsOk(env, sessions, rulesets, used, starts) && OriginsOk(sessions, rulesets, origins)
    requires s in sessions && !HasGame(sessions[s]) && forall t :: t in starts ==> starts[t].gen.session != s
    requires forall o :: o in sessions && o != s ==> sessions[o].rulesetId != Some(r)
    ensures StartsOk(env, sessions, rulesets[r := row], used, starts)
    ensures OriginsOk(sessions, rulesets[r := row], origins)
  {
    hide Readable, Generable;
    forall t | t in starts
      ensures StartOk(env, sessions, rulesets[r := row], used, starts[t])
    {
      assert StartOk(env, sessions, rulesets, used, starts[t]);
    }
  }

  lemma {:induction false} DeleteKeepsInv(env: Env, w: World, step: Step)
    requires Inv(env, w) && step.Delete? && NextDb(w, step).Some?
    ensures Inv(env, NextDb(w, step).value)
  {
    hide RosterOk, LinksOk, FilesOk, OriginsOk, StartsOk, TurnsOk, HistoryOk, IsAuthorizedManager;
    if DeleteSession(w.db, step.principal, step.session).Ok? {
      var s, db := step.session, WithoutSession(w.db, step.session);
      var gone := set k | k in w.db.players && w.db.players[k].sessionId == s;
      assert db.players == w.db.players - gone;
      RemovalKeepsRoster(w.db.players, w.db.races, gone);
      DeletedRows(env, w, s);
      DeletedFiles(env, w, s);
    }
  }

  lemma {:induction false} DeletedRows(env: Env, w: World, s: Id)
    requires Inv(env, w)
    ensures var db := WithoutSession(w.db, s);
            && LinksOk(db.sessions, db.rulesets) && OriginsOk(db.sessions, db.rulesets, w.origins)
            && StartsOk(env, db.sessions, db.rulesets, w.used, w.starts)
  {
    hide RosterOk, LinksOk, FilesOk, OriginsOk, StartsOk, TurnsOk, HistoryOk;
    DeletedLinks(w.db, s);
    DeletedOrigins(w, s);
    DeletedStarts(env, w, s);
  }

  lemma {:induction false} DeletedLinks(before: Database, s: Id)
    requires LinksOk(before.sessions, before.rulesets)
    ensures LinksOk(WithoutSession(before, s).sessions, WithoutSession(before, s).rulesets)
  {
    var db := WithoutSession(before, s);
    forall o, r | o in db.sessions
      ensures db.sessions[o].rulesetId == Some(r) <==> IsRulesetOf(db.rulesets, o, r)
    {
      assert before.sessions[o].rulesetId == Some(r) <==> IsRulesetOf(before.rulesets, o, r);
    }
  }

  /** A link of another session survives, with its rules. */
  lemma LinkSurvives(before: Database, s: Id, o: Id, rules: Rules)
    requires LinksOk(before.sessions, before.rulesets) && o in before.sessions && o != s
    requires RulesAre(before.sessions[o].rulesetId, before.rulesets, rules)
    ensures RulesAre(before.sessions[o].rulesetId, WithoutSession(before, s).rulesets, rules)
  {
    assert IsRulesetOf(before.rulesets, o, before.sessions[o].rulesetId.value);
  }

  lemma {:induction false} DeletedOrigins(w: World, s: Id)
    requires LinksOk(w.db.sessions, w.db.rulesets) && OriginsOk(w.db.sessions, w.db.rulesets, w.origins)
    ensures OriginsOk(WithoutSession(w.db, s).sessions, WithoutSession(w.db, s).rulesets, w.origins)
  {
    hide LinksOk, RulesAre, HasGame;
    var db := WithoutSession(w.db, s);
    forall o | o in db.sessions && HasGame(db.sessions[o])
      ensures o in w.origins && RulesAre(db.sessions[o].rulesetId, db.rulesets, w.origins[o])
    {
      LinkSurvives(w.db, s, o, w.origins[o]);
    }
  }

  lemma {:induction false} DeletedStarts(env: Env, w: World, s: Id)
    requires LinksOk(w.db.sessions, w.db.rulesets) && StartsOk(env, w.db.sessions, w.db.rulesets, w.used, w.starts)
    ensures StartsOk(env, WithoutSession(w.db, s).sessions, WithoutSession(w.db, s).rulesets, w.used, w.starts)
  {
    hide LinksOk, RulesAre, Readable, Generable;
    var db := WithoutSession(w.db, s);
    forall t | t in w.starts
      ensures StartOk(env, db.sessions, db.rulesets, w.used, w.starts[t])
    {
      assert StartOk(env, w.db.sessions, w.db.rulesets, w.used, w.starts[t]);
      var gen := w.starts[t].gen;
      if gen.session in db.sessions {
        LinkSurvives(w.db, s, gen.session, gen.rules);
      }
    }
  }

  lemma {:induction false} DeletedFiles(env: Env, w: World, s: Id)
    requires Inv(env, w)
    ensures var db := WithoutSession(w.db, s);
            && FilesOk(env, db.sessions, db.files) && TurnsOk(env, db.sessions.Keys, db.files, w.used, w.turns)
            && HistoryOk(db.sessions.Keys, db.files, w.used, w.inserted, w.announced)
  {
    hide RosterOk, LinksOk, OriginsOk, StartsOk, Readable, HasGame, FromSessionFiles, OnlyOrdersAdded;
    var db := WithoutSession(w.db, s);
    forall k | k in db.files
      ensures FileOk(env, db.sessions, db.files, k)
    {
      assert FileOk(env, w.db.sessions, w.db.files, k);
    }
    forall t | t in w.turns
      ensures TurnOk(env, db.sessions.Keys, db.files, w.used, w.turns[t])
    {
      assert TurnOk(env, w.db.sessions.Keys, w.db.files, w.used, w.turns[t]);
    }
  }

  lemma {:induction false} CreateKeepsInv(env: Env, w: World, step: Step)
    requires Inv(env, w) && step.CreateSession? && NextDb(w, step).Some?
    ensures Inv(env, NextDb(w, step).value)
  {
    hide RosterOk, LinksOk, FilesOk, OriginsOk, StartsOk, TurnsOk, HistoryOk, CanUpsert, Replaced, Unheard;
    var CreateSession(s, name, isPrivate, rulesIsSet, list) := step;
    var row := SessionRow(name, isPrivate, Pending, rulesIsSet, None);
    UnusedIsUnheard(env, w, s);
    MoreUsed(env, w, s);
    if Created(w.db, s, name, isPrivate, rulesIsSet, list).Ok? {
      CreatedRows(env, w, s, row);
      CreatedFiles(env, w, s, row);
    }
  }

  lemma {:induction false} MoreUsed(env: Env, w: World, s: Id)
    requires Inv(env, w)
    ensures Inv(env, w.(used := w.used + {s}))
  {
    hide RosterOk, LinksOk, FilesOk, OriginsOk, RulesAre, Readable, Generable;
    forall t | t in w.starts
      ensures StartOk(env, w.db.sessions, w.db.rulesets, w.used + {s}, w.starts[t])
    {
      assert StartOk(env, w.db.sessions, w.db.rulesets, w.used, w.starts[t]);
    }
    forall t | t in w.turns
      ensures TurnOk(env, w.db.sessions.Keys, w.db.files, w.used + {s}, w.turns[t])
    {
      assert TurnOk(env, w.db.sessions.Keys, w.db.files, w.used, w.turns[t]);
    }
  }

  /** Nothing in flight and nothing in the history is about this id, and there is no session of it. */
  ghost predicate Unheard(w: World, s: Id) {
    && s !in w.db.sessions
    && (forall t :: t in w.starts ==> w.starts[t].gen.session != s)
    && (forall t :: t in w.turns ==> w.turns[t].job.session != s)
    && (forall k :: k in w.inserted ==> k.sessionId != s)
  }

  lemma {:induction false} UnusedIsUnheard(env: Env, w: World, s: Id)
    requires Inv(env, w) && s !in w.used
    ensures Unheard(w, s)
  {
    hide RosterOk, LinksOk, FilesOk, OriginsOk, RulesAre, Readable, Generable;
    forall t | t in w.starts
      ensures w.starts[t].gen.session != s
    {
      assert StartOk(env, w.db.sessions, w.db.rulesets, w.used, w.starts[t]);
    }
    forall t | t in w.turns
      ensures w.turns[t].job.session != s
    {
      assert TurnOk(env, w.db.sessions.Keys, w.db.files, w.used, w.turns[t]);
    }
  }

  lemma {:induction false} CreatedRows(env: Env, w: World, s: Id, row: SessionRow)
    requires Inv(env, w) && Unheard(w, s) && row.rulesetId.None? && !HasGame(row)
    ensures LinksOk(w.db.sessions[s := row], w.db.rulesets)
    ensures OriginsOk(w.db.sessions[s := row], w.db.rulesets, w.origins)
    ensures StartsOk(env, w.db.sessions[s := row], w.db.rulesets, w.used + {s}, w.starts)
  {
    hide RosterOk, FilesOk, TurnsOk, HistoryOk, Readable, Generable, RulesAre, HasGame;
    forall t | t in w.starts
      ensures StartOk(env, w.db.sessions[s := row], w.db.rulesets, w.used + {s}, w.starts[t])
    {
      assert StartOk(env, w.db.sessions, w.db.rulesets, w.used, w.starts[t]);
    }
  }

  lemma {:induction false} CreatedFiles(env: Env, w: World, s: Id, row: SessionRow)
    requires Inv(env, w) && Unheard(w, s) && !HasGame(row)
    ensures FilesOk(env, w.db.sessions[s := row], w.db.files)
    ensures TurnsOk(env, w.db.sessions[s := row].Keys, w.db.files, w.used + {s}, w.turns)
    ensures HistoryOk(w.db.sessions[s := row].Keys, w.db.files, w.used + {s}, w.inserted, w.announced)
  {
    hide RosterOk, LinksOk, OriginsOk, StartsOk, Readable, HasGame, FromSessionFiles, OnlyOrdersAdded;
    forall k | k in w.db.files
      ensures FileOk(env, w.db.sessions[s := row], w.db.files, k)
    {
      assert FileOk(env, w.db.sessions, w.db.files, k);
    }
    forall t | t in w.turns
      ensures TurnOk(env, w.db.sessions[s := row].Keys, w.db.files, w.used + {s}, w.turns[t])
    {
      assert TurnOk(env, w.db.sessions.Keys, w.db.files, w.used, w.turns[t]);
    }
  }

  // ---- Editing a session

  /** Exactly which updates keep the invariant: the state they write has no game, and the session has
      no rules, or, if there is none, nothing was ever stored or is in flight for its id. An update of
      any other session breaks it, because the row that it writes links to no rules. */
  lemma {:induction false} EditKeepsInvIff(env: Env, w: World, principal: Principal, path: Id, body: SessionBody)
    requires Inv(env, w) && EditSession(w.db, principal, path, body).Ok?
    ensures Inv(env, Edited(w, principal, path, body)) <==>
            && (body.state == Some(Pending) || body.state == Some(Starting))
            && if body.id in w.db.sessions then w.db.sessions[body.id].rulesetId.None? else Unheard(w, body.id)
  {
    hide Inv, IsAuthorizedManager, CanUpsert, Replaced, RulesAre, Unheard, HasGame;
    var s, row := body.id, SessionRow(body.name, body.isPrivate, body.state.value, body.rulesIsSet, None);
    var v := w.(db := w.db.(sessions := w.db.sessions[s := row]), used := w.used + {s});
    SameInv(env, v, Edited(w, principal, path, body));
    GameStates(row);
    if Inv(env, v) {
      EditMustBeHarmless(env, w, s, row);
    } else if !HasGame(row) && if s in w.db.sessions then w.db.sessions[s].rulesetId.None? else Unheard(w, s) {
      HarmlessRow(env, w, s, row);
    }
  }

  lemma GameStates(row: SessionRow)
    ensures !HasGame(row) <==> row.state == Pending || row.state == Starting
  {
  }

  /** The invariant does not look at memberships. */
  lemma SameInv(env: Env, v: World, w: World)
    requires v == w.(db := w.db.(members := v.db.members))
    ensures Inv(env, v) <==> Inv(env, w)
  {
    hide RosterOk, LinksOk, FilesOk, OriginsOk, StartsOk, TurnsOk, HistoryOk;
  }

  lemma {:induction false} HarmlessRow(env: Env, w: World, s: Id, row: SessionRow)
    requires Inv(env, w) && !HasGame(row) && row.rulesetId.None?
    requires if s in w.db.sessions then w.db.sessions[s].rulesetId.None? else Unheard(w, s)
    ensures Inv(env, w.(db := w.db.(sessions := w.db.sessions[s := row]), used := w.used + {s}))
  {
    hide RosterOk, LinksOk, FilesOk, OriginsOk, StartsOk, TurnsOk, HistoryOk, HasGame, Unheard;
    if s in w.db.sessions {
      NoRulesNoGame(env, w, s);
      ChangeRow(env, w, s, row);
      MoreUsed(env, w.(db := w.db.(sessions := w.db.sessions[s := row])), s);
    } else {
      CreatedRows(env, w, s, row);
      CreatedFiles(env, w, s, row);
    }
  }

  lemma {:induction false} NoRulesNoGame(env: Env, w: World, s: Id)
    requires Inv(env, w) && s in w.db.sessions && w.db.sessions[s].rulesetId.None?
    ensures !HasGame(w.db.sessions[s]) && forall t :: t in w.starts ==> w.starts[t].gen.session != s
  {
    hide RosterOk, LinksOk, FilesOk, TurnsOk, HistoryOk, Readable, Generable, HasGame;
    forall t | t in w.starts
      ensures w.starts[t].gen.session != s
    {
      assert StartOk(env, w.db.sessions, w.db.rulesets, w.used, w.starts[t]);
    }
  }

  lemma {:induction false} EditMustBeHarmless(env: Env, w: World, s: Id, row: SessionRow)
    requires Inv(env, w) && row.rulesetId.None?
    requires Inv(env, w.(db := w.db.(sessions := w.db.sessions[s := row]), used := w.used + {s}))
    ensures !HasGame(row)
    ensures if s in w.db.sessions then w.db.sessions[s].rulesetId.None? else Unheard(w, s)
  {
    hide Inv;
    var v := w.(db := w.db.(sessions := w.db.sessions[s := row]), used := w.used + {s});
    NoRulesNoGame(env, v, s);
    if s in w.db.sessions {
      SameLink(env, w, v, s);
    } else {
      NothingStoredFor(env, w, v, s);
    }
  }

  lemma SameLink(env: Env, w: World, v: World, s: Id)
    requires Inv(env, w) && Inv(env, v) && v.db.rulesets == w.db.rulesets
    requires s in w.db.sessions && s in v.db.sessions
    ensures v.db.sessions[s].rulesetId == w.db.sessions[s].rulesetId
  {
    hide RosterOk, FilesOk, OriginsOk, StartsOk, TurnsOk, HistoryOk, IsRulesetOf;
    var a, b := w.db.sessions[s].rulesetId, v.db.sessions[s].rulesetId;
    assert a.Some? ==> IsRulesetOf(w.db.rulesets, s, a.value);
    assert b.Some? ==> IsRulesetOf(v.db.rulesets, s, b.value);
  }

  lemma {:induction false} NothingStoredFor(env: Env, w: World, v: World, s: Id)
    requires Inv(env, w) && Inv(env, v) && v.db.files == w.db.files && v.turns == w.turns && v.starts == w.starts
    requires v.inserted == w.inserted && s !in w.db.sessions && s in v.db.sessions
    requires forall t :: t in v.starts ==> v.starts[t].gen.session != s
    ensures Unheard(w, s)
  {
    hide RosterOk, LinksOk, OriginsOk, StartsOk, Readable, HasGame;
    forall k | k in w.db.files
      ensures k.sessionId != s
    {
      assert FileOk(env, w.db.sessions, w.db.files, k);
    }
    forall t | t in w.turns
      ensures w.turns[t].job.session != s
    {
      assert TurnOk(env, v.db.sessions.Keys, v.db.files, v.used, v.turns[t]);
    }
  }

  lemma {:induction false} EditStepKeepsInv(env: Env, w: World, step: Step)
    requires Inv(env, w) && step.Edit? && NextDb(w, step).Some?
    ensures Inv(env, NextDb(w, step).value)
  {
    hide Inv, EditSession, Unheard;
    var Edit(principal, path, body) := step;
    if EditSession(w.db, principal, path, body).Ok? {
      if body.id !in w.used {
        UnusedIsUnheard(env, w, body.id);
      }
      EditKeepsInvIff(env, w, principal, path, body);
    }
  }

  /** Memberships and invitations are not part of the invariant; rosters have their own lemmas. */
  lemma {:induction false} OthersKeepInv(env: Env, w: World, step: Step)
    requires Inv(env, w) && NextDb(w, step).Some?
    requires !step.ToArchive? && !step.PutRules? && !step.Delete? && !step.CreateSession? && !step.Edit?
    ensures Inv(env, NextDb(w, step).value)
  {
    hide RosterOk, LinksOk, FilesOk, OriginsOk, StartsOk, TurnsOk, HistoryOk, Registered, IsMaxOrder, IsRoster,
      AfterSteps, RaceInUse, Memberships;
    var db := w.db;
    match step
    case Register(principal, session, params, newId, maxOrder) =>
      if Registered(db, principal, session, params, newId, NextOrder(maxOrder)).Ok? {
        UserKeepsRoster(db, principal, session, params, newId, maxOrder);
      }
    case AddRace(principal, newId, data, accepted) => RaceStepsKeepRoster(db, principal, "", newId, data, accepted);
    case DropRace(principal, pathUser, raceId) => RaceStepsKeepRoster(db, principal, pathUser, raceId, "", true);
    case RemovePlayers(gone) => RemovalKeepsRoster(db.players, db.races, gone);
    case Normalise(session, roster) => NormaliseKeepsRoster(db.players, db.races, session, roster);
    case SetReady(player, ready) => ReadyKeepsRoster(db.players, db.races, player, ready);
    case _ =>
  }

  lemma {:induction false} StepKeepsInv(env: Env, w: World, step: Step)
    requires Inv(env, w) && Next(env, w, step).Some?
    ensures Inv(env, Next(env, w, step).value)
  {
    hide Inv, NextStart, NextTurn, NextDb;
    match step
    case Begin(_, _, _, _) => BeginKeepsInv(env, w, step);
    case Produce(_, _) => PhaseKeepsInv(env, w, step);
    case Fail(_) => PhaseKeepsInv(env, w, step);
    case Crash(_) => PhaseKeepsInv(env, w, step);
    case Save(_) => SaveKeepsInv(env, w, step);
    case Revert(_) => RevertKeepsInv(env, w, step);
    case TakeTurn(_, _, _, _) => TakeTurnKeepsInv(env, w, step);
    case WriteTurn(_, _) => WriteTurnKeepsInv(env, w, step);
    case DropTurn(t) => DropTurnKeepsInv(env, w, t);
    case Submit(_, _, _, _, _) => SubmitKeepsInv(env, w, step);
    case Edit(_, _, _) => EditStepKeepsInv(env, w, step);
    case ToArchive(_, _) => ArchiveKeepsInv(env, w, step);
    case PutRules(_, _, _, _, _, _) => RulesKeepInv(env, w, step);
    case Delete(_, _) => DeleteKeepsInv(env, w, step);
    case CreateSession(_, _, _, _, _) => CreateKeepsInv(env, w, step);
    case _ => OthersKeepInv(env, w, step);
  }

  lemma DropTurnKeepsInv(env: Env, w: World, t: Token)
    requires Inv(env, w) && NextTurn(env, w, DropTurn(t)).Some?
    ensures Inv(env, NextTurn(env, w, DropTurn(t)).value)
  {
    hide Inv;
    ForgetTurn(env, w, t);
  }

  /** Every world that can be reached satisfies the invariant. */
  lemma {:induction false} RunKeepsInv(env: Env, w: World, steps: seq<Step>)
    requires Inv(env, w) && Run(env, w, steps).Some?
    ensures Inv(env, Run(env, w, steps).value)
  {
    hide Inv, Next;
    if steps != [] {
      RunKeepsInv(env, w, steps[..|steps| - 1]);
      StepKeepsInv(env, Run(env, w, steps[..|steps| - 1]).value, steps[|steps| - 1]);
    }
  }

  lemma InitSatisfiesInv(env: Env, w: World)
    requires Init(w)
    ensures Inv(env, w)
  {
  }
}

/** What the invariant means for the sessions, the files and the rules, over every run. */
module Safety {
  import opened Common
  import Base64
  import opened Relations
  import opened GameFiles
  import opened Database
  import opened Roster
  import opened Slots
  import opened NewGame
  import opened Sessions
  import opened GameStart
  import opened Turns
  import opened Protocol

  // ---- Starts in flight

  /** In every reachable world: a session has at most one start in flight, and while it has one it
      is "starting", with its row as phase 1 left it, or it has been deleted. */
  lemma OneStartInFlight(env: Env, init: World, steps: seq<Step>, t: Token, u: Token)
    requires Init(init) && Run(env, init, steps).Some?
    ensures var w := Run(env, init, steps).value;
            t in w.starts ==>
              && (u in w.starts && w.starts[u].gen.session == w.starts[t].gen.session ==> u == t)
              && (w.starts[t].gen.session in w.db.sessions ==>
                    w.db.sessions[w.starts[t].gen.session] == w.starts[t].gen.snapshot
                    && w.starts[t].gen.snapshot.state == Starting)
  {
    hide Run, RosterOk, LinksOk, FilesOk, OriginsOk, TurnsOk, HistoryOk, Generable, RulesAre, Readable;
    Reachable(env, init, steps);
    var w := Run(env, init, steps).value;
    if t in w.starts {
      assert StartOk(env, w.db.sessions, w.db.rulesets, w.used, w.starts[t]);
    }
  }

  lemma Reachable(env: Env, init: World, steps: seq<Step>)
    requires Init(init) && Run(env, init, steps).Some?
    ensures Inv(env, Run(env, init, steps).value)
  {
    hide Inv, Run, Init;
    InitSatisfiesInv(env, init);
    RunKeepsInv(env, init, steps);
  }

  /** No start in flight can fail for want of a race file or a bot level. */
  lemma StartsAreGenerable(env: Env, init: World, steps: seq<Step>, t: Token)
    requires Init(init) && Run(env, init, steps).Some?
    ensures var w := Run(env, init, steps).value; t in w.starts ==> Generable(w.starts[t].gen)
  {
    hide Run, RosterOk, LinksOk, FilesOk, OriginsOk, TurnsOk, HistoryOk, Generable, RulesAre, Readable;
    Reachable(env, init, steps);
    var w := Run(env, init, steps).value;
    if t in w.starts {
      assert StartOk(env, w.db.sessions, w.db.rulesets, w.used, w.starts[t]);
    }
  }

  // ---- States

  predicate Moves(a: SessionState, b: SessionState) {
    || a == b
    || (a == Pending && b == Starting)
    || (a == Starting && (b == Started || b == Pending))
    || (a == Started && b == Archived)
  }

  /** What a step may do to a session that is still there afterwards: its state moves along pending,
      starting, started or back to pending, archived; its stored files stay as they are; and so does
      the record of the rules its universe was made from. A deleted session never comes back. */
  ghost predicate Evolves(w: World, v: World, s: Id) {
    && w.used <= v.used
    && (s in w.used && s in v.db.sessions ==>
          && s in w.db.sessions
          && Moves(w.db.sessions[s].state, v.db.sessions[s].state)
          && FilesStay(w, v, s)
          && (HasGame(w.db.sessions[s]) && s in w.origins ==> s in v.origins && v.origins[s] == w.origins[s]))
  }

  ghost predicate FilesStay(w: World, v: World, s: Id) {
    forall y :: FileKey(s, y) in w.db.files ==>
      FileKey(s, y) in v.db.files && v.db.files[FileKey(s, y)] == w.db.files[FileKey(s, y)]
  }

  /** Neither the sessions nor their files are touched. */
  ghost predicate SameGames(w: World, v: World) {
    v.db.sessions == w.db.sessions && v.db.files == w.db.files && v.origins == w.origins && v.used == w.used
  }

  lemma SameEvolves(w: World, v: World, s: Id)
    requires SameGames(w, v)
    ensures Evolves(w, v, s)
  {
  }

  lemma {:induction false} BeginEvolves(env: Env, w: World, step: Step, s: Id)
    requires Inv(env, w) && step.Begin? && NextStart(env, w, step).Some?
    ensures Evolves(w, NextStart(env, w, step).value, s)
  {
    hide Inv, AnswersOk, Slotted, SlotsFit, AfterSteps, JoinedByOwner, AllValid, AllReady, IsAuthorizedManager;
    SelectionOf(w.db, step.session, step.answers);
  }

  lemma {:induction false} PhaseLeavesGames(env: Env, w: World, step: Step)
    requires (step.Produce? || step.Fail? || step.Crash?) && NextStart(env, w, step).Some?
    ensures SameGames(w, NextStart(env, w, step).value)
  {
    hide Generable, NewFiles;
  }

  /** In both cases the row in front of the step is "starting". */
  lemma StartsFromStarting(env: Env, w: World, t: Token)
    requires Inv(env, w) && t in w.starts && w.starts[t].gen.session in w.db.sessions
    ensures w.db.sessions[w.starts[t].gen.session].state == Starting
  {
    hide RosterOk, LinksOk, FilesOk, OriginsOk, TurnsOk, HistoryOk, Generable, RulesAre, Readable;
    assert StartOk(env, w.db.sessions, w.db.rulesets, w.used, w.starts[t]);
  }

  lemma SaveEvolves(env: Env, w: World, step: Step, s: Id)
    requires Inv(env, w) && step.Save? && NextStart(env, w, step).Some?
    ensures Evolves(w, NextStart(env, w, step).value, s)
  {
    hide Inv, SaveStart;
    var gen, files := w.starts[step.token].gen, w.starts[step.token].phase.files;
    if SaveStart(w.db, gen, files).Ok? {
      SavedTables(w.db, gen, files);
      StartsFromStarting(env, w, step.token);
    } else {
      SameEvolves(w, NextStart(env, w, step).value, s);
    }
  }

  lemma SavedTables(db: Database, gen: Generation, files: SessionFiles)
    requires SaveStart(db, gen, files).Ok?
    ensures var key, saved := FileKey(gen.session, files.year), SaveStart(db, gen, files).value;
            && gen.session in db.sessions && key !in db.files && saved.files == db.files[key := files]
            && saved.sessions == db.sessions[gen.session := gen.snapshot.(state := Started)]
  {
  }

  lemma RevertEvolves(env: Env, w: World, step: Step, s: Id)
    requires Inv(env, w) && step.Revert? && NextStart(env, w, step).Some?
    ensures Evolves(w, NextStart(env, w, step).value, s)
  {
    hide Inv;
    if w.starts[step.token].gen.session in w.db.sessions {
      StartsFromStarting(env, w, step.token);
    }
  }

  lemma {:induction false} StartEvolves(env: Env, w: World, step: Step, s: Id)
    requires Inv(env, w)
    requires step.Begin? || step.Produce? || step.Fail? || step.Save? || step.Revert? || step.Crash?
    requires NextStart(env, w, step).Some?
    ensures Evolves(w, NextStart(env, w, step).value, s)
  {
    hide Inv, NextStart, Evolves, SameGames;
    if step.Begin? {
      BeginEvolves(env, w, step, s);
    } else if step.Save? {
      SaveEvolves(env, w, step, s);
    } else if step.Revert? {
      RevertEvolves(env, w, step, s);
    } else {
      PhaseLeavesGames(env, w, step);
      SameEvolves(w, NextStart(env, w, step).value, s);
    }
  }

  lemma {:induction false} TurnEvolves(env: Env, w: World, step: Step, s: Id)
    requires step.TakeTurn? || step.WriteTurn? || step.DropTurn?
    requires NextTurn(env, w, step).Some?
    ensures Evolves(w, NextTurn(env, w, step).value, s)
  {
    hide IsRoster, ReadTurn, NewFiles;
  }

  /** What submitting orders does, if it does anything: one order, that of the caller's slot, is added
      to the files of one year. */
  ghost predicate OrdersAdded(w: World, v: World, step: Step)
    requires step.Submit?
  {
    || v == w
    || var key := FileKey(step.session, step.year);
       && step.accepted && key in w.db.files && key in v.db.files
       && step.player in w.db.players && w.db.players[step.player].sessionId == step.session
       && OneOrderAdded(w.db.files[key], v.db.files[key], w.db.players[step.player].order, step.data)
       && (forall k :: k != key ==> Entry(v.db.files, k) == Entry(w.db.files, k))
       && v == w.(db := w.db.(files := v.db.files))
  }

  lemma {:induction false} SubmitAddsOrders(env: Env, w: World, step: Step)
    requires step.Submit? && NextTurn(env, w, step).Some?
    ensures OrdersAdded(w, NextTurn(env, w, step).value, step)
  {
    hide IsLastYear, WithOrder, Base64.Decode, OneOrderAdded, SameSession;
    var Submit(session, player, year, data, accepted) := step;
    SubmitsIff(w.db, session, player, year, data, accepted);
    hide SubmitOrder;
  }

  lemma MoreThanBefore(f: SessionFiles, g: SessionFiles, slot: int, data: string)
    requires OneOrderAdded(f, g, slot, data)
    ensures OnlyOrdersAdded(f, g)
  {
  }

  lemma NothingAdded(f: SessionFiles)
    ensures OnlyOrdersAdded(f, f)
  {
  }

  predicate ChangesSessions(step: Step) {
    step.CreateSession? || step.Edit? || step.Delete? || step.ToArchive? || step.PutRules?
  }

  lemma {:induction false} DbLeavesGames(w: World, step: Step)
    requires NextDb(w, step).Some? && !ChangesSessions(step)
    ensures SameGames(w, NextDb(w, step).value) && NextDb(w, step).value.starts == w.starts
  {
    hide Registered, RaceInUse, Memberships, IsRoster, IsMaxOrder, AfterSteps, IsMember, IsPublic, InvitationFound;
  }

  lemma {:induction false} CreateEvolves(w: World, step: Step, s: Id)
    requires step.CreateSession? && NextDb(w, step).Some?
    ensures Evolves(w, NextDb(w, step).value, s)
  {
    hide CanUpsert, Replaced;
  }

  lemma {:induction false} EditEvolves(w: World, step: Step, s: Id)
    requires step.Edit? && NextDb(w, step).Some?
    requires forall o :: o in w.db.sessions && HasGame(w.db.sessions[o]) ==> w.db.sessions[o].rulesetId.Some?
    ensures Evolves(w, NextDb(w, step).value, s)
  {
    EditIsEdited(w, step);
    hide NextDb;
    if EditSession(w.db, step.principal, step.session, step.body).Ok? {
      EditedRow(w, step.principal, step.session, step.body);
      hide EditSession;
    } else {
      SameEvolves(w, w, s);
    }
  }

  lemma EditIsEdited(w: World, step: Step)
    requires step.Edit? && NextDb(w, step).Some?
    ensures NextDb(w, step).value == Edited(w, step.principal, step.session, step.body) && HarmlessEdit(w, step.body)
  {
    hide HarmlessEdit, Edited;
  }

  /** An update writes the one row. */
  lemma EditedRow(w: World, principal: Principal, path: Id, body: SessionBody)
    requires EditSession(w.db, principal, path, body).Ok?
    ensures var v := Edited(w, principal, path, body);
            && body.state.Some?
            && v.db.sessions == w.db.sessions[body.id :=
                 SessionRow(body.name, body.isPrivate, body.state.value, body.rulesIsSet, None)]
            && v.db.files == w.db.files && v.origins == w.origins && v.used == w.used + {body.id}
            && v.starts == w.starts
  {
    hide CanUpsert, Replaced, IsAuthorizedManager;
  }

  lemma {:induction false} DeleteEvolves(w: World, step: Step, s: Id)
    requires step.Delete? && NextDb(w, step).Some?
    ensures Evolves(w, NextDb(w, step).value, s)
  {
    hide IsAuthorizedManager;
  }

  lemma ArchiveEvolves(w: World, principal: Principal, session: Id, s: Id)
    ensures Evolves(w, InDb(w, Archive(w.db, principal, session)), s)
  {
    hide IsAuthorizedManager;
  }

  lemma RulesEvolve(
      w: World, principal: Principal, session: Id, rules: Rules, found: Option<Id>, newId: Id, accepted: bool, s: Id)
    ensures Evolves(w, InDb(w, SetRules(w.db, principal, session, rules, found, newId, accepted)), s)
  {
    hide IsManager, Clamped;
  }

  lemma RowSteps(w: World, step: Step)
    requires NextDb(w, step).Some?
    ensures step.ToArchive? ==> NextDb(w, step).value == InDb(w, Archive(w.db, step.principal, step.session))
    ensures step.PutRules? ==>
              var PutRules(principal, session, rules, found, newId, accepted) := step;
              var outcome := SetRules(w.db, principal, session, rules, found, newId, accepted);
              NextDb(w, step).value == InDb(w, outcome)
  {
    hide RulesetFound, Archive, SetRules, InDb;
  }

  lemma GamesHaveRules(env: Env, w: World)
    requires Inv(env, w)
    ensures forall o :: o in w.db.sessions && HasGame(w.db.sessions[o]) ==> w.db.sessions[o].rulesetId.Some?
  {
    hide RosterOk, LinksOk, FilesOk, StartsOk, TurnsOk, HistoryOk, HasGame;
  }

  lemma {:induction false} DbEvolves(env: Env, w: World, step: Step, s: Id)
    requires Inv(env, w) && NextDb(w, step).Some?
    ensures Evolves(w, NextDb(w, step).value, s)
  {
    hide NextDb, Evolves, SameGames, Inv;
    if step.CreateSession? {
      CreateEvolves(w, step, s);
    } else if step.Edit? {
      GamesHaveRules(env, w);
      EditEvolves(w, step, s);
    } else if step.Delete? {
      DeleteEvolves(w, step, s);
    } else if step.ToArchive? {
      ArchiveEvolves(w, step.principal, step.session, s);
      RowSteps(w, step);
    } else if step.PutRules? {
      RulesEvolve(w, step.principal, step.session, step.rules, step.found, step.newId, step.accepted, s);
      RowSteps(w, step);
    } else {
      DbLeavesGames(w, step);
      SameEvolves(w, NextDb(w, step).value, s);
    }
  }

  /** Every step but a submission of orders leaves the stored files of a session as they are, turn
      generation included. */
  lemma {:induction false} StepEvolves(env: Env, w: World, step: Step, s: Id)
    requires Inv(env, w) && Next(env, w, step).Some?
    ensures var v := Next(env, w, step).value;
            if step.Submit? then OrdersAdded(w, v, step) else Evolves(w, v, s)
  {
    hide Inv, NextStart, NextTurn, NextDb, Evolves, OrdersAdded;
    if step.Begin? || step.Produce? || step.Fail? || step.Save? || step.Revert? || step.Crash? {
      StartEvolves(env, w, step, s);
    } else if step.TakeTurn? || step.WriteTurn? || step.DropTurn? {
      TurnEvolves(env, w, step, s);
    } else if step.Submit? {
      SubmitAddsOrders(env, w, step);
    } else {
      DbEvolves(env, w, step, s);
    }
  }

  /** What lasts from `w` to a later `v`, for a session that is still there. */
  ghost predicate Lasts(w: World, v: World, s: Id, y: int) {
    && w.used <= v.used
    && (s in w.used && s in v.db.sessions ==>
          && s in w.db.sessions
          && (HasGame(w.db.sessions[s]) ==> HasGame(v.db.sessions[s]))
          && (FileKey(s, y) in w.db.files ==>
                FileKey(s, y) in v.db.files && OnlyOrdersAdded(w.db.files[FileKey(s, y)], v.db.files[FileKey(s, y)]))
          && (HasGame(w.db.sessions[s]) && s in w.origins ==> s in v.origins && v.origins[s] == w.origins[s]))
  }

  lemma StepLasts(env: Env, w: World, step: Step, s: Id, y: int)
    requires Inv(env, w) && Next(env, w, step).Some?
    ensures Lasts(w, Next(env, w, step).value, s, y)
  {
    hide Next, Inv, OnlyOrdersAdded, OneOrderAdded;
    StepEvolves(env, w, step, s);
    LiveIsUsed(env, w);
    var v := Next(env, w, step).value;
    if FileKey(s, y) in w.db.files {
      NothingAdded(w.db.files[FileKey(s, y)]);
      if step.Submit? && v != w && FileKey(s, y) == FileKey(step.session, step.year) {
        var slot := w.db.players[step.player].order;
        MoreThanBefore(w.db.files[FileKey(s, y)], v.db.files[FileKey(s, y)], slot, step.data);
      }
    }
    if step.Submit? && v != w && FileKey(s, y) != FileKey(step.session, step.year) {
      assert Entry(v.db.files, FileKey(s, y)) == Entry(w.db.files, FileKey(s, y));
    }
  }

  lemma LastsTwice(u: World, v: World, w: World, s: Id, y: int)
    requires Lasts(u, v, s, y) && Lasts(v, w, s, y)
    ensures Lasts(u, w, s, y)
  {
    hide OnlyOrdersAdded, HasGame;
    if FileKey(s, y) in u.db.files && FileKey(s, y) in v.db.files && FileKey(s, y) in w.db.files {
      var f, g, h := u.db.files[FileKey(s, y)], v.db.files[FileKey(s, y)], w.db.files[FileKey(s, y)];
      if OnlyOrdersAdded(f, g) && OnlyOrdersAdded(g, h) {
        OnlyOrdersAddedTwice(f, g, h);
      }
    }
  }

  /** Over any run: as long as a session is not deleted, a game once started is never un-started, to
      its stored years nothing but missing orders is ever added and none is removed, and the rules it
      was generated from stand. A deleted session does not come back. */
  lemma {:induction false} GamesLast(env: Env, w: World, steps: seq<Step>, s: Id, y: int)
    requires Inv(env, w) && Run(env, w, steps).Some?
    ensures Lasts(w, Run(env, w, steps).value, s, y)
  {
    hide Inv, Next, Lasts;
    if steps == [] {
      NothingLost(w, s, y);
    } else {
      var init := steps[..|steps| - 1];
      GamesLast(env, w, init, s, y);
      RunKeepsInv(env, w, init);
      StepLasts(env, Run(env, w, init).value, steps[|steps| - 1], s, y);
      LastsTwice(w, Run(env, w, init).value, Run(env, w, steps).value, s, y);
    }
  }

  lemma NothingLost(w: World, s: Id, y: int)
    ensures Lasts(w, w, s, y)
  {
  }

  // ---- Files

  /** A session has files exactly when it has been started, and then it has a contiguous stretch of
      years from 2400 on. */
  lemma {:induction false} YearsHaveNoGap(env: Env, init: World, steps: seq<Step>, s: Id) returns (n: nat)
    requires Init(init) && Run(env, init, steps).Some?
    ensures var w := Run(env, init, steps).value;
            && (forall y :: FileKey(s, y) in w.db.files <==> FIRST_YEAR <= y < FIRST_YEAR + n)
            && (n > 0 <==> s in w.db.sessions && HasGame(w.db.sessions[s]))
  {
    hide Run, RosterOk, LinksOk, OriginsOk, StartsOk, TurnsOk, HistoryOk, Readable, HasGame;
    Reachable(env, init, steps);
    var w := Run(env, init, steps).value;
    n := LastYear(env, w, s, w.db.files.Keys);
    forall y | FileKey(s, y) in w.db.files
      ensures FIRST_YEAR <= y
      ensures s in w.db.sessions && HasGame(w.db.sessions[s])
    {
      assert FileOk(env, w.db.sessions, w.db.files, FileKey(s, y));
    }
    assert n > 0 <==> FileKey(s, FIRST_YEAR) in w.db.files;
  }

  /** One above the highest stored year, counted from the first, with every year below it stored. */
  lemma {:induction false} LastYear(env: Env, w: World, s: Id, keys: set<FileKey>) returns (n: nat)
    requires FilesOk(env, w.db.sessions, w.db.files) && keys <= w.db.files.Keys
    ensures forall y :: FileKey(s, y) in keys ==> y < FIRST_YEAR + n
    ensures forall y :: FIRST_YEAR <= y < FIRST_YEAR + n ==> FileKey(s, y) in w.db.files
    decreases |keys|
  {
    hide FilesOk;
    if y :| FileKey(s, y) in keys {
      n := LastYear(env, w, s, keys - {FileKey(s, y)});
      if y >= FIRST_YEAR + n {
        AllBelow(env, w, s, y);
        n := y - FIRST_YEAR + 1;
      }
    } else {
      n := 0;
    }
  }

  lemma {:induction false} AllBelow(env: Env, w: World, s: Id, y: int)
    requires FilesOk(env, w.db.sessions, w.db.files) && FileKey(s, y) in w.db.files
    ensures y >= FIRST_YEAR
    ensures forall z :: FIRST_YEAR <= z <= y ==> FileKey(s, z) in w.db.files
    decreases y - FIRST_YEAR
  {
    hide Readable, HasGame;
    assert FileOk(env, w.db.sessions, w.db.files, FileKey(s, y));
    if y > FIRST_YEAR {
      AllBelow(env, w, s, y - 1);
    }
  }

  /** Every year that was announced was inserted, and is stored as long as its session is there; the
      stored files carry that year in their own host file. However often, late or out of order the
      messages arrive. */
  lemma AnnouncedYearsAreStored(env: Env, init: World, steps: seq<Step>, s: Id, y: int)
    requires Init(init) && Run(env, init, steps).Some?
    ensures var w := Run(env, init, steps).value;
            FileKey(s, y) in w.announced ==>
              && FileKey(s, y) in w.inserted
              && (s in w.db.sessions ==>
                    && FileKey(s, y) in w.db.files && w.db.files[FileKey(s, y)].year == y
                    && Readable(env, w.db.files[FileKey(s, y)]))
  {
    hide Run, RosterOk, LinksOk, OriginsOk, StartsOk, TurnsOk, Readable, HasGame;
    Reachable(env, init, steps);
    var w := Run(env, init, steps).value;
    if FileKey(s, y) in w.announced && s in w.db.sessions {
      assert FileOk(env, w.db.sessions, w.db.files, FileKey(s, y));
    }
  }

  // ---- Rules

  /** The one ruleset of a session with a game is the one its universe was generated from, and the
      session's row still links to it. */
  lemma RulesOfTheUniverse(env: Env, init: World, steps: seq<Step>, s: Id) returns (r: Id)
    requires Init(init) && Run(env, init, steps).Some?
    requires s in Run(env, init, steps).value.db.sessions && HasGame(Run(env, init, steps).value.db.sessions[s])
    ensures var w := Run(env, init, steps).value;
            && IsRulesetOf(w.db.rulesets, s, r) && (forall q :: IsRulesetOf(w.db.rulesets, s, q) ==> q == r)
            && w.db.sessions[s].rulesetId == Some(r)
            && s in w.origins && w.db.rulesets[r].rules == w.origins[s]
  {
    hide Run, RosterOk, FilesOk, StartsOk, TurnsOk, HistoryOk, HasGame, IsRulesetOf;
    Reachable(env, init, steps);
    var w := Run(env, init, steps).value;
    r := w.db.sessions[s].rulesetId.value;
    assert w.db.sessions[s].rulesetId == Some(r);
  }

  /** A save that commits records the rules that phase 1 read and changes nothing of the session's
      row but its state. */
  lemma SaveRecordsRules(env: Env, w: World, t: Token)
    requires Inv(env, w) && Next(env, w, Save(t)).Some? && t !in Next(env, w, Save(t)).value.starts
    ensures var v, s := Next(env, w, Save(t)).value, w.starts[t].gen.session;
            && s in w.db.sessions && s in v.db.sessions && v.db.sessions[s] == w.db.sessions[s].(state := Started)
            && v.db.sessions[s].rulesetId.Some?
            && s in v.origins && v.origins[s] == w.starts[t].gen.rules
  {
    hide Inv, IsRulesetOf;
    if w.starts[t].gen.session in w.db.sessions {
      SaveKeepsTheRow(env, w, t);
    }
  }

  // ---- Rosters

  /** In every reachable world every roster is in order. */
  lemma RostersAreOk(env: Env, init: World, steps: seq<Step>)
    requires Init(init) && Run(env, init, steps).Some?
    ensures RosterOk(Run(env, init, steps).value.db.players, Run(env, init, steps).value.db.races)
  {
    hide Run, RosterOk;
    Reachable(env, init, steps);
  }

  // ---- What is not promised

  /** Left "starting" by a start that crashed or could not be reverted. */
  ghost predicate Orphan(w: World, s: Id) {
    && s in w.db.sessions && w.db.sessions[s].state == Starting && w.db.sessions[s].rulesetId.Some?
    && forall t :: t in w.starts ==> w.starts[t].gen.session != s
  }

  /** That is what becomes of a session whose start crashes. */
  lemma CrashOrphans(env: Env, w: World, t: Token)
    requires Inv(env, w) && t in w.starts && w.starts[t].gen.session in w.db.sessions
    ensures Next(env, w, Crash(t)).Some? && Orphan(Next(env, w, Crash(t)).value, w.starts[t].gen.session)
  {
    hide RosterOk, LinksOk, FilesOk, OriginsOk, TurnsOk, HistoryOk, Generable, Readable;
    assert StartOk(env, w.db.sessions, w.db.rulesets, w.used, w.starts[t]);
  }

  lemma {:induction false} OrphanAmongStarts(env: Env, w: World, step: Step, s: Id)
    requires step.Begin? || step.Produce? || step.Fail? || step.Save? || step.Revert? || step.Crash?
    requires NextStart(env, w, step).Some? && Orphan(w, s)
    ensures Orphan(NextStart(env, w, step).value, s)
  {
    if step.Begin? {
      OthersBegin(env, w, step, s);
    } else {
      hide Generable, NewFiles, AnswersOk, BeginStart, SaveStart, RevertStart;
      assert w.starts[step.token].gen.session != s;
      OthersFinish(w.db, w.starts[step.token], s);
    }
  }

  lemma OthersFinish(db: Database, start: Start, s: Id)
    requires start.gen.session != s && s in db.sessions
    ensures var reverted := RevertStart(db, start.gen.session);
            s in reverted.sessions && reverted.sessions[s] == db.sessions[s]
    ensures start.phase.Produced? && SaveStart(db, start.gen, start.phase.files).Ok? ==>
              var saved := SaveStart(db, start.gen, start.phase.files).value;
              s in saved.sessions && saved.sessions[s] == db.sessions[s]
  {
  }

  lemma {:induction false} OthersBegin(env: Env, w: World, step: Step, s: Id)
    requires step.Begin? && NextStart(env, w, step).Some? && Orphan(w, s)
    ensures Orphan(NextStart(env, w, step).value, s)
  {
    hide AnswersOk, Slotted, SlotsFit, AfterSteps, JoinedByOwner, AllValid, AllReady, IsAuthorizedManager;
    SelectionOf(w.db, step.session, step.answers);
  }

  lemma TurnLeavesSessions(env: Env, w: World, step: Step)
    requires step.TakeTurn? || step.WriteTurn? || step.DropTurn? || step.Submit?
    requires NextTurn(env, w, step).Some?
    ensures NextTurn(env, w, step).value.db.sessions == w.db.sessions
    ensures NextTurn(env, w, step).value.starts == w.starts
  {
    hide IsRoster, ReadTurn, NewFiles, IsLastYear, WithOrder, Base64.Decode;
  }

  lemma {:induction false} OrphanInDb(env: Env, w: World, step: Step, s: Id)
    requires Inv(env, w) && NextDb(w, step).Some? && Orphan(w, s)
    ensures s in NextDb(w, step).value.db.sessions ==> Orphan(NextDb(w, step).value, s)
  {
    hide NextDb, Inv;
    LiveIsUsed(env, w);
    if step.CreateSession? || step.Delete? {
      OrphanUntouched(w, step, s);
    } else if step.Edit? {
      OrphanNotEdited(w, step, s);
    } else if step.ToArchive? || step.PutRules? {
      OrphanNotMoved(w, step, s);
    } else {
      DbLeavesGames(w, step);
    }
  }

  lemma OrphanNotEdited(w: World, step: Step, s: Id)
    requires step.Edit? && NextDb(w, step).Some? && Orphan(w, s)
    ensures Orphan(NextDb(w, step).value, s)
  {
    hide NextDb, EditSession;
    EditIsEdited(w, step);
    if EditSession(w.db, step.principal, step.session, step.body).Ok? {
      EditedRow(w, step.principal, step.session, step.body);
    }
  }

  lemma OrphanNotMoved(w: World, step: Step, s: Id)
    requires (step.ToArchive? || step.PutRules?) && NextDb(w, step).Some? && Orphan(w, s)
    ensures Orphan(NextDb(w, step).value, s)
  {
    hide NextDb, IsAuthorizedManager, IsManager, Clamped;
    RowSteps(w, step);
  }

  lemma OrphanUntouched(w: World, step: Step, s: Id)
    requires (step.CreateSession? || step.Delete?) && NextDb(w, step).Some?
    requires s in w.db.sessions && s in w.used
    ensures var v := NextDb(w, step).value;
            v.starts == w.starts && (s in v.db.sessions ==> v.db.sessions[s] == w.db.sessions[s])
  {
    hide CanUpsert, Replaced, IsAuthorizedManager;
  }

  lemma {:induction false} OrphanStep(env: Env, w: World, step: Step, s: Id)
    requires Inv(env, w) && Next(env, w, step).Some? && Orphan(w, s)
    ensures s in Next(env, w, step).value.db.sessions ==> Orphan(Next(env, w, step).value, s)
  {
    hide Inv, NextStart, NextTurn, NextDb;
    if step.Begin? || step.Produce? || step.Fail? || step.Save? || step.Revert? || step.Crash? {
      OrphanAmongStarts(env, w, step, s);
    } else if step.TakeTurn? || step.WriteTurn? || step.DropTurn? || step.Submit? {
      TurnLeavesSessions(env, w, step);
    } else {
      OrphanInDb(env, w, step, s);
    }
  }

  /** An orphan stays one, whatever happens, until it is deleted. */
  lemma {:induction false} OrphansStay(env: Env, w: World, steps: seq<Step>, s: Id)
    requires Inv(env, w) && Run(env, w, steps).Some? && Orphan(w, s)
    ensures s in Run(env, w, steps).value.db.sessions ==> Orphan(Run(env, w, steps).value, s)
  {
    hide Inv, Next, Orphan;
    if steps != [] {
      var init := steps[..|steps| - 1];
      OrphansStay(env, w, init, s);
      RunKeepsInv(env, w, init);
      var u := Run(env, w, init).value;
      if s in u.db.sessions {
        OrphanStep(env, u, steps[|steps| - 1], s);
      } else {
        OrphanWasUsed(env, w, s);
        GamesLast(env, w, init, s, 0);
        StepLasts(env, u, steps[|steps| - 1], s, 0);
      }
    }
  }

  lemma OrphanWasUsed(env: Env, w: World, s: Id)
    requires Inv(env, w) && Orphan(w, s)
    ensures s in w.used
  {
    hide Inv;
    LiveIsUsed(env, w);
  }

  /** The run takes the session out of "starting" without deleting it. */
  ghost predicate Frees(env: Env, w: World, steps: seq<Step>, s: Id) {
    var v := Run(env, w, steps);
    v.Some? && s in v.value.db.sessions && v.value.db.sessions[s].state != Starting
  }

  /** A session that is "starting" with rules can get out of it, other than by being deleted, exactly
      when a start of it is in flight. */
  lemma FreeIffInFlight(env: Env, w: World, s: Id)
    requires Inv(env, w)
    requires s in w.db.sessions && w.db.sessions[s].state == Starting && w.db.sessions[s].rulesetId.Some?
    ensures (exists steps :: Frees(env, w, steps, s)) <==> exists t :: t in w.starts && w.starts[t].gen.session == s
  {
    hide Inv, Run;
    if t :| t in w.starts && w.starts[t].gen.session == s {
      var steps := FailAndRevert(env, w, t);
    } else {
      forall steps
        ensures !Frees(env, w, steps, s)
      {
        if Run(env, w, steps).Some? {
          OrphansStay(env, w, steps, s);
        }
      }
    }
  }

  lemma FailAndRevert(env: Env, w: World, t: Token) returns (steps: seq<Step>)
    requires t in w.starts && w.starts[t].gen.session in w.db.sessions
    ensures Frees(env, w, steps, w.starts[t].gen.session)
  {
    var v := w;
    NothingRun(env, w);
    steps := [];
    hide Run;
    if !w.starts[t].phase.Failing? {
      steps, v := ExtendRun(env, w, steps, v, Fail(t));
    }
    steps, v := ExtendRun(env, w, steps, v, Revert(t));
  }

  // ---- Building a run

  lemma ExtendRun(env: Env, init: World, steps: seq<Step>, w: World, step: Step) returns (more: seq<Step>, v: World)
    requires Run(env, init, steps) == Some(w) && Next(env, w, step).Some?
    ensures more == steps + [step] && Next(env, w, step) == Some(v) && Run(env, init, more) == Some(v)
  {
    hide Next;
    more, v := steps + [step], Next(env, w, step).value;
    assert more[..|more| - 1] == steps;
  }

  lemma NothingRun(env: Env, init: World)
    ensures Run(env, init, []) == Some(init)
  {
  }

  // ---- The answers of the queries exist

  lemma {:induction false} RacesListed(races: RaceTable, ids: set<Id>) returns (rows: seq<Race>)
    requires forall id :: id in races ==> races[id].id == id
    requires ids <= races.Keys
    ensures forall i :: 0 <= i < |rows| ==> rows[i].id in ids && races[rows[i].id] == rows[i]
    ensures forall i, j :: 0 <= i < j < |rows| ==> rows[i].id != rows[j].id
    ensures forall id :: id in ids ==> exists i :: 0 <= i < |rows| && rows[i].id == id
    decreases |ids|
  {
    if id :| id in ids {
      var rest := RacesListed(races, ids - {id});
      rows := rest + [races[id]];
      forall other | other in ids
        ensures exists i :: 0 <= i < |rows| && rows[i].id == other
      {
        if other == id {
          assert rows[|rest|].id == id;
        } else {
          assert other in ids - {id};
          var i :| 0 <= i < |rest| && rest[i].id == other;
          assert rows[i].id == other;
        }
      }
    } else {
      rows := [];
    }
  }

  lemma SelectionExists(races: RaceTable, ids: seq<Id>) returns (rows: seq<Race>)
    requires forall id :: id in races ==> races[id].id == id
    ensures IsSelection(races, ids, rows)
  {
    var known := set id | id in ids && id in races;
    rows := RacesListed(races, known);
    forall id | id in ids && id in races
      ensures exists i :: 0 <= i < |rows| && rows[i].id == id
    {
      assert id in known;
    }
  }

  /** Whatever world is reached, the queries of phase 1 have answers for every session, so a start is
      never held up by the way that answers are described: it runs or ends with an error. */
  lemma AnswersExist(env: Env, init: World, steps: seq<Step>, session: Id) returns (a: Answers)
    requires Init(init) && Run(env, init, steps).Some?
    ensures AnswersOk(Run(env, init, steps).value.db, session, a)
  {
    hide Run, LinksOk, FilesOk, OriginsOk, StartsOk, TurnsOk, HistoryOk, IsRoster, IsSelection;
    Reachable(env, init, steps);
    var db := Run(env, init, steps).value.db;
    var roster := RosterExists(db.players, session);
    var races := SelectionExists(db.races, HumanRaceIds(roster));
    var ruleset := None;
    if r :| IsRulesetOf(db.rulesets, session, r) {
      ruleset := Some(r);
    }
    a := Answers(roster, ruleset, races);
  }

  lemma BeginIsNeverBlocked(env: Env, init: World, steps: seq<Step>, principal: Principal, session: Id, t: Token)
    returns (a: Answers)
    requires Init(init) && Run(env, init, steps).Some? && t !in Run(env, init, steps).value.starts
    ensures Next(env, Run(env, init, steps).value, Begin(t, principal, session, a)).Some?
  {
    hide Run, Init, BeginStart, AnswersOk;
    a := AnswersExist(env, init, steps, session);
  }
}

/** Generating later turns, and the orders that go into them. */
module Turns {
  import opened Common
  import opened Base64
  import opened GameFiles
  import opened Database
  import opened NewGame
  import opened GameStart

  // ---- Reading and writing

  /** What the first half of `genTurn` reads. */
  datatype TurnJob = TurnJob(session: Id, year: int, players: seq<Player>, input: GameFiles)

  function ReadTurn(db: Database, session: Id, year: int, roster: seq<Player>): Result<TurnJob, Error> {
    if session !in db.sessions then Err(NotFound)
    else if FileKey(session, year) !in db.files then Err(Failed)
    else
      match FromSessionFiles(db.files[FileKey(session, year)])
      case None => Err(Failed)
      case Some(input) => Ok(TurnJob(session, year, roster, input))
  }

  /** When a turn can be generated from what is stored, and that everything stored goes into it: each
      part of the input is the stored text decoded, and the players are the roster. */
  lemma ReadsIff(db: Database, session: Id, year: int, roster: seq<Player>)
    ensures var r, stored := ReadTurn(db, session, year, roster), Entry(db.files, FileKey(session, year));
            && (r == Err(NotFound) <==> session !in db.sessions)
            && (r.Err? ==> r.error == NotFound || r.error == Failed)
            && (r.Ok? <==>
                  && session in db.sessions && stored.Some?
                  && Decode(stored.value.universe).Some? && Decode(stored.value.hostFile).Some?
                  && (forall i :: 0 <= i < |stored.value.turns| ==> Decode(stored.value.turns[i]).Some?)
                  && (forall i :: 0 <= i < |stored.value.orders| ==> Decode(stored.value.orders[i]).Some?))
            && (r.Ok? ==>
                  && r.value.session == session && r.value.year == year && r.value.players == roster
                  && IsDecoded(stored.value, r.value.input))
  {
    hide Decode;
  }

  /** Each part of the bundle is the text decoded. */
  ghost predicate IsDecoded(stored: SessionFiles, g: GameFiles) {
    && Decode(stored.universe) == Some(g.universe) && Decode(stored.hostFile) == Some(g.hostFile)
    && |g.turns| == |stored.turns| && |g.orders| == |stored.orders|
    && (forall i :: 0 <= i < |g.turns| ==> Decode(stored.turns[i]) == Some(g.turns[i]))
    && (forall i :: 0 <= i < |g.orders| ==> Decode(stored.orders[i]) == Some(g.orders[i]))
  }

  /** A bundle that was stored comes back whole, and every order that makes its slot ready, and no
      other, is in front of stars.exe under its player's number. */
  lemma {:induction false} StoredTurnIsGenerated(
      db: Database, session: Id, year: int, roster: seq<Player>, g: GameFiles, yearOf: HeaderReader)
    requires session in db.sessions && Hydrated(g, yearOf).Some?
    requires Entry(db.files, FileKey(session, year)) == Hydrated(g, yearOf)
    ensures ReadTurn(db, session, year, roster) == Ok(TurnJob(session, year, roster, g))
    ensures var stored, dir := db.files[FileKey(session, year)], TurnDir(map[], g);
            && (forall k: nat :: k < |stored.orders| && Ready(stored.orders)[k] ==>
                  Entry(dir, OrderFile(k + 1)) == Some(g.orders[k]))
            && (forall k: nat :: k >= |stored.orders| || !Ready(stored.orders)[k] ==>
                  Entry(dir, OrderFile(k + 1)) == None)
  {
    hide FromSessionFiles, Encode, TurnDir;
    StoreThenLoad(g, yearOf);
    TurnDirHoldsBundle(g);
    forall k: nat | k < |g.orders|
      ensures Encode(g.orders[k]) == "" <==> g.orders[k] == []
    {
      EncodesToNothing(g.orders[k]);
    }
  }

  lemma EncodesToNothing(b: Bytes)
    ensures Encode(b) == "" <==> b == []
  {
    EncodeFitsBuffer(b);
  }

  /** The directory holds what is stored, decoded: universe, host file, and the orders under their
      players' numbers, where only a text of nothing but newlines yields no file; and nothing else. */
  ghost predicate IsTurnInput(stored: SessionFiles, dir: Dir) {
    && UniverseFile in dir && Decode(stored.universe) == Some(dir[UniverseFile])
    && HostFile in dir && Decode(stored.hostFile) == Some(dir[HostFile])
    && (forall k: nat :: k < |stored.orders| && StripNewlines(stored.orders[k]) != "" ==>
          OrderFile(k + 1) in dir && Decode(stored.orders[k]) == Some(dir[OrderFile(k + 1)]))
    && (forall f :: f in dir ==>
          || f == UniverseFile || f == HostFile
          || (f.OrderFile? && 1 <= f.player <= |stored.orders| && StripNewlines(stored.orders[f.player - 1]) != ""))
  }

  lemma {:induction false} TurnInput(db: Database, session: Id, year: int, roster: seq<Player>)
    requires ReadTurn(db, session, year, roster).Ok?
    ensures FileKey(session, year) in db.files
    ensures IsTurnInput(db.files[FileKey(session, year)],
                        TurnDir(map[], ReadTurn(db, session, year, roster).value.input))
  {
    hide TurnDir, Decode, StripNewlines;
    ReadsIff(db, session, year, roster);
    var stored, g := db.files[FileKey(session, year)], ReadTurn(db, session, year, roster).value.input;
    hide ReadTurn;
    TurnDirHoldsBundle(g);
    forall k: nat | k < |g.orders|
      ensures g.orders[k] == [] <==> StripNewlines(stored.orders[k]) == ""
    {
      DecodesToNothing(stored.orders[k]);
    }
    var dir := TurnDir(map[], g);
    forall k: nat | k < |g.orders| && g.orders[k] != []
      ensures Entry(dir, OrderFile(k + 1)) == Some(g.orders[k])
    {
    }
    forall k: nat | OrderFile(k) in dir
      ensures 1 <= k <= |g.orders| && g.orders[k - 1] != []
    {
      assert Entry(dir, OrderFile(k)).Some?;
    }
  }

  /** The second half: the new files are inserted under the year of their own header. */
  function SaveTurn(db: Database, job: TurnJob, files: SessionFiles): Outcome {
    if !FilesAccepted(db, job.session, files) then Err(Failed)
    else Ok(db.(files := db.files[FileKey(job.session, files.year) := files]))
  }

  /** Both halves with stars.exe in between, which is run in a directory made from the job's input. */
  function Turned(
      env: Env, db: Database, session: Id, year: int, roster: seq<Player>, dir: Dir, stars: Dir -> Option<Dir>)
    : Outcome
  {
    match ReadTurn(db, session, year, roster)
    case Err(e) => Err(e)
    case Ok(job) =>
      match stars(TurnDir(dir, job.input))
      case None => Err(Failed)
      case Some(after) =>
        match NewFiles(env, job.players, after)
        case None => Err(Failed)
        case Some(files) => SaveTurn(db, job, files)
  }

  /** A turn that is stored for a new year is what stars.exe made of what was stored for the year before,
      orders included. */
  ghost predicate MadeFrom(
      env: Env, before: Database, after: Database, session: Id, year: int, roster: seq<Player>, input: Dir,
      stars: Dir -> Option<Dir>)
  {
    && FileKey(session, year) in before.files && IsTurnInput(before.files[FileKey(session, year)], input)
    && stars(input).Some? && NewFiles(env, roster, stars(input).value).Some?
    && var files := NewFiles(env, roster, stars(input).value).value;
       && FileKey(session, files.year) !in before.files
       && after == before.(files := before.files[FileKey(session, files.year) := files])
  }

  lemma TurnsAreMadeFromOrders(
      env: Env, db: Database, session: Id, year: int, roster: seq<Player>, stars: Dir -> Option<Dir>)
    returns (input: Dir)
    requires Turned(env, db, session, year, roster, map[], stars).Ok?
    ensures var after := Turned(env, db, session, year, roster, map[], stars).value;
            MadeFrom(env, db, after, session, year, roster, input, stars)
  {
    hide IsTurnInput, TurnDir, NewFiles;
    TurnInput(db, session, year, roster);
    input := TurnDir(map[], ReadTurn(db, session, year, roster).value.input);
    ReadsIff(db, session, year, roster);
  }

  /** And it is stored whenever there are files of the year, stars.exe makes a complete directory of them,
      and the new year is not there yet. */
  lemma TurnsAreStored(
      env: Env, db: Database, session: Id, year: int, roster: seq<Player>, g: GameFiles, stars: Dir -> Option<Dir>)
    requires session in db.sessions && Entry(db.files, FileKey(session, year)) == Hydrated(g, env.yearOf)
    requires Hydrated(g, env.yearOf).Some? && stars(TurnDir(map[], g)).Some?
    requires NewFiles(env, roster, stars(TurnDir(map[], g)).value).Some?
    ensures var files := NewFiles(env, roster, stars(TurnDir(map[], g)).value).value;
            FileKey(session, files.year) !in db.files && files.year >= 2400 ==>
              Turned(env, db, session, year, roster, map[], stars) ==
              Ok(db.(files := db.files[FileKey(session, files.year) := files]))
  {
    hide TurnDir, NewFiles, Hydrated, ReadTurn;
    StoredTurnIsGenerated(db, session, year, roster, g, env.yearOf);
  }

  /** When it commits and what it writes, in terms of the tables. */
  lemma SavesTurnIff(db: Database, job: TurnJob, files: SessionFiles)
    ensures var outcome, key := SaveTurn(db, job, files), FileKey(job.session, files.year);
            && (outcome.Ok? <==> job.session in db.sessions && key !in db.files && files.year >= 2400)
            && (outcome.Err? ==> outcome.error == Failed)
            && (outcome.Ok? ==>
                  && (forall k :: Entry(outcome.value.files, k) == if k == key then Some(files) else Entry(db.files, k))
                  && (forall o :: o != job.session ==> SameSession(db, outcome.value, o))
                  && outcome.value == db.(files := outcome.value.files))
  {
  }

  class TurnHandler {
    const store: Store
    const env: Env

    constructor (store: Store, env: Env)
      ensures this.store == store && this.env == env
    {
      this.store, this.env := store, env;
    }

    method ReadInput(session: Id, year: int, roster: seq<Player>) returns (r: Result<TurnJob, Error>)
      requires IsRoster(store.db.players, session, roster)
      ensures r == ReadTurn(store.db, session, year, roster)
    {
      hide IsRoster, FromSessionFiles;
      if session !in store.db.sessions {
        return Err(NotFound);
      }
      if FileKey(session, year) !in store.db.files {
        return Err(Failed);
      }
      var input := NewGameFilesFromSessionFiles(store.db.files[FileKey(session, year)]);
      r := if input.None? then Err(Failed) else Ok(TurnJob(session, year, roster, input.value));
    }

    /** Handles one message without interference: it is answered exactly when the stored files of its
        year can be read, stars.exe makes a complete directory of them, and the new year is not there
        yet. The year announced is the one after that of the message. `dir` is the directory of the
        session before, and `stars` what stars.exe makes of a directory, none when it fails. */
    method NeedsGeneration(session: Id, year: int, roster: seq<Player>, dir: Dir, stars: Dir -> Option<Dir>)
      returns (announced: Option<int>)
      requires IsRoster(store.db.players, session, roster)
      modifies store
      ensures var r := Turned(env, old(store.db), session, year, roster, dir, stars);
              store.db == Committed(old(store.db), r) && announced == if r.Ok? then Some(year + 1) else None
    {
      hide IsRoster, FromSessionFiles, TurnFilesOf, Hydrated, TurnDir;
      var job := ReadInput(session, year, roster);
      if job.Err? {
        return None;
      }
      var ready := SaveTurnToSessionDir(dir, job.value.input);
      var after := stars(ready);
      if after.None? {
        return None;
      }
      var gameFiles := GameFilesForTurn(after.value, roster);
      if gameFiles.None? {
        return None;
      }
      var files := HydrateSessionFiles(gameFiles.value, env.yearOf);
      if files.None? || !FilesAccepted(store.db, session, files.value) {
        return None;
      }
      store.db := store.db.(files := store.db.files[FileKey(session, files.value.year) := files.value]);
      announced := Some(year + 1);
    }
  }

  // ---- Submitting orders

  /** The last year of the session. */
  ghost predicate IsLastYear(files: map<FileKey, SessionFiles>, session: Id, year: int) {
    && FileKey(session, year) in files
    && forall y :: FileKey(session, y) in files ==> y <= year
  }

  /** The orders with one more; none when that player's orders are there already, and none when the
      slot is beyond a list that exists, which is an index out of range. */
  function WithOrder(files: SessionFiles, slot: int, data: string): Option<SessionFiles> {
    if files.orders == [] then
      Some(files.(orders := seq(|files.turns|, i => if i == slot then data else "")))
    else if 0 <= slot < |files.orders| && files.orders[slot] == "" then
      Some(files.(orders := files.orders[slot := data]))
    else None
  }

  /** `player` is the caller's row in the session and `year` the session's last; `accepted` stands for
      the membership check and those of the header in the submitted file. */
  function SubmitOrder(db: Database, session: Id, player: Id, year: int, data: string, accepted: bool): Outcome {
    if player !in db.players || db.players[player].sessionId != session then Err(Failed)
    else if Decode(data).None? || !accepted then Err(Invalid)
    else if FileKey(session, year) !in db.files then Err(Failed)
    else
      match WithOrder(db.files[FileKey(session, year)], db.players[player].order, data)
      case None => Err(Invalid)
      case Some(files) => Ok(db.(files := db.files[FileKey(session, year) := files]))
  }

  method HandleTurnSubmit(store: Store, session: Id, player: Id, year: int, data: string, accepted: bool)
    returns (ok: bool)
    requires FileKey(session, year) in store.db.files ==> IsLastYear(store.db.files, session, year)
    modifies store
    ensures var outcome := SubmitOrder(old(store.db), session, player, year, data, accepted);
            ok == outcome.Ok? && store.db == Committed(old(store.db), outcome)
  {
    hide Decode;
    var tx := store.db;
    if player !in tx.players || tx.players[player].sessionId != session {
      return false;
    }
    var raw := B64Decode(data);
    if raw.None? || !accepted {
      return false;
    }
    if FileKey(session, year) !in tx.files {
      return false;
    }
    var files, slot := tx.files[FileKey(session, year)], tx.players[player].order;
    var orders := files.orders;
    if |orders| == 0 {
      for i := 0 to |files.turns|
        invariant |orders| == i && store.db == tx
        invariant forall j :: 0 <= j < i ==> orders[j] == if j == slot then data else ""
      {
        orders := orders + [if i == slot then data else ""];
      }
      assert orders == WithOrder(files, slot, data).value.orders;
    } else if 0 <= slot < |orders| && orders[slot] == "" {
      orders := orders[slot := data];
    } else {
      return false;
    }
    store.db := tx.(files := tx.files[FileKey(session, year) := files.(orders := orders)]);
    ok := true;
  }

  /** The order that a list has for a slot; the empty text when it has none. */
  function OrderAt(orders: seq<string>, i: int): string {
    if 0 <= i < |orders| then orders[i] else ""
  }

  /** The order of one slot, which had none, is there; nobody else's differs, and nothing but orders
      does. */
  predicate OneOrderAdded(f: SessionFiles, g: SessionFiles, slot: int, data: string) {
    && g == f.(orders := g.orders)
    && |g.orders| == (if f.orders == [] then |f.turns| else |f.orders|)
    && OrderAt(f.orders, slot) == ""
    && (forall i :: 0 <= i < |g.orders| ==> g.orders[i] == if i == slot then data else OrderAt(f.orders, i))
  }

  /** Nothing but orders differs, and orders once there stay. */
  predicate OnlyOrdersAdded(f: SessionFiles, g: SessionFiles) {
    && g == f.(orders := g.orders)
    && (g.orders == f.orders || |g.orders| == if f.orders == [] then |f.turns| else |f.orders|)
    && (forall i :: 0 <= i < |f.orders| && i < |g.orders| && f.orders[i] != "" ==> g.orders[i] == f.orders[i])
  }

  /** An order is refused exactly when there is one already, or when its slot is beyond a list that
      exists. Otherwise it is added in the caller's slot, and what is stored can still be read back. */
  lemma SubmittedFiles(env: Env, files: SessionFiles, slot: int, data: string)
    ensures WithOrder(files, slot, data).Some? <==>
            files.orders == [] || (0 <= slot < |files.orders| && files.orders[slot] == "")
    ensures WithOrder(files, slot, data).Some? ==>
              var g := WithOrder(files, slot, data).value;
              && OneOrderAdded(files, g, slot, data) && OnlyOrdersAdded(files, g)
              && (Readable(env, files) && Decode(data).Some? ==> Readable(env, g))
  {
    if WithOrder(files, slot, data).Some? {
      var g := WithOrder(files, slot, data).value;
      assert Decode("") == Some([]) by {
        DecodeEncode([]);
        EncodeNothing();
      }
      hide Decode;
      assert OneOrderAdded(files, g, slot, data);
    }
  }

  /** So whether a slot counts as ready changes for the caller alone. */
  lemma OnlyCallerGetsReady(files: SessionFiles, slot: int, data: string, i: nat)
    requires WithOrder(files, slot, data).Some? && i < |WithOrder(files, slot, data).value.orders|
    ensures Ready(WithOrder(files, slot, data).value.orders)[i] <==>
            if i == slot then data != "" else i < |files.orders| && Ready(files.orders)[i]
  {
  }

  /** When a submission is stored and what it changes, in terms of the tables. */
  lemma SubmitsIff(db: Database, session: Id, player: Id, year: int, data: string, accepted: bool)
    ensures var outcome := SubmitOrder(db, session, player, year, data, accepted);
            var key, row := FileKey(session, year), Playing(db, session, player);
            var stored := Entry(db.files, key);
            && (outcome.Ok? <==>
                  && row.Some? && Decode(data).Some? && accepted && stored.Some?
                  && (stored.value.orders == []
                      || (0 <= row.value.order < |stored.value.orders| && stored.value.orders[row.value.order] == "")))
            && (outcome.Ok? ==>
                  && key in outcome.value.files
                  && OneOrderAdded(stored.value, outcome.value.files[key], row.value.order, data)
                  && (forall k :: k != key ==> Entry(outcome.value.files, k) == Entry(db.files, k))
                  && (forall o :: o != session ==> SameSession(db, outcome.value, o))
                  && outcome.value == db.(files := outcome.value.files))
  {
    hide Decode;
  }

  lemma OnlyOrdersAddedTwice(f: SessionFiles, g: SessionFiles, h: SessionFiles)
    requires OnlyOrdersAdded(f, g) && OnlyOrdersAdded(g, h)
    ensures OnlyOrdersAdded(f, h)
  {
  }
}

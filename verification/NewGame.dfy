/** What a new game is generated from, and what is read back from its directory. */
module NewGame {
  import opened Common
  import opened Base64
  import opened GameFiles
  import opened Database
  import opened Slots
  import opened Roster

  // ---- The races of the players, joined by owner

  function HumanRaceIds(players: seq<Player>): seq<Id> {
    if players == [] then []
    else
      var last := players[|players| - 1];
      HumanRaceIds(players[..|players| - 1]) + if last.isBot then [] else [last.raceId]
  }

  /** What `SELECT ... WHERE id IN ids` returns, in some order. */
  ghost predicate IsSelection(races: RaceTable, ids: seq<Id>, rows: seq<Race>) {
    && (forall i :: 0 <= i < |rows| ==> rows[i].id in ids && rows[i].id in races && races[rows[i].id] == rows[i])
    && (forall i, j :: 0 <= i < j < |rows| ==> rows[i].id != rows[j].id)
    && (forall id :: id in ids && id in races ==> exists i :: 0 <= i < |rows| && rows[i].id == id)
  }

  /** Of the selected rows, those of one owner. */
  function OfOwner(rows: seq<Race>, user: Id): seq<Race> {
    if rows == [] then []
    else
      var last := rows[|rows| - 1];
      OfOwner(rows[..|rows| - 1], user) + if last.userId == user then [last] else []
  }

  /** For each human in turn, every selected race of that user. */
  function JoinedByOwner(players: seq<Player>, rows: seq<Race>): seq<Race> {
    if players == [] then []
    else
      var last := players[|players| - 1];
      JoinedByOwner(players[..|players| - 1], rows) + if last.isBot then [] else OfOwner(rows, last.userId)
  }

  method RaceIdsOf(players: seq<Player>) returns (ids: seq<Id>)
    ensures ids == HumanRaceIds(players)
  {
    ids := [];
    for i := 0 to |players|
      invariant ids == HumanRaceIds(players[..i])
    {
      assert players[..i + 1][..i] == players[..i];
      if !players[i].isBot {
        ids := ids + [players[i].raceId];
      }
    }
    assert players[..|players|] == players;
  }

  /** `racesDB` is the answer of the query for the ids of the humans' races. */
  method PlayerRaces(players: seq<Player>, races: RaceTable, racesDB: seq<Race>) returns (r: seq<Race>)
    requires IsSelection(races, HumanRaceIds(players), racesDB)
    ensures r == JoinedByOwner(players, racesDB)
  {
    var raceIds := RaceIdsOf(players);
    assert IsSelection(races, raceIds, racesDB);
    r := InPlayerOrder(players, racesDB);
  }

  /** The answer reordered by player while the list is produced. */
  method InPlayerOrder(players: seq<Player>, racesDB: seq<Race>) returns (r: seq<Race>)
    ensures r == JoinedByOwner(players, racesDB)
  {
    r := [];
    for i := 0 to |players|
      invariant r == JoinedByOwner(players[..i], racesDB)
    {
      assert players[..i + 1][..i] == players[..i];
      if !players[i].isBot {
        var own := RacesOfOwner(racesDB, players[i].userId);
        r := r + own;
      }
    }
    assert players[..|players|] == players;
  }

  method RacesOfOwner(racesDB: seq<Race>, user: Id) returns (own: seq<Race>)
    ensures own == OfOwner(racesDB, user)
  {
    own := [];
    for j := 0 to |racesDB|
      invariant own == OfOwner(racesDB[..j], user)
    {
      assert racesDB[..j + 1][..j] == racesDB[..j];
      if racesDB[j].userId == user {
        own := own + [racesDB[j]];
      }
    }
    assert racesDB[..|racesDB|] == racesDB;
  }

  /** The humans, in order. */
  function Humans(players: seq<Player>): seq<Player> {
    if players == [] then []
    else
      var last := players[|players| - 1];
      Humans(players[..|players| - 1]) + if last.isBot then [] else [last]
  }

  lemma {:induction false} HumanIn(players: seq<Player>, j: nat)
    requires j < |Humans(players)|
    ensures Humans(players)[j] in players && !Humans(players)[j].isBot
  {
    if j == |Humans(players)| - 1 && !players[|players| - 1].isBot {
    } else {
      HumanIn(players[..|players| - 1], j);
    }
  }

  lemma {:induction false} RaceIdIn(players: seq<Player>, i: nat)
    requires i < |players| && !players[i].isBot
    ensures players[i].raceId in HumanRaceIds(players) && players[i] in Humans(players)
  {
    if i < |players| - 1 {
      RaceIdIn(players[..|players| - 1], i);
    }
  }

  lemma {:induction false} RaceIdOf(players: seq<Player>, id: Id) returns (i: nat)
    requires id in HumanRaceIds(players)
    ensures i < |players| && !players[i].isBot && players[i].raceId == id
  {
    i := |players| - 1;
    if players[i].isBot || players[i].raceId != id {
      i := RaceIdOf(players[..|players| - 1], id);
    }
  }

  lemma {:induction false} OwnerIn(rows: seq<Race>, user: Id, r: Race)
    ensures r in OfOwner(rows, user) <==> r in rows && r.userId == user
  {
    if rows != [] {
      OwnerIn(rows[..|rows| - 1], user, r);
      assert rows == rows[..|rows| - 1] + [rows[|rows| - 1]];
    }
  }

  ghost predicate HasHuman(players: seq<Player>, user: Id) {
    exists i :: 0 <= i < |players| && !players[i].isBot && players[i].userId == user
  }

  lemma HasHumanLast(players: seq<Player>, user: Id)
    requires players != []
    ensures var init, last := players[..|players| - 1], players[|players| - 1];
            HasHuman(players, user) <==> HasHuman(init, user) || (!last.isBot && last.userId == user)
  {
    var init, last := players[..|players| - 1], players[|players| - 1];
    if i :| 0 <= i < |players| && !players[i].isBot && players[i].userId == user {
      assert i == |players| - 1 || init[i] == players[i];
    }
    if i :| 0 <= i < |init| && !init[i].isBot && init[i].userId == user {
      assert players[i] == init[i];
    }
  }

  lemma NoHuman(user: Id)
    ensures !HasHuman([], user)
  {
  }

  /** A joined race is a selected race whose owner is one of the humans. */
  lemma {:induction false} JoinedIn(players: seq<Player>, rows: seq<Race>, r: Race)
    ensures r in JoinedByOwner(players, rows) <==> r in rows && HasHuman(players, r.userId)
  {
    hide HasHuman, OfOwner;
    if players == [] {
      NoHuman(r.userId);
    } else {
      var init, last := players[..|players| - 1], players[|players| - 1];
      JoinedIn(init, rows, r);
      OwnerIn(rows, last.userId, r);
      HasHumanLast(players, r.userId);
    }
  }

  // ---- The race files, found by race id

  datatype PlayerRaceFile = PlayerRaceFile(playerOrder: int, data: Bytes)

  datatype RaceFault = UndecodableRace | RaceNotFound

  /** The first race in the list with this id. */
  function FirstWithId(races: seq<Race>, id: Id): (r: Option<Race>)
    ensures r.Some? ==> r.value in races && r.value.id == id
    ensures r.None? ==> forall i :: 0 <= i < |races| ==> races[i].id != id
  {
    if races == [] then None
    else if races[0].id == id then Some(races[0])
    else FirstWithId(races[1..], id)
  }

  function FileOf(p: Player, races: seq<Race>): Result<PlayerRaceFile, RaceFault> {
    match FirstWithId(races, p.raceId)
    case None => Err(RaceNotFound)
    case Some(race) =>
      match Decode(race.data)
      case None => Err(UndecodableRace)
      case Some(data) => Ok(PlayerRaceFile(p.order, data))
  }

  /** One file for each human in turn; the first fault ends it. */
  function RaceFilesOf(humans: seq<Player>, races: seq<Race>): Result<seq<PlayerRaceFile>, RaceFault> {
    if humans == [] then Ok([])
    else
      var last := |humans| - 1;
      match RaceFilesOf(humans[..last], races)
      case Err(e) => Err(e)
      case Ok(files) => match FileOf(humans[last], races) case Ok(file) => Ok(files + [file]) case Err(e) => Err(e)
  }

  lemma RaceFilesOfOneMore(humans: seq<Player>, p: Player, races: seq<Race>)
    ensures RaceFilesOf(humans + [p], races) ==
            match RaceFilesOf(humans, races)
            case Err(e) => Err(e)
            case Ok(files) => match FileOf(p, races) case Ok(file) => Ok(files + [file]) case Err(e) => Err(e)
  {
    assert (humans + [p])[..|humans|] == humans;
  }

  lemma HumansOneMore(players: seq<Player>, i: nat)
    requires i < |players|
    ensures Humans(players[..i + 1]) ==
            if players[i].isBot then Humans(players[..i]) else Humans(players[..i]) + [players[i]]
  {
    assert players[..i + 1][..i] == players[..i];
  }

  lemma NoRaceFiles(races: seq<Race>)
    ensures RaceFilesOf(Humans([]), races) == Ok([])
  {
  }

  method NewRaceFiles(players: seq<Player>, races: seq<Race>) returns (r: Result<seq<PlayerRaceFile>, RaceFault>)
    ensures r == RaceFilesOf(Humans(players), races)
  {
    hide RaceFilesOf, Humans, FileOf;
    var files := [];
    NoRaceFiles(races);
    assert players[..0] == [];
    for i := 0 to |players|
      invariant RaceFilesOf(Humans(players[..i]), races) == Ok(files)
    {
      HumansOneMore(players, i);
      if !players[i].isBot {
        RaceFilesOfOneMore(Humans(players[..i]), players[i], races);
        var file := FindRaceFile(players[i], races);
        if file.Err? {
          FaultStays(players, races, i + 1, |players|);
          assert players[..|players|] == players;
          return Err(file.error);
        }
        files := files + [file.value];
      }
    }
    assert players[..|players|] == players;
    r := Ok(files);
  }

  method FindRaceFile(player: Player, races: seq<Race>) returns (r: Result<PlayerRaceFile, RaceFault>)
    ensures r == FileOf(player, races)
  {
    var i := 0;
    assert races[0..] == races;
    while i < |races|
      invariant i <= |races| && FirstWithId(races, player.raceId) == FirstWithId(races[i..], player.raceId)
    {
      if races[i].id == player.raceId {
        var data := B64Decode(races[i].data);
        return if data.Some? then Ok(PlayerRaceFile(player.order, data.value)) else Err(UndecodableRace);
      }
      assert races[i..][1..] == races[i + 1..];
      i := i + 1;
    }
    r := Err(RaceNotFound);
  }

  lemma {:induction false} FaultStays(players: seq<Player>, races: seq<Race>, n: nat, m: nat)
    requires n <= m <= |players| && RaceFilesOf(Humans(players[..n]), races).Err?
    ensures RaceFilesOf(Humans(players[..m]), races) == RaceFilesOf(Humans(players[..n]), races)
    decreases m
  {
    hide RaceFilesOf, Humans, FileOf;
    if n < m {
      FaultStays(players, races, n, m - 1);
      HumansOneMore(players, m - 1);
      if !players[m - 1].isBot {
        RaceFilesOfOneMore(Humans(players[..m - 1]), players[m - 1], races);
      }
    }
  }

  lemma {:induction false} AllFilesFound(humans: seq<Player>, races: seq<Race>)
    ensures RaceFilesOf(humans, races).Ok? <==> forall j :: 0 <= j < |humans| ==> FileOf(humans[j], races).Ok?
    ensures RaceFilesOf(humans, races).Ok? ==>
              var files := RaceFilesOf(humans, races).value;
              |files| == |humans| && forall j :: 0 <= j < |humans| ==> Ok(files[j]) == FileOf(humans[j], races)
  {
    hide FileOf;
    if humans != [] {
      AllFilesFound(humans[..|humans| - 1], races);
    }
  }

  // ---- When do the two joins agree?

  ghost predicate OwnerPlays(players: seq<Player>, races: RaceTable, p: Player) {
    p.raceId in races && HasHuman(players, races[p.raceId].userId)
  }

  predicate Decodable(races: RaceTable, p: Player) {
    p.raceId in races && Decode(races[p.raceId].data).Some?
  }

  /** After the join by owner, looking a human's race up by id finds it exactly when its owner is
      among the humans, and then it is that very race. */
  lemma JoinedRaceFound(players: seq<Player>, races: RaceTable, rows: seq<Race>, i: nat)
    requires IsSelection(races, HumanRaceIds(players), rows) && i < |players| && !players[i].isBot
    ensures FirstWithId(JoinedByOwner(players, rows), players[i].raceId) ==
            if OwnerPlays(players, races, players[i]) then Some(races[players[i].raceId]) else None
    ensures OwnerPlays(players, races, players[i]) ==> players[i].raceId in races
  {
    var p, joined := players[i], JoinedByOwner(players, rows);
    RaceIdIn(players, i);
    var found := FirstWithId(joined, p.raceId);
    if found.Some? {
      JoinedIn(players, rows, found.value);
    }
    if p.raceId in races {
      var race := races[p.raceId];
      var k :| 0 <= k < |rows| && rows[k].id == p.raceId;
      assert rows[k] == race;
      JoinedIn(players, rows, race);
    }
  }

  /** For any roster whatever: race files can be made exactly when the owner of every human's race
      is a human player of the same session and every such race decodes. */
  lemma RaceFilesExist(players: seq<Player>, races: RaceTable, rows: seq<Race>)
    requires IsSelection(races, HumanRaceIds(players), rows)
    ensures RaceFilesOf(Humans(players), JoinedByOwner(players, rows)).Ok? <==>
            forall i :: 0 <= i < |players| && !players[i].isBot ==>
              OwnerPlays(players, races, players[i]) && Decodable(races, players[i])
  {
    hide Decode, IsSelection, FirstWithId, OwnerPlays, JoinedByOwner;
    var humans, joined := Humans(players), JoinedByOwner(players, rows);
    AllFilesFound(humans, joined);
    forall i | 0 <= i < |players| && !players[i].isBot
      ensures players[i] in humans
      ensures FileOf(players[i], joined).Ok? <==> OwnerPlays(players, races, players[i]) && Decodable(races, players[i])
    {
      RaceIdIn(players, i);
      JoinedRaceFound(players, races, rows, i);
    }
    forall j | 0 <= j < |humans|
      ensures humans[j] in players && !humans[j].isBot
    {
      HumanIn(players, j);
    }
  }

  /** Under the roster invariant the join by owner gives each human exactly their own race, in slot
      order: it is the join by race id. */
  function OwnRaces(humans: seq<Player>, races: RaceTable): (r: seq<Race>)
    requires forall i :: 0 <= i < |humans| ==> humans[i].raceId in races
    ensures |r| == |humans|
  {
    seq(|humans|, i requires 0 <= i < |humans| => races[humans[i].raceId])
  }

  ghost predicate OneRaceEach(players: seq<Player>, races: RaceTable) {
    && (forall i :: 0 <= i < |players| ==> Fielded(races, players[i]))
    && (forall i, j :: 0 <= i < j < |players| && !players[i].isBot && !players[j].isBot ==>
          players[i].userId != players[j].userId)
    && (forall r :: r in races ==> races[r].id == r)
  }

  lemma {:induction false} OnlyOwnRace(players: seq<Player>, races: RaceTable, rows: seq<Race>, i: nat)
    requires OneRaceEach(players, races) && IsSelection(races, HumanRaceIds(players), rows)
    requires i < |players| && !players[i].isBot
    ensures OfOwner(rows, players[i].userId) == [races[players[i].raceId]]
  {
    var p := players[i];
    RaceIdIn(players, i);
    var k :| 0 <= k < |rows| && rows[k].id == p.raceId;
    forall j | 0 <= j < |rows| && j != k
      ensures rows[j].userId != p.userId
    {
      var q := RaceIdOf(players, rows[j].id);
      assert Fielded(races, players[q]);
      assert rows[j].id != rows[k].id;
    }
    assert Fielded(races, p);
    OnlyOne(rows, p.userId, k);
  }

  lemma {:induction false} OnlyOne(rows: seq<Race>, user: Id, k: nat)
    requires k < |rows| && rows[k].userId == user
    requires forall j :: 0 <= j < |rows| && j != k ==> rows[j].userId != user
    ensures OfOwner(rows, user) == [rows[k]]
  {
    var last := |rows| - 1;
    if k == last {
      NoneOfOwner(rows[..last], user);
    } else {
      OnlyOne(rows[..last], user, k);
    }
  }

  lemma {:induction false} NoneOfOwner(rows: seq<Race>, user: Id)
    requires forall j :: 0 <= j < |rows| ==> rows[j].userId != user
    ensures OfOwner(rows, user) == []
  {
    if rows != [] {
      NoneOfOwner(rows[..|rows| - 1], user);
    }
  }

  lemma {:induction false} JoinsAgree(players: seq<Player>, races: RaceTable, rows: seq<Race>, n: nat)
    requires OneRaceEach(players, races) && IsSelection(races, HumanRaceIds(players), rows) && n <= |players|
    ensures forall i :: 0 <= i < |Humans(players[..n])| ==> Humans(players[..n])[i].raceId in races
    ensures JoinedByOwner(players[..n], rows) == OwnRaces(Humans(players[..n]), races)
  {
    if n > 0 {
      JoinsAgree(players, races, rows, n - 1);
      assert players[..n][..n - 1] == players[..n - 1];
      if !players[n - 1].isBot {
        OnlyOwnRace(players, races, rows, n - 1);
        assert Fielded(races, players[n - 1]);
      }
    }
  }

  /** Looking up a human's race by id in the joined list finds that player's own race. */
  lemma OwnRaceFound(players: seq<Player>, races: RaceTable, rows: seq<Race>, j: nat)
    requires OneRaceEach(players, races) && IsSelection(races, HumanRaceIds(players), rows)
    requires j < |Humans(players)|
    ensures Humans(players)[j].raceId in races
    ensures FirstWithId(JoinedByOwner(players, rows), Humans(players)[j].raceId) ==
            Some(races[Humans(players)[j].raceId])
  {
    hide IsSelection, FirstWithId, JoinedByOwner, HumanRaceIds;
    HumanIn(players, j);
    var i :| 0 <= i < |players| && players[i] == Humans(players)[j];
    JoinedRaceFound(players, races, rows, i);
    assert Fielded(races, players[i]);
  }

  /** Under the roster invariant: one race per human in slot order, never a race that is not found,
      and each slot is paired with that player's own race bytes. */
  lemma EachPlaysTheirOwnRace(players: seq<Player>, races: RaceTable, rows: seq<Race>)
    requires OneRaceEach(players, races) && IsSelection(races, HumanRaceIds(players), rows)
    ensures forall i :: 0 <= i < |Humans(players)| ==> Humans(players)[i].raceId in races
    ensures JoinedByOwner(players, rows) == OwnRaces(Humans(players), races)
    ensures RaceFilesOf(Humans(players), JoinedByOwner(players, rows)) != Err(RaceNotFound)
    ensures RaceFilesOf(Humans(players), JoinedByOwner(players, rows)).Ok? ==>
              var files := RaceFilesOf(Humans(players), JoinedByOwner(players, rows)).value;
              && |files| == |Humans(players)|
              && forall i :: 0 <= i < |files| ==>
                   && files[i].playerOrder == Humans(players)[i].order
                   && Decode(races[Humans(players)[i].raceId].data) == Some(files[i].data)
  {
    hide Decode, IsSelection, FirstWithId, OneRaceEach, Humans, JoinedByOwner, HumanRaceIds, RaceFilesOf;
    JoinsAgree(players, races, rows, |players|);
    assert players[..|players|] == players;
    var humans, joined := Humans(players), JoinedByOwner(players, rows);
    forall j | 0 <= j < |humans|
      ensures FirstWithId(joined, humans[j].raceId) == Some(races[humans[j].raceId])
    {
      OwnRaceFound(players, races, rows, j);
    }
    AllFilesFound(humans, joined);
    NeverNotFound(humans, races, joined);
  }

  lemma {:induction false} NeverNotFound(humans: seq<Player>, races: RaceTable, joined: seq<Race>)
    requires forall j :: 0 <= j < |humans| ==> FirstWithId(joined, humans[j].raceId).Some?
    ensures RaceFilesOf(humans, joined) != Err(RaceNotFound)
  {
    hide Decode;
    if humans != [] {
      NeverNotFound(humans[..|humans| - 1], races, joined);
    }
  }

  // ---- The game definition

  /** A line of the definition for one player: a bot's race and level, or the name of a race file. */
  datatype RaceLine = BotLine(raceId: Id, level: int) | PlayerLine(player: int)

  function LineOf(p: Player): RaceLine
    requires p.isBot ==> p.botLevel.Some?
  {
    if p.isBot then BotLine(p.raceId, p.botLevel.value) else PlayerLine(p.order + 1)
  }

  /** Every bot has a level. */
  predicate Levelled(players: seq<Player>) {
    forall i :: 0 <= i < |players| && players[i].isBot ==> players[i].botLevel.Some?
  }

  function LinesOf(players: seq<Player>): (lines: seq<RaceLine>)
    requires Levelled(players)
    ensures |lines| == |players|
    ensures forall i :: 0 <= i < |players| ==> lines[i] == LineOf(players[i])
  {
    seq(|players|, i requires 0 <= i < |players| => LineOf(players[i]))
  }

  /** One line per player; a bot without a level is a nil dereference. */
  method ComputeRaces(players: seq<Player>) returns (lines: Option<seq<RaceLine>>)
    ensures lines.Some? <==> Levelled(players)
    ensures lines.Some? ==> lines.value == LinesOf(players)
    ensures lines.Some? ==> forall i :: 0 <= i < |players| ==>
              && (!players[i].isBot ==> lines.value[i] == PlayerLine(players[i].order + 1))
              && (players[i].isBot ==>
                    && players[i].botLevel.Some?
                    && lines.value[i] == BotLine(players[i].raceId, players[i].botLevel.value))
  {
    var done := [];
    for i := 0 to |players|
      invariant |done| == i
      invariant forall j :: 0 <= j < i ==>
                  (players[j].isBot ==> players[j].botLevel.Some?) && done[j] == LineOf(players[j])
    {
      if players[i].isBot && players[i].botLevel.None? {
        return None;
      }
      done := done + [LineOf(players[i])];
    }
    assert done == LinesOf(players);
    lines := Some(done);
  }

  // ---- The race files in the directory

  /** Each file goes under its player's number, after the processing that the runner is set up for. */
  function WithRaceFiles(dir: Dir, files: seq<PlayerRaceFile>, n: nat, process: Bytes -> Bytes): Dir
    requires n <= |files|
  {
    if n == 0 then dir
    else
      var d := WithRaceFiles(dir, files, n - 1, process);
      WriteFile(d, RaceFile(files[n - 1].playerOrder + 1), process(files[n - 1].data))
  }

  method SaveRaceFilesToSessionDir(dir: Dir, files: seq<PlayerRaceFile>, process: Bytes -> Bytes) returns (dir': Dir)
    ensures dir' == WithRaceFiles(dir, files, |files|, process)
  {
    dir' := dir;
    for i := 0 to |files|
      invariant dir' == WithRaceFiles(dir, files, i, process)
    {
      dir' := WriteFile(dir', RaceFile(files[i].playerOrder + 1), process(files[i].data));
    }
  }

  ghost predicate DifferentSlots(files: seq<PlayerRaceFile>) {
    forall i, j :: 0 <= i < j < |files| ==> files[i].playerOrder != files[j].playerOrder
  }

  /** Of the race files exactly the first `n` are there, as they were processed. */
  ghost predicate RaceFilesSaved(dir: Dir, files: seq<PlayerRaceFile>, n: nat, process: Bytes -> Bytes)
    requires n <= |files|
  {
    && (forall i :: 0 <= i < n ==> Entry(dir, RaceFile(files[i].playerOrder + 1)) == Some(process(files[i].data)))
    && (forall k :: RaceFile(k) in dir ==> exists i :: 0 <= i < n && files[i].playerOrder + 1 == k)
  }

  lemma {:induction false} RaceFilesAreSaved(dir: Dir, files: seq<PlayerRaceFile>, n: nat, process: Bytes -> Bytes)
    requires n <= |files| && DifferentSlots(files) && forall k :: RaceFile(k) !in dir
    ensures RaceFilesSaved(WithRaceFiles(dir, files, n, process), files, n, process)
    decreases n
  {
    hide DifferentSlots, WriteFile;
    if n == 0 {
    } else {
      hide RaceFilesSaved;
      RaceFilesAreSaved(dir, files, n - 1, process);
      OneMoreRaceFile(WithRaceFiles(dir, files, n - 1, process), files, n, process);
    }
  }

  lemma OneMoreRaceFile(dir: Dir, files: seq<PlayerRaceFile>, n: nat, process: Bytes -> Bytes)
    requires 0 < n <= |files| && DifferentSlots(files) && RaceFilesSaved(dir, files, n - 1, process)
    ensures RaceFilesSaved(
              WriteFile(dir, RaceFile(files[n - 1].playerOrder + 1), process(files[n - 1].data)), files, n, process)
  {
    hide WriteFile;
    var k, content := files[n - 1].playerOrder + 1, process(files[n - 1].data);
    assert RaceFile(k) !in dir;
    NewFileIsExact(dir, RaceFile(k), content);
    hide DifferentSlots, RaceFilesSaved;
    AddRaceFile(dir, files, n, process);
  }

  lemma AddRaceFile(dir: Dir, files: seq<PlayerRaceFile>, n: nat, process: Bytes -> Bytes)
    requires 0 < n <= |files| && RaceFilesSaved(dir, files, n - 1, process)
    requires RaceFile(files[n - 1].playerOrder + 1) !in dir
    ensures RaceFilesSaved(
              dir[RaceFile(files[n - 1].playerOrder + 1) := process(files[n - 1].data)], files, n, process)
  {
    var k := files[n - 1].playerOrder + 1;
    var after := dir[RaceFile(k) := process(files[n - 1].data)];
    forall i | 0 <= i < n
      ensures Entry(after, RaceFile(files[i].playerOrder + 1)) == Some(process(files[i].data))
    {
      if i < n - 1 {
        assert Entry(dir, RaceFile(files[i].playerOrder + 1)).Some?;
      }
    }
    forall m | RaceFile(m) in after
      ensures exists i :: 0 <= i < n && files[i].playerOrder + 1 == m
    {
      if m == k {
        assert files[n - 1].playerOrder + 1 == m;
      }
    }
  }

  lemma NewFileIsExact(dir: Dir, name: FileName, content: Bytes)
    requires name !in dir
    ensures WriteFile(dir, name, content) == dir[name := content]
  {
  }

  /** The file that the line of a human names holds that human's own race. */
  ghost predicate NamesOwnRace(dir: Dir, line: RaceLine, p: Player, races: RaceTable, process: Bytes -> Bytes) {
    && line == PlayerLine(p.order + 1)
    && p.raceId in races && Decode(races[p.raceId].data).Some?
    && Entry(dir, RaceFile(p.order + 1)) == Some(process(Decode(races[p.raceId].data).value))
  }

  /** Under the roster invariant and with different slots it does, for every human. */
  lemma {:induction false} LineNamesOwnRace(
      players: seq<Player>, races: RaceTable, rows: seq<Race>, process: Bytes -> Bytes, i: nat)
    requires OneRaceEach(players, races) && IsSelection(races, HumanRaceIds(players), rows)
    requires forall j, k :: 0 <= j < k < |players| ==> players[j].order != players[k].order
    requires RaceFilesOf(Humans(players), JoinedByOwner(players, rows)).Ok?
    requires i < |players| && !players[i].isBot
    ensures var files := RaceFilesOf(Humans(players), JoinedByOwner(players, rows)).value;
            NamesOwnRace(WithRaceFiles(map[], files, |files|, process), LineOf(players[i]), players[i], races, process)
  {
    hide Decode, IsSelection, OneRaceEach, JoinedByOwner, RaceFilesOf, WithRaceFiles, Humans, HumanRaceIds,
      RaceFilesSaved, DifferentSlots;
    var humans, joined := Humans(players), JoinedByOwner(players, rows);
    var files := RaceFilesOf(humans, joined).value;
    EachPlaysTheirOwnRace(players, races, rows);
    HumanSlotsDiffer(players);
    FilesDiffer(humans, files);
    RaceFilesAreSaved(map[], files, |files|, process);
    RaceIdIn(players, i);
    var j :| 0 <= j < |humans| && humans[j] == players[i];
    OneSavedFile(WithRaceFiles(map[], files, |files|, process), files, process, j);
  }

  lemma OneSavedFile(dir: Dir, files: seq<PlayerRaceFile>, process: Bytes -> Bytes, j: nat)
    requires j < |files| && RaceFilesSaved(dir, files, |files|, process)
    ensures Entry(dir, RaceFile(files[j].playerOrder + 1)) == Some(process(files[j].data))
  {
  }

  lemma FilesDiffer(humans: seq<Player>, files: seq<PlayerRaceFile>)
    requires |files| == |humans| && forall i :: 0 <= i < |files| ==> files[i].playerOrder == humans[i].order
    requires forall i, j :: 0 <= i < j < |humans| ==> humans[i].order != humans[j].order
    ensures DifferentSlots(files)
  {
  }

  lemma {:induction false} HumanSlotsDiffer(players: seq<Player>)
    requires forall j, k :: 0 <= j < k < |players| ==> players[j].order != players[k].order
    ensures forall j, k :: 0 <= j < k < |Humans(players)| ==> Humans(players)[j].order != Humans(players)[k].order
  {
    if players != [] {
      var init, last := players[..|players| - 1], players[|players| - 1];
      HumanSlotsDiffer(init);
      forall j | 0 <= j < |Humans(init)|
        ensures Humans(init)[j].order != last.order
      {
        HumanIn(init, j);
      }
    }
  }

  // ---- Reading the directory back

  function MaxOrder(players: seq<Player>): (m: nat)
    ensures forall i :: 0 <= i < |players| ==> players[i].order <= m
    ensures m == 0 || exists i :: 0 <= i < |players| && players[i].order == m
  {
    if players == [] then 0
    else
      var m, last := MaxOrder(players[..|players| - 1]), players[|players| - 1];
      if last.order > m then last.order else m
  }

  /** The turn files of all players are there. No file has a number below one. */
  predicate AllWritten(dir: Dir, players: seq<Player>) {
    forall i :: 0 <= i < |players| ==> players[i].order >= 0 && TurnFile(players[i].order + 1) in dir
  }

  predicate Occupied(players: seq<Player>, slot: int) {
    exists i :: 0 <= i < |players| && players[i].order == slot
  }

  function TurnAt(dir: Dir, players: seq<Player>, slot: nat): Bytes {
    if Occupied(players, slot) && TurnFile(slot + 1) in dir then dir[TurnFile(slot + 1)] else []
  }

  /** At the index of every slot the turn file of that slot, and nothing where nobody sits. */
  function TurnsOf(dir: Dir, players: seq<Player>, size: nat): (turns: seq<Bytes>)
    ensures |turns| == size
    ensures forall k :: 0 <= k < size ==> turns[k] == TurnAt(dir, players, k)
  {
    seq(size, k requires 0 <= k => TurnAt(dir, players, k))
  }

  function TurnFilesOf(dir: Dir, players: seq<Player>): Option<GameFiles> {
    if UniverseFile in dir && HostFile in dir && AllWritten(dir, players)
    then Some(GameFiles(dir[UniverseFile], dir[HostFile], TurnsOf(dir, players, MaxOrder(players) + 1), []))
    else None
  }

  /** Every player's turn is at the index of their slot, and nothing but gaps was left empty. */
  predicate BySlot(dir: Dir, players: seq<Player>, turns: seq<Bytes>) {
    && (forall i :: 0 <= i < |players| ==> 0 <= players[i].order < |turns|)
    && (forall i :: 0 <= i < |players| ==>
          TurnFile(players[i].order + 1) in dir && turns[players[i].order] == dir[TurnFile(players[i].order + 1)])
    && (forall k :: 0 <= k < |turns| && !Occupied(players, k) ==> turns[k] == [])
  }

  /** Universe, host file, and the turns by slot. No index is ever out of range. */
  method GameFilesForTurn(dir: Dir, players: seq<Player>) returns (r: Option<GameFiles>)
    ensures r == TurnFilesOf(dir, players)
    ensures r.Some? ==> BySlot(dir, players, r.value.turns)
  {
    hide BySlot, AllWritten, Occupied, TurnAt;
    if UniverseFile !in dir {
      return None;
    }
    if HostFile !in dir {
      return None;
    }
    var maxOrder := FindMaxOrder(players);
    var turns := new Bytes[maxOrder + 1](_ => []);
    var complete := CollectTurns(dir, players, turns);
    if !complete {
      return None;
    }
    TurnsBySlot(dir, players);
    r := Some(GameFiles(dir[UniverseFile], dir[HostFile], turns[..], []));
  }

  method FindMaxOrder(players: seq<Player>) returns (maxOrder: nat)
    ensures maxOrder == MaxOrder(players)
  {
    maxOrder := 0;
    for i := 0 to |players|
      invariant maxOrder == MaxOrder(players[..i])
    {
      assert players[..i + 1][..i] == players[..i];
      if players[i].order > maxOrder {
        maxOrder := players[i].order;
      }
    }
    assert players[..|players|] == players;
  }

  method CollectTurns(dir: Dir, players: seq<Player>, turns: array<Bytes>) returns (complete: bool)
    requires forall i :: 0 <= i < |players| ==> players[i].order < turns.Length
    requires forall k :: 0 <= k < turns.Length ==> turns[k] == []
    modifies turns
    ensures complete <==> AllWritten(dir, players)
    ensures complete ==> turns[..] == TurnsOf(dir, players, turns.Length)
  {
    for i := 0 to |players|
      invariant AllWritten(dir, players[..i])
      invariant turns[..] == TurnsOf(dir, players[..i], turns.Length)
    {
      hide TurnAt, AllWritten, TurnsOf;
      TurnsOneMore(dir, players, i, turns.Length);
      if players[i].order < 0 || TurnFile(players[i].order + 1) !in dir {
        return false;
      }
      turns[players[i].order] := dir[TurnFile(players[i].order + 1)];
    }
    assert players[..|players|] == players;
    complete := true;
  }

  lemma TurnsOneMore(dir: Dir, players: seq<Player>, i: nat, size: nat)
    requires i < |players| && players[i].order < size
    ensures players[i].order < 0 || TurnFile(players[i].order + 1) !in dir ==> !AllWritten(dir, players)
    ensures players[i].order >= 0 && TurnFile(players[i].order + 1) in dir ==>
              && (AllWritten(dir, players[..i]) ==> AllWritten(dir, players[..i + 1]))
              && TurnsOf(dir, players[..i + 1], size) ==
                 TurnsOf(dir, players[..i], size)[players[i].order := dir[TurnFile(players[i].order + 1)]]
  {
    var before, after := players[..i], players[..i + 1];
    assert after == before + [players[i]];
    forall k | 0 <= k < size
      ensures Occupied(after, k) <==> Occupied(before, k) || players[i].order == k
    {
      assert after[i].order == players[i].order;
      if j :| 0 <= j < i && before[j].order == k {
        assert after[j].order == k;
      }
    }
  }

  /** For every roster whose turn files are all there, with or without gaps. */
  lemma TurnsAreBySlot(dir: Dir, players: seq<Player>, i: nat)
    requires AllWritten(dir, players) && i < |players|
    ensures TurnFile(players[i].order + 1) in dir
    ensures var turns := TurnsOf(dir, players, MaxOrder(players) + 1);
            0 <= players[i].order < |turns| && turns[players[i].order] == dir[TurnFile(players[i].order + 1)]
  {
    assert Occupied(players, players[i].order);
  }

  lemma TurnsBySlot(dir: Dir, players: seq<Player>)
    requires AllWritten(dir, players)
    ensures BySlot(dir, players, TurnsOf(dir, players, MaxOrder(players) + 1))
  {
    hide AllWritten, TurnsOf, MaxOrder, Occupied;
    var turns := TurnsOf(dir, players, MaxOrder(players) + 1);
    forall i | 0 <= i < |players|
      ensures 0 <= players[i].order < |turns|
      ensures TurnFile(players[i].order + 1) in dir && turns[players[i].order] == dir[TurnFile(players[i].order + 1)]
    {
      TurnsAreBySlot(dir, players, i);
    }
  }

  /** An index is empty exactly when nobody sits there, or stars.exe wrote an empty file. */
  lemma GapsAreEmpty(dir: Dir, players: seq<Player>, k: nat)
    requires AllWritten(dir, players) && k <= MaxOrder(players)
    ensures Occupied(players, k) ==> TurnFile(k + 1) in dir
    ensures TurnsOf(dir, players, MaxOrder(players) + 1)[k] == [] <==>
            !Occupied(players, k) || dir[TurnFile(k + 1)] == []
  {
  }

  /** After normalisation a non-empty roster of n has n slots and no gap. */
  lemma NormalisedHasNoGap(players: seq<Player>)
    requires players != []
    ensures MaxOrder(Slotted(players)) + 1 == |players|
    ensures forall k :: 0 <= k < |players| ==> Slotted(players)[k].order == k
  {
    var slotted := Slotted(players);
    assert slotted[|players| - 1].order <= MaxOrder(slotted);
  }

  /** The slot of the first player of this user; the first slot when the user does not play. */
  method FindPlayerOrder(players: seq<Player>, user: Id) returns (playerOrder: int)
    ensures playerOrder == SlotOf(players, user)
  {
    for i := 0 to |players|
      invariant SlotOf(players, user) == SlotOf(players[i..], user)
    {
      assert players[i..][1..] == players[i + 1..];
      if players[i].userId == user {
        return players[i].order;
      }
    }
    playerOrder := 0;
  }

  function SlotOf(players: seq<Player>, user: Id): int {
    if players == [] then 0
    else if players[0].userId == user then players[0].order
    else SlotOf(players[1..], user)
  }

  /** Someone who plays in the session, and is the only player of theirs, finds their own slot. */
  lemma {:induction false} OwnSlot(players: seq<Player>, i: nat)
    requires i < |players|
    requires forall j :: 0 <= j < |players| && players[j].userId == players[i].userId ==> j == i
    ensures SlotOf(players, players[i].userId) == players[i].order
  {
    if i > 0 {
      assert players[0].userId != players[i].userId;
      OwnSlot(players[1..], i - 1);
    }
  }

  /** The turn that is returned to a requesting human of a normalised roster is the file that
      stars.exe wrote for that human's own player number. */
  lemma OwnTurn(dir: Dir, players: seq<Player>, universe: Bytes, hostFile: Bytes, yearOf: HeaderReader, i: nat)
    requires i < |players| && forall j :: 0 <= j < |players| && players[j].userId == players[i].userId ==> j == i
    requires AllWritten(dir, Slotted(players)) && yearOf(hostFile).Some?
    ensures var turns := TurnsOf(dir, Slotted(players), MaxOrder(Slotted(players)) + 1);
            var files := Hydrated(GameFiles(universe, hostFile, turns, []), yearOf).value;
            && SlotOf(Slotted(players), players[i].userId) == i < |files.turns|
            && Decode(ToTurnFiles(files, i).turn) == Some(dir[TurnFile(i + 1)])
            && Decode(ToTurnFiles(files, i).universe) == Some(universe)
  {
    hide Decode, Encode, SlotOf, TurnsOf, AllWritten, MaxOrder;
    var slotted := Slotted(players);
    OwnSlot(slotted, i);
    NormalisedHasNoGap(players);
    TurnsAreBySlot(dir, slotted, i);
    DecodeEncode(dir[TurnFile(i + 1)]);
    DecodeEncode(universe);
  }
}

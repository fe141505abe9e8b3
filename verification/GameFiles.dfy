/**
 The files of one turn: as bytes while a turn is generated, as base 64 text in the database, and
 as files in the directory that stars.exe works in.
 */
module GameFiles {
  import opened Common
  import opened Base64

  datatype GameFiles = GameFiles(universe: Bytes, hostFile: Bytes, turns: seq<Bytes>, orders: seq<Bytes>)

  /** The stored form. Turns and orders are indexed by player slot; an order that has not been
      submitted is the empty text. */
  datatype SessionFiles = SessionFiles(
    year: int, universe: string, hostFile: string, turns: seq<string>, orders: seq<string>)

  datatype PlayerFiles = PlayerFiles(year: int, turn: string, universe: string)

  /** Reads the year from the header of a host file; none when the header is not readable. */
  type HeaderReader = Bytes -> Option<int>

  // ---- Bytes to stored text

  function EncodeAll(parts: seq<Bytes>): (texts: seq<string>)
    ensures |texts| == |parts|
  {
    seq(|parts|, i requires 0 <= i < |parts| => Encode(parts[i]))
  }

  function Hydrated(g: GameFiles, yearOf: HeaderReader): Option<SessionFiles> {
    match yearOf(g.hostFile)
    case None => None
    case Some(year) =>
      Some(SessionFiles(year, Encode(g.universe), Encode(g.hostFile), EncodeAll(g.turns), EncodeAll(g.orders)))
  }

  method EncodeList(parts: seq<Bytes>) returns (texts: seq<string>)
    ensures texts == EncodeAll(parts)
  {
    texts := [];
    for i := 0 to |parts|
      invariant texts == EncodeAll(parts[..i])
    {
      var text := B64Encode(parts[i]);
      texts := texts + [text];
    }
    assert parts[..|parts|] == parts;
  }

  method HydrateSessionFiles(g: GameFiles, yearOf: HeaderReader) returns (r: Option<SessionFiles>)
    ensures r == Hydrated(g, yearOf)
  {
    var year := yearOf(g.hostFile);
    if year.None? {
      return None;
    }
    var universe := B64Encode(g.universe);
    var hostFile := B64Encode(g.hostFile);
    var turns := EncodeList(g.turns);
    var orders := EncodeList(g.orders);
    r := Some(SessionFiles(year.value, universe, hostFile, turns, orders));
  }

  // ---- Stored text to bytes

  function DecodeAll(texts: seq<string>): (r: Option<seq<Bytes>>)
    ensures r.Some? ==> |r.value| == |texts|
    ensures r.Some? <==> forall i :: 0 <= i < |texts| ==> Decode(texts[i]).Some?
    ensures r.Some? ==> forall i :: 0 <= i < |texts| ==> Decode(texts[i]) == Some(r.value[i])
  {
    if forall i :: 0 <= i < |texts| ==> Decode(texts[i]).Some? then
      Some(seq(|texts|, i requires 0 <= i < |texts| => Decode(texts[i]).value))
    else None
  }

  function FromSessionFiles(s: SessionFiles): Option<GameFiles> {
    match (Decode(s.universe), Decode(s.hostFile), DecodeAll(s.turns), DecodeAll(s.orders))
    case (Some(universe), Some(hostFile), Some(turns), Some(orders)) =>
      Some(GameFiles(universe, hostFile, turns, orders))
    case _ => None
  }

  method ListToBytes(texts: seq<string>) returns (r: Option<seq<Bytes>>)
    ensures r == DecodeAll(texts)
  {
    hide Decode;
    var parts: seq<Bytes> := [];
    for i := 0 to |texts|
      invariant |parts| == i
      invariant forall j :: 0 <= j < i ==> Decode(texts[j]) == Some(parts[j])
    {
      var part := B64Decode(texts[i]);
      if part.None? {
        return None;
      }
      parts := parts + [part.value];
    }
    r := Some(parts);
    assert r.value == DecodeAll(texts).value;
  }

  method NewGameFilesFromSessionFiles(s: SessionFiles) returns (r: Option<GameFiles>)
    ensures r == FromSessionFiles(s)
  {
    var universe := B64Decode(s.universe);
    if universe.None? {
      return None;
    }
    var hostFile := B64Decode(s.hostFile);
    if hostFile.None? {
      return None;
    }
    var turns := ListToBytes(s.turns);
    if turns.None? {
      return None;
    }
    var orders := ListToBytes(s.orders);
    if orders.None? {
      return None;
    }
    r := Some(GameFiles(universe.value, hostFile.value, turns.value, orders.value));
  }

  lemma DecodeEncodeAll(parts: seq<Bytes>)
    ensures DecodeAll(EncodeAll(parts)) == Some(parts)
  {
    hide Decode, Encode;
    forall i | 0 <= i < |parts|
      ensures Decode(EncodeAll(parts)[i]) == Some(parts[i])
    {
      DecodeEncode(parts[i]);
    }
    assert DecodeAll(EncodeAll(parts)).value == parts;
  }

  /** Storing game files and reading them back is the identity. */
  lemma StoreThenLoad(g: GameFiles, yearOf: HeaderReader)
    requires Hydrated(g, yearOf).Some?
    ensures FromSessionFiles(Hydrated(g, yearOf).value) == Some(g)
  {
    DecodeEncode(g.universe);
    DecodeEncode(g.hostFile);
    DecodeEncodeAll(g.turns);
    DecodeEncodeAll(g.orders);
  }

  /** What the encoder itself would have written: no newlines and no stray bits. */
  predicate Canonical(s: string)
    requires Decode(s).Some?
  {
    StripNewlines(s) == s && ZeroTail(Symbols(s).value)
  }

  /** Loading stored files and storing them again changes nothing exactly when the year column
      agrees with the host file and every text is canonical. */
  lemma LoadThenStore(s: SessionFiles, yearOf: HeaderReader)
    requires FromSessionFiles(s).Some?
    ensures Hydrated(FromSessionFiles(s).value, yearOf) == Some(s) <==>
            && yearOf(Decode(s.hostFile).value) == Some(s.year)
            && Canonical(s.universe) && Canonical(s.hostFile)
            && (forall i :: 0 <= i < |s.turns| ==> Canonical(s.turns[i]))
            && (forall i :: 0 <= i < |s.orders| ==> Canonical(s.orders[i]))
  {
    hide Decode, Encode, Canonical;
    var g := FromSessionFiles(s).value;
    EncodesBack(s.universe);
    EncodesBack(s.hostFile);
    AllEncodeBack(s.turns);
    AllEncodeBack(s.orders);
  }

  lemma EncodesBack(s: string)
    requires Decode(s).Some?
    ensures Encode(Decode(s).value) == s <==> Canonical(s)
  {
    EncodeDecode(s);
  }

  lemma AllEncodeBack(texts: seq<string>)
    requires DecodeAll(texts).Some?
    ensures EncodeAll(DecodeAll(texts).value) == texts <==> forall i :: 0 <= i < |texts| ==> Canonical(texts[i])
  {
    hide Decode, Encode, Canonical;
    var again := EncodeAll(DecodeAll(texts).value);
    forall i | 0 <= i < |texts|
      ensures again[i] == texts[i] <==> Canonical(texts[i])
    {
      EncodesBack(texts[i]);
    }
    if forall i :: 0 <= i < |texts| ==> Canonical(texts[i]) {
      assert forall i :: 0 <= i < |texts| ==> again[i] == texts[i];
    }
  }

  // ---- Reading the stored form

  /** Which slots have submitted orders. */
  function Ready(orders: seq<string>): (r: seq<bool>)
    ensures |r| == |orders|
  {
    seq(|orders|, i requires 0 <= i < |orders| => orders[i] != "")
  }

  method ReadyPlayers(orders: seq<string>) returns (r: seq<bool>)
    ensures r == Ready(orders)
  {
    r := [];
    for i := 0 to |orders|
      invariant r == Ready(orders[..i])
    {
      r := r + [orders[i] != ""];
    }
    assert orders[..|orders|] == orders;
  }

  function ToTurnFiles(s: SessionFiles, playerOrder: nat): PlayerFiles
    requires playerOrder < |s.turns|
  {
    PlayerFiles(s.year, s.turns[playerOrder], s.universe)
  }

  // ---- The session directory

  /** Names carry the player number, which is the slot plus one. */
  datatype FileName =
    | UniverseFile
    | HostFile
    | GameDef
    | TurnFile(player: nat)
    | OrderFile(player: nat)
    | RaceFile(number: int)

  type Dir = map<FileName, Bytes>

  /** Files are opened without truncation: when the old content was longer its end stays. */
  function Overwritten(was: Bytes, content: Bytes): Bytes {
    if |was| > |content| then content + was[|content|..] else content
  }

  function WriteFile(dir: Dir, name: FileName, content: Bytes): Dir {
    dir[name := Overwritten(if name in dir then dir[name] else [], content)]
  }

  /** A written file holds what was written exactly when no longer file was there before. */
  lemma WriteFileIsExact(dir: Dir, name: FileName, content: Bytes)
    ensures WriteFile(dir, name, content)[name] == content <==> (name in dir ==> |dir[name]| <= |content|)
  {
  }

  /** Only non-empty orders become files. */
  function WithOrders(dir: Dir, orders: seq<Bytes>, n: nat): Dir
    requires n <= |orders|
  {
    if n == 0 then dir
    else
      var d := WithOrders(dir, orders, n - 1);
      if |orders[n - 1]| != 0 then WriteFile(d, OrderFile(n), orders[n - 1]) else d
  }

  method SaveOrderFilesToSessionDir(dir: Dir, orders: seq<Bytes>) returns (dir': Dir)
    ensures dir' == WithOrders(dir, orders, |orders|)
  {
    dir' := dir;
    for idx := 0 to |orders|
      invariant dir' == WithOrders(dir, orders, idx)
    {
      if |orders[idx]| != 0 {
        dir' := WriteFile(dir', OrderFile(idx + 1), orders[idx]);
      }
    }
  }

  /** Starting without order files, exactly the non-empty orders get a file, under their slot's
      number and with their content; no other file is touched. */
  lemma {:induction false} OrderFilesMatchSlots(dir: Dir, orders: seq<Bytes>, n: nat)
    requires n <= |orders|
    requires forall k :: OrderFile(k) !in dir
    ensures forall k: nat :: OrderFile(k) in WithOrders(dir, orders, n) <==> 1 <= k <= n && orders[k - 1] != []
    ensures forall k: nat :: 1 <= k <= n && orders[k - 1] != [] ==>
              WithOrders(dir, orders, n)[OrderFile(k)] == orders[k - 1]
    ensures forall f: FileName :: !f.OrderFile? ==>
              (f in WithOrders(dir, orders, n) <==> f in dir)
              && (f in dir ==> WithOrders(dir, orders, n)[f] == dir[f])
  {
    if n > 0 {
      OrderFilesMatchSlots(dir, orders, n - 1);
    }
  }

  /** The directory that stars.exe is run in for a turn: orders first, then universe and host file. */
  function TurnDir(dir: Dir, g: GameFiles): Dir {
    WriteFile(WriteFile(WithOrders(dir, g.orders, |g.orders|), UniverseFile, g.universe), HostFile, g.hostFile)
  }

  method SaveTurnToSessionDir(dir: Dir, g: GameFiles) returns (dir': Dir)
    ensures dir' == TurnDir(dir, g)
  {
    dir' := SaveOrderFilesToSessionDir(dir, g.orders);
    dir' := WriteFile(dir', UniverseFile, g.universe);
    dir' := WriteFile(dir', HostFile, g.hostFile);
  }

  /** In a fresh directory stars.exe finds the universe, the host file and the orders that are not
      empty, each under its player's number, with their content, and nothing else. */
  lemma {:induction false} TurnDirHoldsBundle(g: GameFiles)
    ensures var dir := TurnDir(map[], g);
            && Entry(dir, UniverseFile) == Some(g.universe) && Entry(dir, HostFile) == Some(g.hostFile)
            && (forall k: nat ::
                  Entry(dir, OrderFile(k)) ==
                  if 1 <= k <= |g.orders| && g.orders[k - 1] != [] then Some(g.orders[k - 1]) else None)
            && (forall f :: f in dir ==> f == UniverseFile || f == HostFile || f.OrderFile?)
  {
    hide WithOrders;
    OrderFilesMatchSlots(map[], g.orders, |g.orders|);
  }

  /** A slot counts as ready exactly when its order file is written, unless its stored text is
      nothing but newlines: such a text counts as ready and yields no file. */
  lemma ReadyMeansWritten(dir: Dir, stored: seq<string>, i: nat)
    requires DecodeAll(stored).Some? && i < |stored|
    requires forall k :: OrderFile(k) !in dir
    ensures var saved := WithOrders(dir, DecodeAll(stored).value, |stored|);
            (Ready(stored)[i] <==> OrderFile(i + 1) in saved) <==> !(stored[i] != "" && StripNewlines(stored[i]) == "")
  {
    OrderFilesMatchSlots(dir, DecodeAll(stored).value, |stored|);
    DecodesToNothing(stored[i]);
  }

  /** For orders stored by `HydrateSessionFiles` the exception cannot occur. */
  lemma StoredOrdersAreReadyIffWritten(dir: Dir, orders: seq<Bytes>, i: nat)
    requires i < |orders|
    requires forall k :: OrderFile(k) !in dir
    ensures Ready(EncodeAll(orders))[i] <==> OrderFile(i + 1) in WithOrders(dir, orders, |orders|)
  {
    DecodeEncodeAll(orders);
    ReadyMeansWritten(dir, EncodeAll(orders), i);
    SymbolsOfText(EncodeSymbols(orders[i]));
    StripKeeps(Encode(orders[i]));
  }
}

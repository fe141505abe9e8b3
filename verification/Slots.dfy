/** Slot arithmetic: the players of a session sit in slots, which become contiguous when a game
    starts and are indices into its turns. */
module Slots {
  import opened Common
  import opened Database

  // ---- Normalisation

  /** Position i gets slot i. */
  function Slotted(players: seq<Player>): (r: seq<Player>)
    ensures |r| == |players|
    ensures forall i :: 0 <= i < |players| ==> r[i] == players[i].(order := i)
  {
    seq(|players|, i requires 0 <= i < |players| => players[i].(order := i))
  }

  /** The UPDATE of one column of one row; it matches nothing if the row is gone. */
  function WithSlot(rows: PlayerTable, id: Id, slot: int): PlayerTable {
    if id in rows then rows[id := rows[id].(order := slot)] else rows
  }

  /** The table after the first `n` iterations. */
  function AfterSteps(rows: PlayerTable, players: seq<Player>, n: nat): PlayerTable
    requires n <= |players|
  {
    if n == 0 then rows
    else
      var done := AfterSteps(rows, players, n - 1);
      if players[n - 1].order != n - 1 then WithSlot(done, players[n - 1].id, n - 1) else done
  }

  /** The first iterations that the slot constraint lets through. */
  predicate SlotsFit(players: seq<Player>, n: nat)
    requires n <= |players|
  {
    forall i :: 0 <= i < n && players[i].order != i ==> i <= MAX_SLOT
  }

  class PlayerRows {
    var rows: PlayerTable

    constructor (rows: PlayerTable)
      ensures this.rows == rows
    {
      this.rows := rows;
    }

    method UpdateOrder(id: Id, slot: int) returns (ok: bool)
      modifies this
      ensures ok <==> slot <= MAX_SLOT
      ensures rows == if ok then WithSlot(old(rows), id, slot) else old(rows)
    {
      ok := slot <= MAX_SLOT;
      if ok && id in rows {
        rows := rows[id := rows[id].(order := slot)];
      }
    }

    /** Rewrites the slots row by row, in the table and in memory. It fails, for the transaction to
        be rolled back, exactly when a row would have to go beyond the last slot. */
    method NormalizePlayerOrders(players: array<Player>) returns (ok: bool)
      modifies this, players
      ensures ok <==> SlotsFit(old(players[..]), players.Length)
      ensures ok ==> players[..] == Slotted(old(players[..]))
      ensures ok ==> rows == AfterSteps(old(rows), old(players[..]), players.Length)
    {
      hide SlotsFit, AfterSteps;
      var needed := NeedsNormalization(players);
      if !needed {
        NothingToDo(rows, players[..], players.Length);
        assert Slotted(players[..]) == players[..];
        return true;
      }
      ok := Reassign(players);
    }

    method NeedsNormalization(players: array<Player>) returns (needed: bool)
      ensures needed <==> exists i :: 0 <= i < players.Length && players[i].order != i
    {
      for i := 0 to players.Length
        invariant forall j :: 0 <= j < i ==> players[j].order == j
      {
        if players[i].order != i {
          return true;
        }
      }
      needed := false;
    }

    method Reassign(players: array<Player>) returns (ok: bool)
      modifies this, players
      ensures ok <==> SlotsFit(old(players[..]), players.Length)
      ensures ok ==> players[..] == Slotted(old(players[..]))
      ensures ok ==> rows == AfterSteps(old(rows), old(players[..]), players.Length)
    {
      ghost var was, before := players[..], rows;
      for i := 0 to players.Length
        invariant SlotsFit(was, i)
        invariant forall j :: 0 <= j < i ==> players[j] == was[j].(order := j)
        invariant forall j :: i <= j < players.Length ==> players[j] == was[j]
        invariant rows == AfterSteps(before, was, i)
      {
        hide SlotsFit, Slotted, AfterSteps;
        OneStep(before, was, i);
        if players[i].order != i {
          var updated := UpdateOrder(players[i].id, i);
          if !updated {
            return false;
          }
          players[i] := players[i].(order := i);
        }
      }
      hide SlotsFit, AfterSteps;
      assert players[..] == Slotted(was);
      ok := true;
    }
  }

  lemma OneStep(rows: PlayerTable, players: seq<Player>, k: nat)
    requires k < |players| && SlotsFit(players, k)
    ensures SlotsFit(players, k + 1) <==> (players[k].order == k || k <= MAX_SLOT)
    ensures !SlotsFit(players, k + 1) ==> !SlotsFit(players, |players|)
    ensures AfterSteps(rows, players, k + 1) ==
            if players[k].order != k then WithSlot(AfterSteps(rows, players, k), players[k].id, k)
            else AfterSteps(rows, players, k)
  {
  }

  lemma {:induction false} NothingToDo(rows: PlayerTable, players: seq<Player>, n: nat)
    requires n <= |players| && forall i :: 0 <= i < |players| ==> players[i].order == i
    ensures AfterSteps(rows, players, n) == rows && SlotsFit(players, n)
  {
    if n > 0 {
      NothingToDo(rows, players, n - 1);
    }
  }

  /** The list was read from the table. */
  ghost predicate Mirrors(rows: PlayerTable, players: seq<Player>) {
    && (forall i :: 0 <= i < |players| ==> players[i].id in rows && rows[players[i].id] == players[i])
    && (forall i, j :: 0 <= i < j < |players| ==> players[i].id != players[j].id)
  }

  /** Normalising writes nothing but slots, and only those of listed rows. */
  lemma {:induction false} OnlySlotsChange(rows: PlayerTable, players: seq<Player>, n: nat, k: Id)
    requires n <= |players|
    ensures k in AfterSteps(rows, players, n) <==> k in rows
    ensures k in rows ==> AfterSteps(rows, players, n)[k] == rows[k].(order := AfterSteps(rows, players, n)[k].order)
    ensures k in rows && (forall i :: 0 <= i < n ==> players[i].id != k) ==> AfterSteps(rows, players, n)[k] == rows[k]
  {
    if n > 0 {
      OnlySlotsChange(rows, players, n - 1, k);
    }
  }

  /** After n iterations the first n listed rows have their position as slot, the others still
      their old slot. */
  lemma {:induction false} SlotAfterSteps(rows: PlayerTable, players: seq<Player>, n: nat, i: nat)
    requires Mirrors(rows, players) && n <= |players| && i < |players|
    ensures players[i].id in AfterSteps(rows, players, n)
    ensures AfterSteps(rows, players, n)[players[i].id] == if i < n then players[i].(order := i) else players[i]
  {
    if n > 0 {
      SlotAfterSteps(rows, players, n - 1, i);
    }
  }

  /** Normalising a normalised list again writes nothing. */
  lemma NormaliseTwice(rows: PlayerTable, players: seq<Player>)
    ensures Slotted(Slotted(players)) == Slotted(players)
    ensures AfterSteps(rows, Slotted(players), |players|) == rows
    ensures SlotsFit(Slotted(players), |players|)
  {
    NothingToDo(rows, Slotted(players), |players|);
  }

  /** Normalised memory and table agree: re-reading gives the list that is in memory. */
  lemma NormalisedIsRoster(rows: PlayerTable, session: Id, players: seq<Player>)
    requires IsRoster(rows, session, players)
    ensures IsRoster(AfterSteps(rows, players, |players|), session, Slotted(players))
  {
    hide AfterSteps;
    var after, slotted := AfterSteps(rows, players, |players|), Slotted(players);
    forall i | 0 <= i < |slotted|
      ensures Seated(after, session, slotted[i].id) && after[slotted[i].id] == slotted[i]
    {
      SlotAfterSteps(rows, players, |players|, i);
    }
    forall k | Seated(after, session, k)
      ensures exists i :: 0 <= i < |slotted| && slotted[i].id == k
    {
      OnlySlotsChange(rows, players, |players|, k);
      assert Seated(rows, session, k);
      var i :| 0 <= i < |players| && players[i].id == k;
      assert slotted[i].id == k;
    }
  }

  /** When the slots are strictly ascending and not negative, no iteration makes two players share
      a slot, so even a reader in between never sees a clash. */
  lemma NoClashOnTheWay(rows: PlayerTable, session: Id, players: seq<Player>, n: nat, a: Id, b: Id)
    requires IsRoster(rows, session, players) && n <= |players|
    requires forall i :: 0 <= i < |players| ==> players[i].order >= 0
    requires forall i, j :: 0 <= i < j < |players| ==> players[i].order < players[j].order
    requires Seated(rows, session, a) && Seated(rows, session, b) && a != b
    ensures a in AfterSteps(rows, players, n) && b in AfterSteps(rows, players, n)
    ensures AfterSteps(rows, players, n)[a].order != AfterSteps(rows, players, n)[b].order
  {
    hide AfterSteps;
    var i :| 0 <= i < |players| && players[i].id == a;
    var j :| 0 <= j < |players| && players[j].id == b;
    SlotsGrow(players, i);
    SlotsGrow(players, j);
    SlotAfterSteps(rows, players, n, i);
    SlotAfterSteps(rows, players, n, j);
  }

  lemma {:induction false} SlotsGrow(players: seq<Player>, n: nat)
    requires n < |players|
    requires forall i :: 0 <= i < |players| ==> players[i].order >= 0
    requires forall i, j :: 0 <= i < j < |players| ==> players[i].order < players[j].order
    ensures players[n].order >= n
  {
    if n > 0 {
      SlotsGrow(players, n - 1);
    }
  }

  // ---- Validation of a requested order

  datatype OrderFault = Negative | TooHigh | Duplicate | Gap(slot: int)

  /** What is wrong with the order at position `i`, given those before it. */
  function FaultAt(orders: seq<int>, i: nat): Option<OrderFault>
    requires i < |orders|
  {
    if orders[i] < 0 then Some(Negative)
    else if orders[i] >= |orders| then Some(TooHigh)
    else if orders[i] in orders[..i] then Some(Duplicate)
    else None
  }

  /** The numbers from 0 below n. */
  function UpTo(n: nat): (r: seq<int>)
    ensures |r| == n && forall i :: 0 <= i < n ==> r[i] == i
  {
    seq(n, i => i)
  }

  predicate IsPermutation(orders: seq<int>) {
    multiset(orders) == multiset(UpTo(|orders|))
  }

  /** Accepts exactly the permutations of 0 .. n-1; otherwise reports the first fault. No gap is
      ever reported: by the time gaps are looked for there cannot be one. */
  method ValidatePlayerOrder(orders: seq<int>) returns (fault: Option<OrderFault>)
    ensures fault.None? <==> IsPermutation(orders)
    ensures fault.Some? ==> !fault.value.Gap? && exists i ::
              0 <= i < |orders| && FaultAt(orders, i) == fault && forall j :: 0 <= j < i ==> FaultAt(orders, j).None?
  {
    var seen: set<int> := {};
    for i := 0 to |orders|
      invariant seen == set x | x in orders[..i]
      invariant forall j :: 0 <= j < i ==> FaultAt(orders, j).None?
    {
      fault := if orders[i] < 0 then Some(Negative)
               else if orders[i] >= |orders| then Some(TooHigh)
               else if orders[i] in seen then Some(Duplicate)
               else None;
      if fault.Some? {
        PermutationHasNoFault(orders, i);
        return;
      }
      assert orders[..i + 1] == orders[..i] + [orders[i]];
      seen := seen + {orders[i]};
    }
    assert orders[..|orders|] == orders;
    NoFaultIsPermutation(orders);
    assert seen == Elements(orders) == Elements(UpTo(|orders|));
    for slot := 0 to |orders| {
      assert UpTo(|orders|)[slot] == slot;
      if slot !in seen {
        fault := Some(Gap(slot));
        assert false;
      }
    }
    fault := None;
  }

  lemma DistinctCounts(s: seq<int>, x: int)
    requires Distinct(s)
    ensures multiset(s)[x] == if x in s then 1 else 0
  {
    if s != [] {
      var init := s[..|s| - 1];
      assert s == init + [s[|s| - 1]];
      DistinctCounts(init, x);
    }
  }

  /** The pigeonhole principle: n distinct numbers below n are all of them. */
  lemma NoFaultIsPermutation(orders: seq<int>)
    requires forall i :: 0 <= i < |orders| ==> FaultAt(orders, i).None?
    ensures Elements(orders) == Elements(UpTo(|orders|)) && IsPermutation(orders)
  {
    var all := UpTo(|orders|);
    forall i, j | 0 <= i < j < |orders|
      ensures orders[i] != orders[j]
    {
      assert orders[..j][i] == orders[i];
      assert FaultAt(orders, j).None?;
    }
    forall x | x in orders
      ensures x in all
    {
      var i :| 0 <= i < |orders| && orders[i] == x;
      assert FaultAt(orders, i).None?;
      assert all[x] == x;
    }
    DistinctCardinality(orders);
    DistinctCardinality(all);
    SubsetOfSameSize(Elements(orders), Elements(all));
    forall x: int
      ensures multiset(orders)[x] == multiset(all)[x]
    {
      DistinctCounts(orders, x);
      DistinctCounts(all, x);
      assert x in orders <==> x in Elements(orders);
      assert x in all <==> x in Elements(all);
    }
  }

  lemma SubsetOfSameSize<T>(a: set<T>, b: set<T>)
    requires a <= b && |a| == |b|
    ensures a == b
  {
    if x :| x in b && x !in a {
      SubsetSize(a, b - {x});
    }
  }

  lemma SubsetSize<T>(a: set<T>, b: set<T>)
    requires a <= b
    ensures |a| <= |b|
  {
    assert |b - a| == |b| - |a|;
  }

  lemma PermutationHasNoFault(orders: seq<int>, i: nat)
    requires i < |orders| && FaultAt(orders, i).Some?
    ensures !IsPermutation(orders)
  {
    var all, before, after := UpTo(|orders|), orders[..i], orders[i..];
    var x := orders[i];
    assert orders == before + after && after[0] == x;
    assert multiset(orders)[x] == multiset(before)[x] + multiset(after)[x];
    assert x in multiset(after);
    assert x in before ==> x in multiset(before);
    DistinctCounts(all, x);
  }

  // ---- The next free slot

  /** What `SELECT MAX(player_order)` returns for the session; null without players. */
  ghost predicate IsMaxOrder(players: PlayerTable, session: Id, maxOrder: Option<int>) {
    if maxOrder.None? then forall k :: !Seated(players, session, k)
    else
      && (forall k :: Seated(players, session, k) ==> players[k].order <= maxOrder.value)
      && (exists k :: Seated(players, session, k) && players[k].order == maxOrder.value)
  }

  /** Above every slot of the session that is taken, and the first slot if none is. */
  method GetNextPlayerOrder(players: PlayerTable, session: Id, maxOrder: Option<int>) returns (next: int)
    requires IsMaxOrder(players, session, maxOrder)
    ensures forall k :: Seated(players, session, k) ==> players[k].order < next
    ensures (forall k :: !Seated(players, session, k)) ==> next == 0
    ensures next == NextOrder(maxOrder)
  {
    if maxOrder.None? {
      return 0;
    }
    next := maxOrder.value + 1;
  }

  function NextOrder(maxOrder: Option<int>): int {
    if maxOrder.None? then 0 else maxOrder.value + 1
  }

  lemma {:induction false} MaxOrderExists(players: PlayerTable, session: Id) returns (maxOrder: Option<int>)
    ensures IsMaxOrder(players, session, maxOrder)
    decreases |players|
  {
    if k :| Seated(players, session, k) {
      var rest := players - {k};
      assert rest.Keys == players.Keys - {k};
      var below := MaxOrderExists(rest, session);
      assert forall j :: Seated(players, session, j) <==> j == k || Seated(rest, session, j);
      if below.Some? && below.value >= players[k].order {
        maxOrder := below;
        var j :| Seated(rest, session, j) && rest[j].order == below.value;
        assert Seated(players, session, j) && players[j].order == below.value;
      } else {
        maxOrder := Some(players[k].order);
      }
    } else {
      maxOrder := None;
    }
  }

  /** A roster can always be listed in slot order. */
  lemma {:induction false} RosterExists(players: PlayerTable, session: Id) returns (rows: seq<Player>)
    requires forall k :: k in players ==> players[k].id == k
    ensures IsRoster(players, session, rows)
    decreases |players|
  {
    var maxOrder := MaxOrderExists(players, session);
    if maxOrder.None? {
      rows := [];
    } else {
      var k :| Seated(players, session, k) && players[k].order == maxOrder.value;
      var rest := players - {k};
      assert rest.Keys == players.Keys - {k};
      var below := RosterExists(rest, session);
      RosterGrows(players, session, k, below);
      rows := below + [players[k]];
    }
  }

  lemma {:induction false} RosterGrows(players: PlayerTable, session: Id, k: Id, below: seq<Player>)
    requires Seated(players, session, k) && players[k].id == k && IsRoster(players - {k}, session, below)
    requires forall j :: Seated(players, session, j) ==> players[j].order <= players[k].order
    ensures IsRoster(players, session, below + [players[k]])
  {
    var rest, rows := players - {k}, below + [players[k]];
    forall i | 0 <= i < |below|
      ensures Seated(players, session, below[i].id) && players[below[i].id] == below[i] && below[i].id != k
    {
      assert Seated(rest, session, below[i].id);
    }
    forall j | Seated(players, session, j)
      ensures exists i :: 0 <= i < |rows| && rows[i].id == j
    {
      if j == k {
        assert rows[|below|].id == j;
      } else {
        assert Seated(rest, session, j);
        var i :| 0 <= i < |below| && below[i].id == j;
        assert rows[i].id == j;
      }
    }
  }
}

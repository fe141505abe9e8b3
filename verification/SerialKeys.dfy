/**
 Assigning Stars! serial keys to users.

 The key table and the user profiles are shared; any number of transactions assign keys at the
 same time. One transaction runs three statements (pick and lock a free key, write the key row,
 write the profile row) and then commits or rolls back, and its writes stay private until the
 commit. The machine below interleaves these statements one by one.
 */
module SerialKeys {
  import opened Common

  type Key = string
  type User = Id
  type TxId = nat

  /** How far a transaction has come. From `Picked` on it holds the row lock on its key; in
      `ProfileWritten` it also holds the row lock on its user's profile. */
  datatype Phase =
    | Begun
    | Picked(key: Key)
    | KeyWritten(key: Key)
    | ProfileWritten(key: Key)
  {
    predicate Holds(k: Key) {
      !Begun? && key == k
    }
  }

  datatype Tx = Tx(user: User, phase: Phase)

  datatype Grant = Grant(user: User, key: Key)

  /** `keys` and `profiles` are the committed tables; `granted` remembers what each committed
      transaction returned to its caller. */
  datatype Sys = Sys(
    keys: map<Key, Option<User>>,
    profiles: map<User, Option<Key>>,
    txs: map<TxId, Tx>,
    granted: map<TxId, Grant>)
  {
    ghost predicate KeyLocked(k: Key) {
      exists t :: t in txs && txs[t].phase.Holds(k)
    }

    ghost predicate ProfileLocked(u: User) {
      exists t :: t in txs && txs[t].user == u && txs[t].phase.ProfileWritten?
    }

    function Free(): set<Key> {
      set k | k in keys && keys[k].None?
    }

    function Assigned(): set<Key> {
      set k | k in keys && keys[k].Some?
    }

    /** The keys that the table records for one user. */
    function Owned(u: User): set<Key> {
      set k | k in keys && keys[k] == Some(u)
    }

    /** The committed assignments to one user. */
    function GrantsTo(u: User): set<TxId> {
      set t | t in granted && granted[t].user == u
    }

    /** The assignments to one user that are under way. */
    function OpenFor(u: User): set<TxId> {
      set t | t in txs && txs[t].user == u
    }
  }

  datatype Label =
    | Begin(tx: TxId, user: User)
    | Pick(tx: TxId, key: Key)
    | WriteKey(tx: TxId)
    | WriteProfile(tx: TxId)
    | Commit(tx: TxId)
    | Rollback(tx: TxId)

  /** The next state, when statement `l` can run now. `SKIP LOCKED` is the guard of `Pick`: any
      committed-free key that no open transaction holds may be chosen. The foreign key from
      `serial_key` to `user_profile` is the guard of `WriteKey`. A transaction whose statement
      fails can only roll back, which is always possible. */
  ghost predicate Next(s: Sys, l: Label, s': Sys) {
    match l
    case Begin(t, u) =>
      && t !in s.txs && t !in s.granted
      && s' == s.(txs := s.txs[t := Tx(u, Begun)])
    case Pick(t, k) =>
      && t in s.txs && s.txs[t].phase.Begun?
      && k in s.keys && s.keys[k].None? && !s.KeyLocked(k)
      && s' == s.(txs := s.txs[t := s.txs[t].(phase := Picked(k))])
    case WriteKey(t) =>
      && t in s.txs && s.txs[t].phase.Picked? && s.txs[t].user in s.profiles
      && s' == s.(txs := s.txs[t := s.txs[t].(phase := KeyWritten(s.txs[t].phase.key))])
    case WriteProfile(t) =>
      && t in s.txs && s.txs[t].phase.KeyWritten? && !s.ProfileLocked(s.txs[t].user)
      && s' == s.(txs := s.txs[t := s.txs[t].(phase := ProfileWritten(s.txs[t].phase.key))])
    case Commit(t) =>
      && t in s.txs && s.txs[t].phase.ProfileWritten?
      && var Tx(u, ph) := s.txs[t];
         s' == Sys(s.keys[ph.key := Some(u)], s.profiles[u := Some(ph.key)], s.txs - {t},
                   s.granted[t := Grant(u, ph.key)])
    case Rollback(t) =>
      && t in s.txs
      && s' == s.(txs := s.txs - {t})
  }

  ghost predicate Init(s: Sys) {
    && s.txs == map[] && s.granted == map[]
    && (forall u :: u in s.profiles && s.profiles[u].Some? ==>
          s.profiles[u].value in s.keys && s.keys[s.profiles[u].value] == Some(u))
  }

  /** A run: `states[i]` goes to `states[i+1]` by `labels[i]`. */
  ghost predicate IsRun(states: seq<Sys>, labels: seq<Label>) {
    && |states| == |labels| + 1
    && Init(states[0])
    && forall i :: 0 <= i < |labels| ==> Next(states[i], labels[i], states[i + 1])
  }

  // ---- Invariants

  /** A held key exists and is still free in the committed table. */
  ghost predicate HeldKeysAreFree(s: Sys) {
    forall t :: t in s.txs && !s.txs[t].phase.Begun? ==>
      s.txs[t].phase.key in s.keys && s.keys[s.txs[t].phase.key].None?
  }

  ghost predicate LocksAreExclusive(s: Sys) {
    forall t1, t2 :: t1 in s.txs && t2 in s.txs && t1 != t2 && !s.txs[t1].phase.Begun? ==>
      !s.txs[t2].phase.Holds(s.txs[t1].phase.key)
  }

  /** A profile's key is recorded as that user's key. */
  ghost predicate ProfileKeysAreOwned(s: Sys) {
    forall u :: u in s.profiles && s.profiles[u].Some? ==>
      s.profiles[u].value in s.keys && s.keys[s.profiles[u].value] == Some(u)
  }

  ghost predicate GrantsAreRecorded(s: Sys) {
    && (forall t :: t in s.granted ==>
          t !in s.txs && s.granted[t].key in s.keys
          && s.keys[s.granted[t].key] == Some(s.granted[t].user))
    && (forall t1, t2 :: t1 in s.granted && t2 in s.granted && t1 != t2 ==>
          s.granted[t1].key != s.granted[t2].key)
  }

  ghost predicate Inv(s: Sys) {
    HeldKeysAreFree(s) && LocksAreExclusive(s) && ProfileKeysAreOwned(s) && GrantsAreRecorded(s)
  }

  lemma LocksKept(s: Sys, l: Label, s': Sys)
    requires HeldKeysAreFree(s) && LocksAreExclusive(s) && Next(s, l, s')
    ensures HeldKeysAreFree(s') && LocksAreExclusive(s')
  {
  }

  lemma OwnersKept(s: Sys, l: Label, s': Sys)
    requires HeldKeysAreFree(s) && ProfileKeysAreOwned(s) && Next(s, l, s')
    ensures ProfileKeysAreOwned(s')
    ensures s'.keys.Keys == s.keys.Keys
    ensures forall k :: k in s.keys && s.keys[k].Some? ==> s'.keys[k] == s.keys[k]
  {
  }

  lemma GrantsKept(s: Sys, l: Label, s': Sys)
    requires HeldKeysAreFree(s) && GrantsAreRecorded(s) && Next(s, l, s')
    ensures GrantsAreRecorded(s')
  {
  }

  /** Every statement of every transaction keeps the invariants, keeps the set of keys, and
      leaves every assigned key with its owner. */
  lemma NextKeepsInv(s: Sys, l: Label, s': Sys)
    requires Inv(s) && Next(s, l, s')
    ensures Inv(s')
    ensures s'.keys.Keys == s.keys.Keys
    ensures forall k :: k in s.keys && s.keys[k].Some? ==> s'.keys[k] == s.keys[k]
  {
    hide Next, HeldKeysAreFree, LocksAreExclusive, ProfileKeysAreOwned, GrantsAreRecorded;
    LocksKept(s, l, s');
    OwnersKept(s, l, s');
    GrantsKept(s, l, s');
  }

  lemma {:induction false} RunKeepsInv(states: seq<Sys>, labels: seq<Label>, i: nat)
    requires IsRun(states, labels) && i < |states|
    ensures Inv(states[i])
    ensures states[i].keys.Keys == states[0].keys.Keys
  {
    if i > 0 {
      RunKeepsInv(states, labels, i - 1);
      NextKeepsInv(states[i - 1], labels[i - 1], states[i]);
    }
  }

  /** In every run, two committed assignments never return the same key, and every profile's key
      is owned by that profile in the key table. */
  lemma KeysAreNeverShared(states: seq<Sys>, labels: seq<Label>, i: nat)
    requires IsRun(states, labels) && i < |states|
    ensures forall t1, t2 :: t1 in states[i].granted && t2 in states[i].granted && t1 != t2 ==>
              states[i].granted[t1].key != states[i].granted[t2].key
    ensures forall u1, u2 ::
              (u1 in states[i].profiles && u2 in states[i].profiles && u1 != u2 && states[i].profiles[u1].Some?) ==>
                states[i].profiles[u1] != states[i].profiles[u2]
    ensures ProfileKeysAreOwned(states[i])
  {
    RunKeepsInv(states, labels, i);
  }

  /** In every run an assigned key keeps its owner for ever after. */
  lemma {:induction false} AssignmentsAreNeverFreed(states: seq<Sys>, labels: seq<Label>, i: nat, j: nat, k: Key)
    requires IsRun(states, labels) && i <= j < |states|
    requires k in states[i].keys && states[i].keys[k].Some?
    ensures k in states[j].keys && states[j].keys[k] == states[i].keys[k]
    decreases j
  {
    if i < j {
      AssignmentsAreNeverFreed(states, labels, i, j - 1, k);
      RunKeepsInv(states, labels, j - 1);
      NextKeepsInv(states[j - 1], labels[j - 1], states[j]);
    }
  }

  /** What the two counters return add up to the size of the table. */
  lemma FreePlusAssigned(s: Sys)
    ensures |s.Free()| + |s.Assigned()| == |s.keys|
  {
    assert s.Free() + s.Assigned() == s.keys.Keys;
    assert s.Free() !! s.Assigned();
  }

  lemma NothingGrantedAtFirst(states: seq<Sys>, labels: seq<Label>)
    requires IsRun(states, labels)
    ensures states[0].granted == map[]
  {
  }

  /** In every run the table keeps its keys, and the assigned count is the initial one plus the
      number of committed assignments: nothing is assigned twice, lost or freed. */
  lemma {:induction false} KeysAreConserved(states: seq<Sys>, labels: seq<Label>, i: nat)
    requires IsRun(states, labels) && i < |states|
    ensures |states[i].Free()| + |states[i].Assigned()| == |states[0].keys|
    ensures |states[i].Assigned()| == |states[0].Assigned()| + |states[i].granted|
  {
    hide Next, Init, HeldKeysAreFree, LocksAreExclusive, ProfileKeysAreOwned, GrantsAreRecorded, Sys.Free, Sys.Assigned;
    FreePlusAssigned(states[i]);
    NothingGrantedAtFirst(states, labels);
    RunKeepsInv(states, labels, i);
    assert |states[i].keys| == |states[i].keys.Keys| == |states[0].keys.Keys|;
    if i > 0 {
      KeysAreConserved(states, labels, i - 1);
      RunKeepsInv(states, labels, i - 1);
      OneStepOfConservation(states[i - 1], labels[i - 1], states[i]);
    }
  }

  lemma OneStepOfConservation(s: Sys, l: Label, s': Sys)
    requires HeldKeysAreFree(s) && GrantsAreRecorded(s) && Next(s, l, s')
    ensures |s'.Assigned()| - |s.Assigned()| == |s'.granted| - |s.granted|
  {
    if l.Commit? {
      OneCommit(s, l.tx, s');
      hide *;
      var k := s.txs[l.tx].phase.key;
      assert |s.Assigned() + {k}| == |s.Assigned()| + 1;
    } else {
      OnlyCommitsWrite(s, l, s');
    }
  }

  lemma OneCommit(s: Sys, t: TxId, s': Sys)
    requires HeldKeysAreFree(s) && GrantsAreRecorded(s) && Next(s, Commit(t), s')
    ensures t in s.txs && !s.txs[t].phase.Begun? && |s'.granted| == |s.granted| + 1
    ensures var k := s.txs[t].phase.key; k !in s.Assigned() && s'.Assigned() == s.Assigned() + {k}
  {
    var Tx(u, phase) := s.txs[t];
    assert s.keys[phase.key].None? && t !in s.granted;
    hide HeldKeysAreFree, GrantsAreRecorded;
    forall k
      ensures k in s'.Assigned() <==> k in s.Assigned() || k == phase.key
    {
    }
  }

  lemma OnlyCommitsWrite(s: Sys, l: Label, s': Sys)
    requires Next(s, l, s') && !l.Commit?
    ensures s'.keys == s.keys && s'.granted == s.granted
  {
  }

  // ---- One transaction on its own

  /** The states of a transaction that runs through all its statements, and what it changes. */
  ghost predicate IsSolo(states: seq<Sys>, t: TxId, u: User, k: Key) {
    && |states| == 6
    && Next(states[0], Begin(t, u), states[1]) && Next(states[1], Pick(t, k), states[2])
    && Next(states[2], WriteKey(t), states[3]) && Next(states[3], WriteProfile(t), states[4])
    && Next(states[4], Commit(t), states[5])
    && states[5].keys == states[0].keys[k := Some(u)] && states[5].profiles == states[0].profiles[u := Some(k)]
    && states[5].txs == states[0].txs && states[5].granted == states[0].granted[t := Grant(u, k)]
  }

  /** The machine lets a transaction through from any state in which a free key is unlocked and
      the user's profile is not being written; it then changes the tables the way
      `KeyStore.AssignKeyToUser` does. */
  lemma SoloTransaction(s: Sys, t: TxId, u: User, k: Key) returns (states: seq<Sys>)
    requires t !in s.txs && t !in s.granted && u in s.profiles && !s.ProfileLocked(u)
    requires k in s.keys && s.keys[k].None? && !s.KeyLocked(k)
    ensures IsSolo(states, t, u, k) && states[0] == s
  {
    var s1 := s.(txs := s.txs[t := Tx(u, Begun)]);
    var s2 := s.(txs := s.txs[t := Tx(u, Picked(k))]);
    var s3 := s.(txs := s.txs[t := Tx(u, KeyWritten(k))]);
    var s4 := s.(txs := s.txs[t := Tx(u, ProfileWritten(k))]);
    var s5 := Sys(s.keys[k := Some(u)], s.profiles[u := Some(k)], s.txs, s.granted[t := Grant(u, k)]);
    assert s1.txs[t := Tx(u, Picked(k))] == s2.txs;
    assert s2.txs[t := Tx(u, KeyWritten(k))] == s3.txs;
    assert s3.txs[t := Tx(u, ProfileWritten(k))] == s4.txs;
    assert s4.txs - {t} == s.txs;
    states := [s, s1, s2, s3, s4, s5];
  }

  // ---- One key per user?

  /** Only a commit for the user changes what the user owns, and it adds one key and one grant. */
  lemma OwnedAfterStep(s: Sys, l: Label, s': Sys, u: User)
    requires HeldKeysAreFree(s) && GrantsAreRecorded(s) && Next(s, l, s')
    ensures if l.Commit? && s.txs[l.tx].user == u then
              && s.txs[l.tx].phase.key !in s.Owned(u) && s'.Owned(u) == s.Owned(u) + {s.txs[l.tx].phase.key}
              && l.tx !in s.GrantsTo(u) && s'.GrantsTo(u) == s.GrantsTo(u) + {l.tx}
            else s'.Owned(u) == s.Owned(u) && s'.GrantsTo(u) == s.GrantsTo(u)
  {
    if l.Commit? {
      var Tx(v, phase) := s.txs[l.tx];
      assert s.keys[phase.key].None? && l.tx !in s.granted;
      hide HeldKeysAreFree, GrantsAreRecorded;
      assert forall k :: k in s'.Owned(u) <==> k in s.Owned(u) || (v == u && k == phase.key);
      assert forall t :: t in s'.GrantsTo(u) <==> t in s.GrantsTo(u) || (v == u && t == l.tx);
    } else {
      OnlyCommitsWrite(s, l, s');
    }
  }

  /** In every run the keys of a user are those of the start and one for each assignment committed to
      that user. */
  lemma {:induction false} KeysOfUser(states: seq<Sys>, labels: seq<Label>, i: nat, u: User)
    requires IsRun(states, labels) && i < |states|
    ensures |states[i].Owned(u)| == |states[0].Owned(u)| + |states[i].GrantsTo(u)|
  {
    hide Next, Init, HeldKeysAreFree, LocksAreExclusive, ProfileKeysAreOwned, GrantsAreRecorded, Sys.Owned;
    if i == 0 {
      NothingGrantedAtFirst(states, labels);
    } else {
      hide Sys.GrantsTo;
      KeysOfUser(states, labels, i - 1, u);
      RunKeepsInv(states, labels, i - 1);
      OwnedAfterStep(states[i - 1], labels[i - 1], states[i], u);
    }
  }

  /** So a user holds at most one key exactly as long as the keys of the start and the assignments
      committed to that user are at most one together. */
  lemma OneKeyIffOneGrant(states: seq<Sys>, labels: seq<Label>, i: nat, u: User)
    requires IsRun(states, labels) && i < |states|
    ensures |states[i].Owned(u)| <= 1 <==> |states[0].Owned(u)| + |states[i].GrantsTo(u)| <= 1
  {
    hide *;
    KeysOfUser(states, labels, i, u);
  }

  /** A commit gives its user a second key exactly when the committed key table already has a key of
      that user. */
  lemma SecondKeyIffOwnedBefore(states: seq<Sys>, labels: seq<Label>, i: nat)
    requires IsRun(states, labels) && i < |labels| && labels[i].Commit?
    ensures labels[i].tx in states[i].txs
    ensures var u := states[i].txs[labels[i].tx].user;
            |states[i + 1].Owned(u)| > 1 <==> states[i].Owned(u) != {}
  {
    hide HeldKeysAreFree, LocksAreExclusive, ProfileKeysAreOwned, GrantsAreRecorded, Sys.Owned, Sys.GrantsTo;
    assert Next(states[i], labels[i], states[i + 1]);
    RunKeepsInv(states, labels, i);
    var u := states[i].txs[labels[i].tx].user;
    OwnedAfterStep(states[i], labels[i], states[i + 1], u);
  }

  /** How many assignments to the user are begun in a stretch of a run. */
  function BegunFor(labels: seq<Label>, u: User): nat {
    if labels == [] then 0
    else
      var last := labels[|labels| - 1];
      BegunFor(labels[..|labels| - 1], u) + if last.Begin? && last.user == u then 1 else 0
  }

  lemma OpenAfterStep(s: Sys, l: Label, s': Sys, u: User)
    requires Next(s, l, s')
    ensures |s'.OpenFor(u)| == |s.OpenFor(u)|
              + (if l.Begin? && l.user == u then 1 else 0)
              - (if (l.Commit? || l.Rollback?) && s.txs[l.tx].user == u then 1 else 0)
  {
    match l
    case Begin(t, v) =>
      assert s'.OpenFor(u) == if v == u then s.OpenFor(u) + {t} else s.OpenFor(u);
    case Commit(t) => OneLessOpen(s, t, s', u);
    case Rollback(t) => OneLessOpen(s, t, s', u);
    case _ => assert s'.OpenFor(u) == s.OpenFor(u);
  }

  lemma OneLessOpen(s: Sys, t: TxId, s': Sys, u: User)
    requires t in s.txs && s'.txs == s.txs - {t}
    ensures |s'.OpenFor(u)| == |s.OpenFor(u)| - if s.txs[t].user == u then 1 else 0
  {
    assert s'.OpenFor(u) == s.OpenFor(u) - {t};
    assert t in s.OpenFor(u) <==> s.txs[t].user == u;
  }

  /** What an approval can look at first: from any state of any run on, the keys of a user stay within
      those the user owns, the assignments for the user that are open, and those begun later. */
  lemma {:induction false} KeysStayWithinOpen(states: seq<Sys>, labels: seq<Label>, i: nat, j: nat, u: User)
    requires IsRun(states, labels) && i <= j < |states|
    ensures |states[j].Owned(u)| + |states[j].OpenFor(u)| <=
            |states[i].Owned(u)| + |states[i].OpenFor(u)| + BegunFor(labels[i..j], u)
    decreases j
  {
    hide Next, Init, HeldKeysAreFree, LocksAreExclusive, ProfileKeysAreOwned, GrantsAreRecorded, Sys.Owned,
      Sys.OpenFor, Sys.GrantsTo;
    if i < j {
      KeysStayWithinOpen(states, labels, i, j - 1, u);
      RunKeepsInv(states, labels, j - 1);
      OwnedAfterStep(states[j - 1], labels[j - 1], states[j], u);
      OpenAfterStep(states[j - 1], labels[j - 1], states[j], u);
      assert labels[i..j][..j - i - 1] == labels[i..j - 1] && labels[i..j][j - i - 1] == labels[j - 1];
    }
  }

  /** So a single approval of a user without a key and without an open assignment gives one key. */
  lemma OneApprovalOneKey(states: seq<Sys>, labels: seq<Label>, i: nat, j: nat, u: User)
    requires IsRun(states, labels) && i <= j < |states|
    requires states[i].Owned(u) == {} && states[i].OpenFor(u) == {} && BegunFor(labels[i..j], u) <= 1
    ensures |states[j].Owned(u)| <= 1
  {
    hide *;
    KeysStayWithinOpen(states, labels, i, j, u);
  }

  /** That keys are never shared does not mean one key per user: two approvals of the same user, even
      one after the other, take two keys, of which the profile names the last. */
  lemma OneUserMayTakeTwoKeys(s: Sys, t1: TxId, t2: TxId, u: User, k1: Key, k2: Key)
    returns (first: seq<Sys>, second: seq<Sys>)
    requires s.txs == map[] && t1 != t2 && t1 !in s.granted && t2 !in s.granted && u in s.profiles
    requires k1 != k2 && k1 in s.keys && k2 in s.keys && s.keys[k1].None? && s.keys[k2].None?
    ensures IsSolo(first, t1, u, k1) && IsSolo(second, t2, u, k2) && first[0] == s && second[0] == first[5]
    ensures |second[5].Owned(u)| > 1
  {
    hide Next;
    first := SoloTransaction(s, t1, u, k1);
    second := SoloTransaction(first[5], t2, u, k2);
    OwnsBoth(second[5], u, k1, k2);
  }

  lemma OwnsBoth(s: Sys, u: User, k1: Key, k2: Key)
    requires k1 != k2 && k1 in s.keys && k2 in s.keys && s.keys[k1] == s.keys[k2] == Some(u)
    ensures |s.Owned(u)| > 1
  {
    var owned := s.Owned(u);
    assert {k1, k2} <= owned;
    assert |owned| == |owned - {k1, k2}| + 2;
  }

  /** The tables as one request sees them; `locked` are the keys other open transactions hold. */
  class KeyStore {
    var keys: map<Key, Option<User>>
    var profiles: map<User, Option<Key>>

    ghost predicate Consistent()
      reads this
    {
      forall u :: u in profiles && profiles[u].Some? ==>
        profiles[u].value in keys && keys[profiles[u].value] == Some(u)
    }

    /** Fails, leaving both tables as they were, exactly when every free key is locked, the user
        has no profile, or the commit is refused; otherwise one free unlocked key goes to the
        user in both tables and nothing else changes. */
    method AssignKeyToUser(user: User, locked: set<Key>, commits: bool) returns (r: Result<Key, ()>)
      requires Consistent()
      modifies this
      ensures Consistent()
      ensures r.Err? <==>
              || (forall k :: k in old(keys) && old(keys)[k].None? ==> k in locked)
              || user !in old(profiles)
              || !commits
      ensures r.Err? ==> keys == old(keys) && profiles == old(profiles)
      ensures r.Ok? ==>
              && r.value in old(keys) && old(keys)[r.value].None? && r.value !in locked
              && keys == old(keys)[r.value := Some(user)]
              && profiles == old(profiles)[user := Some(r.value)]
    {
      var available := set k | k in keys && keys[k].None? && k !in locked;
      if available == {} {
        assert forall k :: k in keys && keys[k].None? && k !in locked ==> k in available;
        return Err(());
      }
      var key :| key in available;
      if user !in profiles || !commits {
        return Err(());
      }
      keys := keys[key := Some(user)];
      profiles := profiles[user := Some(key)];
      return Ok(key);
    }

    /** The two counters. */
    method CountKeys() returns (available: nat, taken: nat)
      ensures available + taken == |keys|
      ensures available == |set k | k in keys && keys[k].None?|
    {
      var freeKeys := set k | k in keys && keys[k].None?;
      var assignedKeys := set k | k in keys && keys[k].Some?;
      assert freeKeys + assignedKeys == keys.Keys;
      assert freeKeys !! assignedKeys;
      available, taken := |freeKeys|, |assignedKeys|;
    }
  }

  // ---- Loading the key list

  const BATCH_SIZE: nat := 50000

  const KEY_WIDTH: nat := 8

  /** The lines of the embedded file that are keys: not the header, not the empty lines. */
  function KeysOf(lines: seq<string>): (keys: seq<Key>)
    ensures forall k :: k in keys ==> k != "" && k in lines
  {
    if |lines| <= 1 then []
    else KeysOf(lines[..|lines| - 1]) + (if lines[|lines| - 1] == "" then [] else [lines[|lines| - 1]])
  }

  method LoadKeys(lines: seq<string>) returns (keys: seq<Key>)
    ensures keys == KeysOf(lines)
  {
    keys := [];
    var i := 1;
    while i < |lines|
      invariant 1 <= i
      invariant i <= |lines| || |lines| == 0
      invariant keys == KeysOf(if |lines| == 0 then [] else lines[..i])
    {
      assert lines[..i + 1][..i] == lines[..i];
      if lines[i] != "" {
        keys := keys + [lines[i]];
      }
      i := i + 1;
    }
    assert lines == [] || lines[..|lines|] == lines;
  }

  /** How many of the first `n` lines are keys. */
  function KeysBefore(lines: seq<string>, n: nat): nat
    requires n <= |lines|
  {
    |set j | 0 <= j < n && lines[j] != "" && j > 0|
  }

  /** Every line that is not empty and not the header is a key, at its place among them; there are no
      other keys. */
  lemma {:induction false} KeysInOrder(lines: seq<string>, i: nat)
    requires i < |lines|
    ensures |KeysOf(lines)| == KeysBefore(lines, |lines|)
    ensures i > 0 && lines[i] != "" ==>
              KeysBefore(lines, i) < |KeysOf(lines)| && KeysOf(lines)[KeysBefore(lines, i)] == lines[i]
  {
    var last := |lines| - 1;
    OneMoreLine(lines, last);
    if last == 0 {
      assert (set j | 0 <= j < 1 && lines[j] != "" && j > 0) == {};
    } else {
      SameLines(lines, last);
      if i < last {
        KeysInOrder(lines[..last], i);
        SameLines(lines, i);
        assert KeysBefore(lines[..last], i) == KeysBefore(lines, i) by {
          assert (set j | 0 <= j < i && lines[..last][j] != "" && j > 0) ==
                 set j | 0 <= j < i && lines[j] != "" && j > 0;
        }
      } else {
        KeysInOrder(lines[..last], last - 1);
      }
    }
  }

  lemma OneMoreLine(lines: seq<string>, n: nat)
    requires n < |lines|
    ensures KeysBefore(lines, n + 1) == KeysBefore(lines, n) + if n > 0 && lines[n] != "" then 1 else 0
  {
    var before := set j | 0 <= j < n && lines[j] != "" && j > 0;
    var after := set j | 0 <= j < n + 1 && lines[j] != "" && j > 0;
    assert after == before + if n > 0 && lines[n] != "" then {n} else {};
  }

  lemma SameLines(lines: seq<string>, n: nat)
    requires n <= |lines|
    ensures KeysBefore(lines[..n], n) == KeysBefore(lines, n)
  {
    assert (set j | 0 <= j < n && lines[..n][j] != "" && j > 0) == set j | 0 <= j < n && lines[j] != "" && j > 0;
  }

  /** What the COPY of one batch is refused for besides outside failures: a key that is too wide
      or a key the table already has (primary key). */
  predicate CanInsert(rows: seq<Key>, batch: seq<Key>) {
    && (forall i :: 0 <= i < |batch| ==> |batch[i]| <= KEY_WIDTH && batch[i] !in rows)
    && (forall i, j :: 0 <= i < j < |batch| ==> batch[i] != batch[j])
  }

  function BatchEnd(start: nat, total: nat): nat {
    if start + BATCH_SIZE > total then total else start + BATCH_SIZE
  }

  /** Loading from `start`: `up(start)` says whether the database accepts the transaction that
      begins there. */
  function LoadFrom(rows: seq<Key>, keys: seq<Key>, start: nat, up: nat -> bool): (r: (bool, seq<Key>))
    requires start <= |keys|
    decreases |keys| - start
  {
    if start == |keys| then (true, rows)
    else
      var end := BatchEnd(start, |keys|);
      var batch := keys[start..end];
      if up(start) && CanInsert(rows, batch) then LoadFrom(rows + batch, keys, end, up)
      else (false, rows)
  }

  /** The whole command: it does nothing when the table has any key. */
  function Load(rows: seq<Key>, keys: seq<Key>, up: nat -> bool): (bool, seq<Key>) {
    if rows != [] then (true, rows) else LoadFrom(rows, keys, 0, up)
  }

  class KeyTable {
    var rows: seq<Key>

    method InsertKeyBatch(batch: seq<Key>, accepted: bool) returns (ok: bool)
      modifies this
      ensures ok == (accepted && CanInsert(old(rows), batch))
      ensures rows == if ok then old(rows) + batch else old(rows)
    {
      ok := accepted;
      ghost var before := rows;
      var copied := rows;
      var i := 0;
      while ok && i < |batch|
        invariant 0 <= i <= |batch|
        invariant rows == before
        invariant ok ==> accepted && copied == before + batch[..i] && CanInsert(before, batch[..i])
        invariant !ok ==> !(accepted && CanInsert(before, batch))
        decreases |batch| - i, ok
      {
        if |batch[i]| > KEY_WIDTH || batch[i] in copied {
          ok := false;
        } else {
          copied := copied + [batch[i]];
          i := i + 1;
        }
      }
      if ok {
        assert batch[..|batch|] == batch;
        rows := copied;
      }
    }

    method LoadKeysIntoDB(keys: seq<Key>, up: nat -> bool) returns (ok: bool)
      modifies this
      ensures (ok, rows) == Load(old(rows), keys, up)
    {
      if rows != [] {
        return true;
      }
      var batchStart := 0;
      while batchStart < |keys|
        invariant 0 <= batchStart <= |keys|
        invariant LoadFrom(rows, keys, batchStart, up) == LoadFrom([], keys, 0, up)
        decreases |keys| - batchStart
      {
        var batchEnd := batchStart + BATCH_SIZE;
        if batchEnd > |keys| {
          batchEnd := |keys|;
        }
        ok := InsertKeyBatch(keys[batchStart..batchEnd], up(batchStart));
        if !ok {
          return false;
        }
        batchStart := batchEnd;
      }
      ok := true;
    }
  }

  /** A load that starts with the first `start` keys in place ends with all of them, or stops
      after whole batches in front of one that was refused. Every batch on the way was non-empty
      and no longer than the limit. */
  lemma {:induction false} LoadFromKeepsWholeBatches(rows: seq<Key>, keys: seq<Key>, start: nat, up: nat -> bool)
    requires start <= |keys| && rows == keys[..start]
    requires start % BATCH_SIZE == 0 || start == |keys|
    ensures var (ok, rows') := LoadFrom(rows, keys, start, up);
            if ok then rows' == keys
            else
              && start <= |rows'| < |keys|
              && |rows'| % BATCH_SIZE == 0
              && rows' == keys[..|rows'|]
              && !(up(|rows'|) && CanInsert(rows', keys[|rows'|..BatchEnd(|rows'|, |keys|)]))
              && 0 < BatchEnd(|rows'|, |keys|) - |rows'| <= BATCH_SIZE
    decreases |keys| - start
  {
    if start < |keys| {
      var end := BatchEnd(start, |keys|);
      var batch := keys[start..end];
      if up(start) && CanInsert(rows, batch) {
        assert keys[..start] + batch == keys[..end];
        LoadFromKeepsWholeBatches(rows + batch, keys, end, up);
      }
    } else {
      assert keys[..start] == keys;
    }
  }

  /** Loading an empty table: all keys in order on success, a prefix of whole batches ending in
      front of a refused batch otherwise. */
  lemma LoadIsAllOrWholeBatches(keys: seq<Key>, up: nat -> bool)
    ensures var (ok, rows) := Load([], keys, up);
            if ok then rows == keys
            else |rows| < |keys| && |rows| % BATCH_SIZE == 0 && rows == keys[..|rows|]
  {
    LoadFromKeepsWholeBatches([], keys, 0, up);
  }

  /** A load into an empty table succeeds exactly when no key is longer than 8 characters, no two are
      the same, and the database accepts each transaction of 50000 keys. */
  lemma LoadSucceedsIff(keys: seq<Key>, up: nat -> bool)
    ensures Load([], keys, up).0 <==>
            && (forall i :: 0 <= i < |keys| ==> |keys[i]| <= 8)
            && Distinct(keys)
            && (forall s: nat :: s < |keys| && s % 50000 == 0 ==> up(s))
  {
    LoadFromSucceedsIff(keys, 0, up);
    assert keys[..0] == [];
    assert (forall i :: 0 <= i < |keys| ==> keys[i] !in keys[..i]) <==> Distinct(keys) by {
      NewEachTime(keys);
    }
  }

  lemma NewEachTime(keys: seq<Key>)
    ensures (forall i :: 0 <= i < |keys| ==> keys[i] !in keys[..i]) <==> Distinct(keys)
  {
    if forall i :: 0 <= i < |keys| ==> keys[i] !in keys[..i] {
      forall i, j | 0 <= i < j < |keys|
        ensures keys[i] != keys[j]
      {
        assert keys[..j][i] == keys[i];
      }
    }
  }

  lemma {:induction false} LoadFromSucceedsIff(keys: seq<Key>, start: nat, up: nat -> bool)
    requires start <= |keys| && (start % BATCH_SIZE == 0 || start == |keys|)
    ensures LoadFrom(keys[..start], keys, start, up).0 <==>
            && (forall i :: start <= i < |keys| ==> |keys[i]| <= 8 && keys[i] !in keys[..i])
            && (forall s: nat :: start <= s < |keys| && s % BATCH_SIZE == 0 ==> up(s))
    decreases |keys| - start
  {
    if start < |keys| {
      var end := BatchEnd(start, |keys|);
      BatchIsNew(keys, start, end);
      assert keys[..start] + keys[start..end] == keys[..end];
      LoadFromSucceedsIff(keys, end, up);
      hide LoadFrom;
      assert forall s: nat :: start < s < end ==> s % BATCH_SIZE != 0;
      assert (forall i :: start <= i < |keys| ==> |keys[i]| <= 8 && keys[i] !in keys[..i]) <==>
             && (forall i :: start <= i < end ==> |keys[i]| <= 8 && keys[i] !in keys[..i])
             && (forall i :: end <= i < |keys| ==> |keys[i]| <= 8 && keys[i] !in keys[..i]);
    }
  }

  lemma BatchIsNew(keys: seq<Key>, start: nat, end: nat)
    requires start <= end <= |keys|
    ensures CanInsert(keys[..start], keys[start..end]) <==>
            forall i :: start <= i < end ==> |keys[i]| <= 8 && keys[i] !in keys[..i]
  {
    var rows, batch := keys[..start], keys[start..end];
    if CanInsert(rows, batch) {
      forall i | start <= i < end
        ensures |keys[i]| <= 8 && keys[i] !in keys[..i]
      {
        assert batch[i - start] == keys[i];
        forall j | 0 <= j < i
          ensures keys[j] != keys[i]
        {
          assert if j < start then rows[j] == keys[j] else batch[j - start] == keys[j];
        }
      }
    }
    if forall i :: start <= i < end ==> |keys[i]| <= 8 && keys[i] !in keys[..i] {
      forall i | 0 <= i < |batch|
        ensures |batch[i]| <= KEY_WIDTH && batch[i] !in rows
      {
        assert batch[i] == keys[start + i];
        assert forall j :: 0 <= j < start ==> rows[j] == keys[..start + i][j];
      }
      forall i, j | 0 <= i < j < |batch|
        ensures batch[i] != batch[j]
      {
        assert batch[j] == keys[start + j] && batch[i] == keys[..start + j][start + i];
      }
    }
  }

  /** The command may be run again after a failure, but it repairs the table only if the very
      first batch was the refused one: any later failure leaves keys behind, and then every rerun
      reports success and inserts nothing. */
  lemma RerunCompletesOnlyAnEmptyLoad(keys: seq<Key>, up: nat -> bool, up2: nat -> bool)
    requires !Load([], keys, up).0
    ensures var rows := Load([], keys, up).1;
            && (rows != [] ==> Load(rows, keys, up2) == (true, rows) && rows != keys)
            && (rows == [] <==> !(up(0) && CanInsert([], keys[..BatchEnd(0, |keys|)])))
  {
    LoadFromKeepsWholeBatches([], keys, 0, up);
    var end := BatchEnd(0, |keys|);
    assert keys[0..end] == keys[..end];
    if up(0) && CanInsert([], keys[..end]) {
      assert [] + keys[..end] == keys[..end];
      LoadFromKeepsWholeBatches(keys[..end], keys, end, up);
    }
  }

  function NumberedKey(i: nat): Key
    requires i <= BATCH_SIZE
  {
    [(100 + i / 1000) as char, (100 + i % 1000) as char]
  }

  /** Such a load exists: one key more than a batch, and the second batch is refused by an outside
      failure. The first batch is there for good, and no rerun will bring the last key. */
  lemma PartialLoad() returns (keys: seq<Key>, up: nat -> bool)
    ensures |keys| == BATCH_SIZE + 1 && Load([], keys, up) == (false, keys[..BATCH_SIZE])
    ensures forall up2: nat -> bool :: Load(keys[..BATCH_SIZE], keys, up2) == (true, keys[..BATCH_SIZE])
    ensures keys[..BATCH_SIZE] != keys
  {
    keys := seq(BATCH_SIZE + 1, i requires 0 <= i <= BATCH_SIZE => NumberedKey(i));
    up := start => start == 0;
    var batch := keys[0..BATCH_SIZE];
    forall i, j | 0 <= i < j <= BATCH_SIZE
      ensures keys[i] != keys[j]
    {
      assert keys[i] == NumberedKey(i) && keys[j] == NumberedKey(j);
      assert i == i / 1000 * 1000 + i % 1000 && j == j / 1000 * 1000 + j % 1000;
    }
    assert CanInsert([], batch);
    assert [] + batch == keys[..BATCH_SIZE];
    assert LoadFrom(keys[..BATCH_SIZE], keys, BATCH_SIZE, up) == (false, keys[..BATCH_SIZE]);
  }
}

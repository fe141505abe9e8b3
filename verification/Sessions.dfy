/** The transactions on a session other than generating its game, and who may see it. */
module Sessions {
  import opened Common
  import opened Relations
  import opened Database

  predicate IsAuthorizedManager(db: Database, principal: Principal, session: Id) {
    !principal.isPending && (principal.isGlobalManager || IsManager(db, principal.subject, session))
  }

  // ---- Rules

  const MIN_CAPITAL_SHIPS := 10
  const MAX_CAPITAL_SHIPS := 300

  function Clamped(rules: Rules): (r: Rules)
    ensures MIN_CAPITAL_SHIPS <= r.capitalShips <= MAX_CAPITAL_SHIPS && r.others == rules.others
    ensures MIN_CAPITAL_SHIPS <= rules.capitalShips <= MAX_CAPITAL_SHIPS ==> r == rules
  {
    if rules.capitalShips < MIN_CAPITAL_SHIPS then rules.(capitalShips := MIN_CAPITAL_SHIPS)
    else if rules.capitalShips > MAX_CAPITAL_SHIPS then rules.(capitalShips := MAX_CAPITAL_SHIPS)
    else rules
  }

  predicate IsRulesetOf(rulesets: map<Id, RulesetRow>, session: Id, id: Id) {
    id in rulesets && rulesets[id].sessionId == session
  }

  /** What looking a session's ruleset up by session returns: some row, or none if there is none. */
  ghost predicate RulesetFound(rulesets: map<Id, RulesetRow>, session: Id, found: Option<Id>) {
    match found
    case Some(id) => IsRulesetOf(rulesets, session, id)
    case None => forall id :: !IsRulesetOf(rulesets, session, id)
  }

  /** `accepted` stands for the ranges that the table imposes on the other columns. */
  function SetRules(
      db: Database, principal: Principal, session: Id, rules: Rules, found: Option<Id>, newId: Id, accepted: bool)
    : Outcome
  {
    if !principal.isGlobalManager && !IsManager(db, principal.subject, session) then Err(Forbidden)
    else if session !in db.sessions then Err(NotFound)
    else if db.sessions[session].state != Pending then Err(PreconditionFailed)
    else if !accepted || (found.None? && newId in db.rulesets) then Err(Failed)
    else
      var row := RulesetRow(session, Clamped(rules));
      if found.Some? then Ok(db.(rulesets := db.rulesets[found.value := row]))
      else Ok(db.(rulesets := db.rulesets[newId := row],
                  sessions := db.sessions[session :=
                    db.sessions[session].(rulesIsSet := true, rulesetId := Some(newId))]))
  }

  method HandleRulesCreate(
      store: Store, principal: Principal, session: Id, rules: Rules, found: Option<Id>, newId: Id, accepted: bool)
    returns (r: Result<Rules, Error>)
    requires RulesetFound(store.db.rulesets, session, found)
    modifies store
    ensures var outcome := SetRules(old(store.db), principal, session, rules, found, newId, accepted);
            && store.db == Committed(old(store.db), outcome)
            && r == if outcome.Ok? then Ok(Clamped(rules)) else Err(outcome.error)
  {
    var tx := store.db;
    var authorized := principal.isGlobalManager || IsManager(tx, principal.subject, session);
    if !authorized {
      return Err(Forbidden);
    }
    if session !in tx.sessions {
      return Err(NotFound);
    }
    var sessionDB := tx.sessions[session];
    if sessionDB.state != Pending {
      return Err(PreconditionFailed);
    }
    var id := if found.Some? then found.value else newId;
    var capitalShips := rules.capitalShips;
    if capitalShips < MIN_CAPITAL_SHIPS {
      capitalShips := MIN_CAPITAL_SHIPS;
    } else if capitalShips > MAX_CAPITAL_SHIPS {
      capitalShips := MAX_CAPITAL_SHIPS;
    }
    var written := rules.(capitalShips := capitalShips);
    if !accepted || (found.None? && newId in tx.rulesets) {
      return Err(Failed);
    }
    tx := tx.(rulesets := tx.rulesets[id := RulesetRow(session, written)]);
    if found.None? {
      sessionDB := sessionDB.(rulesIsSet := true, rulesetId := Some(id));
      tx := tx.(sessions := tx.sessions[session := sessionDB]);
    }
    store.db := tx;
    r := Ok(written);
  }

  /** In terms of the tables: the session's rules become those of the request, whether or not there
      were some before, with the capital ships between 10 and 300; the row gets its link with the first
      ruleset only, and no other session changes. */
  lemma RulesAreWritten(
      db: Database, principal: Principal, session: Id, rules: Rules, found: Option<Id>, newId: Id, accepted: bool)
    requires RulesetFound(db.rulesets, session, found)
    requires SetRules(db, principal, session, rules, found, newId, accepted).Ok?
    ensures var after := SetRules(db, principal, session, rules, found, newId, accepted).value;
            && Ruling(after, session, if found.Some? then found.value else newId) == Some(RulesetRow(session, Rules(
                 if rules.capitalShips < 10 then 10 else if rules.capitalShips > 300 then 300 else rules.capitalShips,
                 rules.others)))
            && session in db.sessions && session in after.sessions
            && after.sessions[session] ==
               (if found.Some? then db.sessions[session]
                else db.sessions[session].(rulesIsSet := true, rulesetId := Some(newId)))
            && (forall r :: r != (if found.Some? then found.value else newId) ==>
                  Ruling(after, session, r) == Ruling(db, session, r))
            && (forall o :: o != session ==> SameSession(db, after, o))
            && after == db.(rulesets := after.rulesets, sessions := after.sessions)
  {
  }

  /** Who may set rules, and when; each error has its own condition. */
  lemma RulesAreWrittenIff(
      db: Database, principal: Principal, session: Id, rules: Rules, found: Option<Id>, newId: Id, accepted: bool)
    ensures var outcome := SetRules(db, principal, session, rules, found, newId, accepted);
            var manages := principal.isGlobalManager
              || Entry(db.members, RelKey(principal.subject, session)) == Some(true);
            var row := Entry(db.sessions, session);
            && (outcome == Err(Forbidden) <==> !manages)
            && (outcome == Err(NotFound) <==> manages && row.None?)
            && (outcome == Err(PreconditionFailed) <==> manages && row.Some? && row.value.state != Pending)
            && (outcome.Ok? <==>
                  && manages && row.Some? && row.value.state == Pending
                  && accepted && (found.Some? || newId !in db.rulesets))
  {
  }

  // ---- Editing a session

  /** The body of an update: it carries its own id and state, and no link to rules. A state that is
      not one of the four is none here; `list` holds the members, then the managers. */
  datatype SessionBody = SessionBody(
    id: Id, name: string, isPrivate: bool, state: Option<SessionState>, rulesIsSet: bool, list: seq<Target>)

  /** The update writes every column of the row of the body's id, the link to rules included, and
      makes the members those of the body. */
  ghost function EditSession(db: Database, principal: Principal, path: Id, body: SessionBody): Outcome {
    if !IsAuthorizedManager(db, principal, path) then Err(Forbidden)
    else if body.state.None? then Err(Failed)
    else if !CanUpsert(db.users, db.sessions.Keys + {body.id}, BySession, body.id, body.list) then Err(Failed)
    else
      var row := SessionRow(body.name, body.isPrivate, body.state.value, body.rulesIsSet, None);
      Ok(db.(sessions := db.sessions[body.id := row],
             members := Replaced(db.members, BySession, body.id, body.list)))
  }

  method HandleSessionUpdate(store: Store, principal: Principal, path: Id, body: SessionBody)
    returns (r: Result<SessionRow, Error>)
    modifies store
    ensures var outcome := EditSession(old(store.db), principal, path, body);
            && store.db == Committed(old(store.db), outcome)
            && (r.Ok? <==> outcome.Ok?)
            && (if r.Ok? then body.id in store.db.sessions && r.value == store.db.sessions[body.id]
                else r.error == outcome.error)
  {
    hide CanUpsert, Replaced;
    var tx := store.db;
    if !IsAuthorizedManager(tx, principal, path) {
      return Err(Forbidden);
    }
    if body.state.None? {
      return Err(Failed);
    }
    var row := SessionRow(body.name, body.isPrivate, body.state.value, body.rulesIsSet, None);
    tx := tx.(sessions := tx.sessions[body.id := row]);
    var relations := new RelationTable(tx.members, tx.users, tx.sessions.Keys);
    assert tx.sessions.Keys == store.db.sessions.Keys + {body.id};
    var synced := relations.SyncUserProfileSessionRelations(BySession, body.id, body.list);
    if !synced {
      return Err(Failed);
    }
    store.db := tx.(members := relations.rows);
    r := Ok(row);
  }

  /** In terms of the tables: the members of the session are exactly those of the body, as managers or
      not, its row holds what the body says and no link, and no other session changes. */
  lemma SessionIsEdited(db: Database, principal: Principal, path: Id, body: SessionBody, user: Id)
    requires EditSession(db, principal, path, body).Ok?
    ensures var after := EditSession(db, principal, path, body).value;
            && !principal.isPending
            && (principal.isGlobalManager || Entry(db.members, RelKey(principal.subject, path)) == Some(true))
            && body.state.Some? && DistinctTargets(body.list)
            && Entry(after.sessions, body.id) ==
               Some(SessionRow(body.name, body.isPrivate, body.state.value, body.rulesIsSet, None))
            && (forall isManager :: Entry(after.members, RelKey(user, body.id)) == Some(isManager) <==>
                  Target(user, isManager) in body.list)
            && (forall o :: o != body.id ==> SameSession(db, after, o))
            && after == db.(sessions := after.sessions, members := after.members)
  {
    hide Given, Replaced, SameSession;
    GivenInList(body.list, user);
    MembersOfOthers(db.members, body.id, body.list, RelKey(user, body.id));
    forall o | o != body.id
      ensures SameSession(db, EditSession(db, principal, path, body).value, o)
    {
      OtherSessionKept(db, principal, path, body, o);
    }
  }

  lemma GivenInList(list: seq<Target>, to: Id)
    requires DistinctTargets(list)
    ensures forall isManager :: Given(list, to) == Some(isManager) <==> Target(to, isManager) in list
  {
    forall isManager | Target(to, isManager) in list
      ensures Given(list, to) == Some(isManager)
    {
      var i :| 0 <= i < |list| && list[i] == Target(to, isManager);
      assert list[i].id == to;
    }
    if i :| 0 <= i < |list| && list[i].id == to {
      assert list[i] == Target(to, list[i].isManager);
    }
  }

  lemma {:induction false} MembersOfOthers(rows: RelTable, session: Id, list: seq<Target>, k: RelKey)
    ensures Entry(Replaced(rows, BySession, session, list), k) ==
            if k.session == session then Given(list, k.user) else Entry(rows, k)
  {
    hide Given;
  }

  lemma OtherSessionKept(db: Database, principal: Principal, path: Id, body: SessionBody, o: Id)
    requires EditSession(db, principal, path, body).Ok? && o != body.id
    ensures SameSession(db, EditSession(db, principal, path, body).value, o)
  {
    hide Given, Replaced, CanUpsert, SameSession;
    var after := EditSession(db, principal, path, body).value;
    OnlyOneSession(db, after.sessions, body.id, body.list, o);
  }

  lemma {:induction false} OnlyOneSession(
      db: Database, sessions: map<Id, SessionRow>, session: Id, list: seq<Target>, o: Id)
    requires o != session && Entry(sessions, o) == Entry(db.sessions, o)
    ensures SameSession(
              db, db.(sessions := sessions, members := Replaced(db.members, BySession, session, list)), o)
  {
    hide Given, Replaced;
    forall user
      ensures Entry(Replaced(db.members, BySession, session, list), RelKey(user, o)) ==
              Entry(db.members, RelKey(user, o))
    {
      MembersOfOthers(db.members, session, list, RelKey(user, o));
    }
  }

  // ---- Archive and delete

  function Archive(db: Database, principal: Principal, session: Id): Outcome {
    if session !in db.sessions then Err(NotFound)
    else if !IsAuthorizedManager(db, principal, session) then Err(Forbidden)
    else if db.sessions[session].state != Started then Err(PreconditionFailed)
    else Ok(db.(sessions := db.sessions[session := db.sessions[session].(state := Archived)]))
  }

  method HandleSessionArchive(store: Store, principal: Principal, session: Id) returns (r: Result<SessionRow, Error>)
    modifies store
    ensures var outcome := Archive(old(store.db), principal, session);
            && store.db == Committed(old(store.db), outcome)
            && (r.Ok? <==> outcome.Ok?)
            && (if r.Ok? then session in store.db.sessions && r.value == store.db.sessions[session]
                else r.error == outcome.error)
  {
    if session !in store.db.sessions {
      return Err(NotFound);
    }
    var sessionDB := store.db.sessions[session];
    if !IsAuthorizedManager(store.db, principal, session) {
      return Err(Forbidden);
    }
    if sessionDB.state != Started {
      return Err(PreconditionFailed);
    }
    sessionDB := sessionDB.(state := Archived);
    store.db := store.db.(sessions := store.db.sessions[session := sessionDB]);
    r := Ok(sessionDB);
  }

  /** In terms of the tables: a manager's request archives a started session, and nothing else does. */
  lemma ArchivedIff(db: Database, principal: Principal, session: Id)
    ensures var outcome := Archive(db, principal, session);
            var row := Entry(db.sessions, session);
            var manages := !principal.isPending
              && (principal.isGlobalManager || Entry(db.members, RelKey(principal.subject, session)) == Some(true));
            && (outcome == Err(NotFound) <==> row.None?)
            && (outcome == Err(Forbidden) <==> row.Some? && !manages)
            && (outcome == Err(PreconditionFailed) <==> row.Some? && manages && row.value.state != Started)
            && (outcome.Ok? <==> row.Some? && manages && row.value.state == Started)
            && (outcome.Ok? ==>
                  && Entry(outcome.value.sessions, session) == Some(row.value.(state := Archived))
                  && outcome.value == db.(sessions := outcome.value.sessions)
                  && forall o :: o != session ==> SameSession(db, outcome.value, o))
  {
  }

  /** Deleting the row of a session deletes every row that refers to it. */
  function WithoutSession(db: Database, session: Id): (r: Database)
    ensures r.users == db.users && r.races == db.races
  {
    db.(sessions := db.sessions - {session},
        rulesets := map k | k in db.rulesets && db.rulesets[k].sessionId != session :: db.rulesets[k],
        files := map k | k in db.files && k.sessionId != session :: db.files[k],
        members := map k | k in db.members && k.session != session :: db.members[k],
        invitations := map k | k in db.invitations && db.invitations[k].sessionId != session :: db.invitations[k],
        players := map k | k in db.players && db.players[k].sessionId != session :: db.players[k])
  }

  function DeleteSession(db: Database, principal: Principal, session: Id): Outcome {
    if session !in db.sessions then Err(NotFound)
    else if !IsAuthorizedManager(db, principal, session) then Err(Forbidden)
    else Ok(WithoutSession(db, session))
  }

  /** In terms of the tables: a manager's request leaves no row that names the session, and every row of
      every other session as it was, so access to those does not change. */
  lemma DeletesOneSession(db: Database, principal: Principal, session: Id, o: Id, user: Id)
    requires DeleteSession(db, principal, session).Ok? && o != session
    ensures var after := DeleteSession(db, principal, session).value;
            && NoTraceOf(after, session)
            && SameSession(db, after, o)
            && after.users == db.users && after.races == db.races
            && (CanAccessSession(after, user, o) <==> CanAccessSession(db, user, o))
  {
    hide NoTraceOf, SameSession;
    CascadeIsExact(db, session);
    SameAccess(db, WithoutSession(db, session), user, o);
  }

  lemma CascadeIsExact(db: Database, session: Id)
    ensures NoTraceOf(WithoutSession(db, session), session)
    ensures forall o :: o != session ==> SameSession(db, WithoutSession(db, session), o)
  {
  }

  lemma DeletedIff(db: Database, principal: Principal, session: Id)
    ensures var outcome := DeleteSession(db, principal, session);
            var manages := !principal.isPending
              && (principal.isGlobalManager || Entry(db.members, RelKey(principal.subject, session)) == Some(true));
            && (outcome == Err(NotFound) <==> session !in db.sessions)
            && (outcome == Err(Forbidden) <==> session in db.sessions && !manages)
            && (outcome.Ok? <==> session in db.sessions && manages)
  {
  }

  /** Access depends on the session's own rows alone. */
  lemma SameAccess(a: Database, b: Database, user: Id, session: Id)
    requires SameSession(a, b, session)
    ensures CanAccessSession(a, user, session) <==> CanAccessSession(b, user, session)
  {
    assert Entry(a.sessions, session) == Entry(b.sessions, session);
    assert Entry(a.members, RelKey(user, session)) == Entry(b.members, RelKey(user, session));
    if i :| i in a.invitations && a.invitations[i] == Invitation(session, user) {
      assert Inviting(a, session, i) == Inviting(b, session, i);
    }
    if i :| i in b.invitations && b.invitations[i] == Invitation(session, user) {
      assert Inviting(a, session, i) == Inviting(b, session, i);
    }
  }

  // ---- Who may see a session

  ghost predicate CanAccessSession(db: Database, user: Id, session: Id) {
    IsPublic(db, session) || IsMember(db, user, session) || IsInvited(db, user, session)
  }

  /** `invitations` is what the query for invitations of this user to this session returns. */
  method CheckAccess(db: Database, user: Id, session: Id, invitations: seq<Id>) returns (ok: bool)
    requires forall i :: 0 <= i < |invitations| ==>
               invitations[i] in db.invitations && db.invitations[invitations[i]] == Invitation(session, user)
    requires IsInvited(db, user, session) ==> invitations != []
    ensures ok <==> CanAccessSession(db, user, session)
  {
    if IsPublic(db, session) {
      return true;
    }
    if IsMember(db, user, session) {
      return true;
    }
    ok := invitations != [];
    assert ok ==> db.invitations[invitations[0]] == Invitation(session, user);
  }

  /** What is published with the deletion of a session. */
  datatype SessionDeleteMeta = SessionDeleteMeta(memberIds: seq<Id>, isPrivate: bool)

  method CanAccessDeletedSession(meta: SessionDeleteMeta, user: Id) returns (ok: bool)
    ensures ok <==> SeesDeleted(meta, user)
  {
    if !meta.isPrivate {
      return true;
    }
    for i := 0 to |meta.memberIds|
      invariant user !in meta.memberIds[..i]
    {
      if meta.memberIds[i] == user {
        return true;
      }
    }
    assert meta.memberIds[..|meta.memberIds|] == meta.memberIds;
    ok := false;
  }

  predicate SeesDeleted(meta: SessionDeleteMeta, user: Id) {
    !meta.isPrivate || user in meta.memberIds
  }

  /** The members of the session, in some order. */
  ghost predicate MemberRows(db: Database, session: Id, rows: seq<RelKey>) {
    && (forall i :: 0 <= i < |rows| ==> rows[i] in db.members && rows[i].session == session)
    && (forall k :: k in db.members && k.session == session ==> k in rows)
  }

  /** The invitations to the session, in some order. */
  ghost predicate InviteeRows(db: Database, session: Id, rows: seq<Invitation>) {
    && (forall i :: 0 <= i < |rows| ==> rows[i].sessionId == session && IsInvited(db, rows[i].userId, session))
    && (forall user :: IsInvited(db, user, session) ==> Invitation(session, user) in rows)
  }

  /** Deletes the session. Whoever could access it just before, and nobody else, may receive the
      notification of the deletion. */
  method HandleSessionDelete(
      store: Store, principal: Principal, session: Id, memberRows: seq<RelKey>, inviteeRows: seq<Invitation>)
    returns (r: Result<SessionDeleteMeta, Error>)
    requires MemberRows(store.db, session, memberRows) && InviteeRows(store.db, session, inviteeRows)
    modifies store
    ensures var outcome := DeleteSession(old(store.db), principal, session);
            && store.db == Committed(old(store.db), outcome)
            && (r.Ok? <==> outcome.Ok?) && (r.Err? ==> r.error == outcome.error)
    ensures r.Ok? ==> forall user :: SeesDeleted(r.value, user) <==> CanAccessSession(old(store.db), user, session)
    ensures r.Ok? ==>
              NoTraceOf(store.db, session) && forall o :: o != session ==> SameSession(old(store.db), store.db, o)
  {
    if session !in store.db.sessions {
      return Err(NotFound);
    }
    if !IsAuthorizedManager(store.db, principal, session) {
      return Err(Forbidden);
    }
    var notifyIds: seq<Id> := [];
    for i := 0 to |memberRows|
      invariant |notifyIds| == i
      invariant forall j :: 0 <= j < i ==> notifyIds[j] == memberRows[j].user
    {
      notifyIds := notifyIds + [memberRows[i].user];
    }
    for i := 0 to |inviteeRows|
      invariant |notifyIds| == |memberRows| + i
      invariant forall j :: 0 <= j < |memberRows| ==> notifyIds[j] == memberRows[j].user
      invariant forall j :: 0 <= j < i ==> notifyIds[|memberRows| + j] == inviteeRows[j].userId
    {
      notifyIds := notifyIds + [inviteeRows[i].userId];
    }
    var meta := SessionDeleteMeta(notifyIds, store.db.sessions[session].isPrivate);
    hide NoTraceOf, SameSession, WithoutSession;
    CapturedIds(store.db, session, memberRows, inviteeRows, notifyIds);
    CascadeIsExact(store.db, session);
    store.db := WithoutSession(store.db, session);
    r := Ok(meta);
  }

  lemma CapturedIds(db: Database, session: Id, memberRows: seq<RelKey>, inviteeRows: seq<Invitation>, ids: seq<Id>)
    requires MemberRows(db, session, memberRows) && InviteeRows(db, session, inviteeRows)
    requires |ids| == |memberRows| + |inviteeRows|
    requires forall j :: 0 <= j < |memberRows| ==> ids[j] == memberRows[j].user
    requires forall j :: 0 <= j < |inviteeRows| ==> ids[|memberRows| + j] == inviteeRows[j].userId
    ensures forall user :: user in ids <==> IsMember(db, user, session) || IsInvited(db, user, session)
  {
    hide IsInvited;
    forall user
      ensures user in ids <==> IsMember(db, user, session) || IsInvited(db, user, session)
    {
      if i :| 0 <= i < |ids| && ids[i] == user {
        if i < |memberRows| {
          assert memberRows[i] == RelKey(user, session);
        } else {
          assert inviteeRows[i - |memberRows|].userId == user;
        }
      }
      if IsMember(db, user, session) {
        var j :| 0 <= j < |memberRows| && memberRows[j] == RelKey(user, session);
        assert ids[j] == user;
      }
      if IsInvited(db, user, session) {
        var j :| 0 <= j < |inviteeRows| && inviteeRows[j] == Invitation(session, user);
        assert ids[|memberRows| + j] == user;
      }
    }
  }

  /** Asking the live tables after the deletion would reach nobody. */
  lemma NobodyAccessesDeleted(db: Database, user: Id, session: Id)
    ensures !CanAccessSession(WithoutSession(db, session), user, session)
  {
    var after := WithoutSession(db, session);
    assert forall i :: i in after.invitations ==> after.invitations[i].sessionId != session;
  }

  // ---- Joining

  /** The sessions of this user that count towards the limit. */
  function Memberships(db: Database, user: Id): nat {
    |set k | k in db.members && k.user == user && k.session in db.sessions && db.sessions[k.session].state != Archived|
  }

  /** The invitation of this user to this session, if there is one. */
  ghost predicate InvitationFound(db: Database, user: Id, session: Id, found: Option<Id>) {
    match found
    case Some(i) => i in db.invitations && db.invitations[i] == Invitation(session, user)
    case None => !IsInvited(db, user, session)
  }

  /** A published invitation deletion: the invitation and its invitee. */
  datatype InvitationDeleted = InvitationDeleted(id: Id, userId: Id)

  function WithMember(db: Database, user: Id, session: Id, consumed: Option<Id>): Database {
    db.(members := db.members[RelKey(user, session) := false],
        invitations := if consumed.Some? then db.invitations - {consumed.value} else db.invitations)
  }

  /** `found` answers whether the user is invited. The limit does not apply to global managers. */
  function Join(db: Database, principal: Principal, session: Id, limit: Option<nat>, found: Option<Id>): Outcome {
    if principal.isPending || !(principal.isGlobalManager || IsPublic(db, session) || found.Some?) then Err(Forbidden)
    else if !principal.isGlobalManager && limit.Some? && Memberships(db, principal.subject) >= limit.value
    then Err(LimitExceeded)
    else if session !in db.sessions then Err(NotFound)
    else if db.sessions[session].state != Pending then Err(PreconditionFailed)
    else if IsMember(db, principal.subject, session) then Err(Conflict)
    else if principal.subject !in db.users then Err(Failed)
    else Ok(WithMember(db, principal.subject, session, found))
  }

  /** Joining consumes the invitation, and the notification of that goes to exactly its invitee. */
  method HandleSessionJoin(store: Store, principal: Principal, session: Id, limit: Option<nat>, found: Option<Id>)
    returns (r: Result<Option<InvitationDeleted>, Error>)
    requires InvitationFound(store.db, principal.subject, session, found)
    modifies store
    ensures var outcome := Join(old(store.db), principal, session, limit, found);
            && store.db == Committed(old(store.db), outcome)
            && (r.Ok? <==> outcome.Ok?) && (r.Err? ==> r.error == outcome.error)
    ensures r.Ok? ==> (r.value.Some? <==> IsInvited(old(store.db), principal.subject, session))
    ensures r.Ok? && r.value.Some? ==> Announces(old(store.db), store.db, r.value.value)
  {
    var tx := store.db;
    if principal.isPending {
      return Err(Forbidden);
    }
    if !principal.isGlobalManager {
      if !IsPublic(tx, session) && found.None? {
        return Err(Forbidden);
      }
      if limit.Some? {
        var count := Memberships(tx, principal.subject);
        if count >= limit.value {
          return Err(LimitExceeded);
        }
      }
    }
    if session !in tx.sessions {
      return Err(NotFound);
    }
    if tx.sessions[session].state != Pending {
      return Err(PreconditionFailed);
    }
    if IsMember(tx, principal.subject, session) {
      return Err(Conflict);
    }
    if principal.subject !in tx.users {
      return Err(Failed);
    }
    tx := tx.(members := tx.members[RelKey(principal.subject, session) := false]);
    if found.Some? {
      tx := tx.(invitations := tx.invitations - {found.value});
    }
    store.db := tx;
    r := Ok(if found.Some? then Some(InvitationDeleted(found.value, principal.subject)) else None);
  }

  /** The recipients of the notification are those who were the invitee while the row was there. */
  ghost predicate Announces(before: Database, after: Database, n: InvitationDeleted) {
    && n.id in before.invitations && n.id !in after.invitations
    && forall user :: IsInvitee(before, n.id, user) <==> ReceivesDeleted(n, user)
  }

  /** `canAccessInvitation`, with the row still there and with the metadata alone. */
  predicate IsInvitee(db: Database, invitation: Id, user: Id) {
    invitation in db.invitations && db.invitations[invitation].userId == user
  }

  predicate ReceivesDeleted(n: InvitationDeleted, user: Id) {
    n.userId == user
  }

  /** Accepting has no membership limit. A global manager passes the authorisation but finds no
      invitation of someone else. */
  function Accept(db: Database, principal: Principal, invitation: Id): Outcome {
    if principal.isPending then Err(Forbidden)
    else if invitation !in db.invitations || db.invitations[invitation].userId != principal.subject then Err(Forbidden)
    else
      var session := db.invitations[invitation].sessionId;
      if session !in db.sessions then Err(NotFound)
      else if db.sessions[session].state != Pending then Err(PreconditionFailed)
      else if IsMember(db, principal.subject, session) then Err(Failed)
      else if principal.subject !in db.users then Err(Failed)
      else Ok(WithMember(db, principal.subject, session, Some(invitation)))
  }

  /** Accepting as someone who is already a member is meant to be a conflict, but the constraint that
      refuses the row does not bear the name that the handler looks for: it is never a conflict, and an
      internal error exactly when the invitation is the caller's own, its session is pending, and the
      caller is a member already or not a known user. */
  lemma MemberAcceptFails(db: Database, principal: Principal, invitation: Id)
    ensures Accept(db, principal, invitation) != Err(Conflict)
    ensures Accept(db, principal, invitation) == Err(Failed) <==>
            && !principal.isPending
            && IsInvitee(db, invitation, principal.subject)
            && var session := db.invitations[invitation].sessionId;
               && session in db.sessions && db.sessions[session].state == Pending
               && (IsMember(db, principal.subject, session) || principal.subject !in db.users)
    ensures Accept(db, principal, invitation).Ok? <==>
            && !principal.isPending
            && IsInvitee(db, invitation, principal.subject)
            && var session := db.invitations[invitation].sessionId;
               && session in db.sessions && db.sessions[session].state == Pending
               && RelKey(principal.subject, session) !in db.members && principal.subject in db.users
  {
  }

  method HandleInvitationAccept(store: Store, principal: Principal, invitation: Id)
    returns (r: Result<InvitationDeleted, Error>)
    modifies store
    ensures var outcome := Accept(old(store.db), principal, invitation);
            && store.db == Committed(old(store.db), outcome)
            && (r.Ok? <==> outcome.Ok?) && (r.Err? ==> r.error == outcome.error)
    ensures r.Ok? ==> r.value.id == invitation && Announces(old(store.db), store.db, r.value)
  {
    var tx := store.db;
    if principal.isPending {
      return Err(Forbidden);
    }
    if invitation !in tx.invitations || tx.invitations[invitation].userId != principal.subject {
      return Err(Forbidden);
    }
    var row := tx.invitations[invitation];
    if row.sessionId !in tx.sessions {
      return Err(NotFound);
    }
    if tx.sessions[row.sessionId].state != Pending {
      return Err(PreconditionFailed);
    }
    if IsMember(tx, principal.subject, row.sessionId) || principal.subject !in tx.users {
      return Err(Failed);
    }
    tx := tx.(members := tx.members[RelKey(principal.subject, row.sessionId) := false]);
    tx := tx.(invitations := tx.invitations - {invitation});
    store.db := tx;
    r := Ok(InvitationDeleted(invitation, row.userId));
  }

  /** The user who gets in could already see the session, and afterwards exactly the same users can
      see it: what the consumed invitation granted is now granted by the membership. */
  lemma JoiningKeepsAccess(db: Database, user: Id, session: Id, consumed: Option<Id>, other: Id, elsewhere: Id)
    requires CanAccessSession(db, user, session)
    requires consumed.Some? ==> InvitationFound(db, user, session, consumed)
    ensures CanAccessSession(WithMember(db, user, session, consumed), other, elsewhere) <==>
            CanAccessSession(db, other, elsewhere)
  {
    var after := WithMember(db, user, session, consumed);
    if IsInvited(db, other, elsewhere) {
      var i :| i in db.invitations && db.invitations[i] == Invitation(elsewhere, other);
      if consumed != Some(i) {
        assert after.invitations[i] == Invitation(elsewhere, other);
      }
    }
    if IsInvited(after, other, elsewhere) {
      var i :| i in after.invitations && after.invitations[i] == Invitation(elsewhere, other);
      assert db.invitations[i] == Invitation(elsewhere, other);
    }
  }

  /** In terms of the tables: the one new member is not a manager, the invitation used is gone, and
      nothing else changes. */
  ghost predicate Joined(before: Database, after: Database, user: Id, session: Id, consumed: Option<Id>) {
    && Entry(before.members, RelKey(user, session)) == None
    && Entry(after.members, RelKey(user, session)) == Some(false)
    && (forall k :: k != RelKey(user, session) ==> Entry(after.members, k) == Entry(before.members, k))
    && (consumed.Some? ==> consumed.value in before.invitations)
    && (forall i :: Entry(after.invitations, i) == if consumed == Some(i) then None else Entry(before.invitations, i))
    && after == before.(members := after.members, invitations := after.invitations)
  }

  /** Joining and accepting let in only who could already see the session (global managers aside),
      only while it is pending, and never as a manager. */
  lemma OnlyVisitorsJoin(
      db: Database, principal: Principal, session: Id, limit: Option<nat>, found: Option<Id>, invitation: Id)
    requires InvitationFound(db, principal.subject, session, found)
    ensures Join(db, principal, session, limit, found).Ok? ==>
              && (principal.isGlobalManager || CanAccessSession(db, principal.subject, session))
              && session in db.sessions && db.sessions[session].state == Pending
              && Joined(db, Join(db, principal, session, limit, found).value, principal.subject, session, found)
    ensures Accept(db, principal, invitation).Ok? ==>
              && invitation in db.invitations && db.invitations[invitation].userId == principal.subject
              && var s := db.invitations[invitation].sessionId;
                 && CanAccessSession(db, principal.subject, s) && s in db.sessions && db.sessions[s].state == Pending
                 && Joined(db, Accept(db, principal, invitation).value, principal.subject, s, Some(invitation))
  {
    if Accept(db, principal, invitation).Ok? {
      assert db.invitations[invitation] == Invitation(db.invitations[invitation].sessionId, principal.subject);
    }
  }

  /** Who gets in: a known user who is no member yet, global manager, invited, or of a public session,
      and, unless a global manager, below the limit of sessions that are not archived. */
  lemma JoinedIff(db: Database, principal: Principal, session: Id, limit: Option<nat>, found: Option<Id>)
    requires InvitationFound(db, principal.subject, session, found)
    ensures var outcome := Join(db, principal, session, limit, found);
            var row := Entry(db.sessions, session);
            var count := |set k | k in db.members && k.user == principal.subject
                                  && k.session in db.sessions && db.sessions[k.session].state != Archived|;
            var free := principal.isGlobalManager || limit.None? || count < limit.value;
            var welcome := !principal.isPending
              && (principal.isGlobalManager || (row.Some? && !row.value.isPrivate)
                  || IsInvited(db, principal.subject, session));
            && (outcome == Err(Forbidden) <==> !welcome)
            && (outcome == Err(LimitExceeded) <==> welcome && !free)
            && (outcome == Err(NotFound) <==> welcome && free && row.None?)
            && (outcome == Err(PreconditionFailed) <==> welcome && free && row.Some? && row.value.state != Pending)
            && (outcome == Err(Conflict) <==>
                  && welcome && free && row.Some? && row.value.state == Pending
                  && RelKey(principal.subject, session) in db.members)
            && (outcome.Ok? <==>
                  && welcome && free && row.Some? && row.value.state == Pending
                  && RelKey(principal.subject, session) !in db.members && principal.subject in db.users)
  {
  }
}

/** The tables of the server, with the constraints of its schema, and the store that transactions
    work on. */
module Database {
  import opened Common
  import opened Relations
  import opened GameFiles

  datatype SessionState = Pending | Starting | Started | Archived

  datatype SessionRow = SessionRow(
    name: string, isPrivate: bool, state: SessionState, rulesIsSet: bool, rulesetId: Option<Id>)

  /** Game rules. Only the number of capital ships is ever looked at by the server. */
  datatype Rules = Rules(capitalShips: int, others: seq<int>)

  datatype RulesetRow = RulesetRow(sessionId: Id, rules: Rules)

  /** A seat in a session: a human with a race, or a bot. */
  datatype Player = Player(
    id: Id, sessionId: Id, userId: Id, raceId: Id, isBot: bool, botLevel: Option<int>, order: int, ready: bool)

  type PlayerTable = map<Id, Player>

  datatype Race = Race(id: Id, userId: Id, data: string)

  type RaceTable = map<Id, Race>

  datatype Invitation = Invitation(sessionId: Id, userId: Id)

  datatype FileKey = FileKey(sessionId: Id, year: int)

  datatype Database = Database(
    users: set<Id>,
    sessions: map<Id, SessionRow>,
    rulesets: map<Id, RulesetRow>,
    files: map<FileKey, SessionFiles>,
    members: RelTable,
    invitations: map<Id, Invitation>,
    players: PlayerTable,
    races: RaceTable)

  const SYSTEM_USER: Id := "system"

  const MAX_SLOT := 15

  const MAX_BOT_LEVEL := 4

  const FIRST_YEAR := 2400

  datatype Principal = Principal(subject: Id, isGlobalManager: bool, isPending: bool)

  datatype Error = Forbidden | NotFound | Invalid | Conflict | PreconditionFailed | LimitExceeded | Failed

  type Outcome = Result<Database, Error>

  /** The committed state. A transaction works on a copy, and either commits it or leaves the store
      as it was. */
  class Store {
    var db: Database

    constructor (db: Database)
      ensures this.db == db
    {
      this.db := db;
    }
  }

  /** What is committed when a transaction ends with this outcome. */
  function Committed(before: Database, outcome: Outcome): Database {
    if outcome.Ok? then outcome.value else before
  }

  // ---- Queries

  predicate IsMember(db: Database, user: Id, session: Id) {
    RelKey(user, session) in db.members
  }

  predicate IsManager(db: Database, user: Id, session: Id) {
    IsMember(db, user, session) && db.members[RelKey(user, session)]
  }

  predicate IsPublic(db: Database, session: Id) {
    session in db.sessions && !db.sessions[session].isPrivate
  }

  ghost predicate IsInvited(db: Database, user: Id, session: Id) {
    exists i :: i in db.invitations && db.invitations[i] == Invitation(session, user)
  }

  ghost predicate Seated(players: PlayerTable, session: Id, k: Id) {
    k in players && players[k].sessionId == session
  }

  // ---- One session among others

  /** Every row that belongs to the session is the same in both. */
  ghost predicate SameSession(a: Database, b: Database, session: Id) {
    && Entry(a.sessions, session) == Entry(b.sessions, session)
    && (forall year :: Entry(a.files, FileKey(session, year)) == Entry(b.files, FileKey(session, year)))
    && (forall user :: Entry(a.members, RelKey(user, session)) == Entry(b.members, RelKey(user, session)))
    && (forall r :: Ruling(a, session, r) == Ruling(b, session, r))
    && (forall i :: Inviting(a, session, i) == Inviting(b, session, i))
    && (forall k :: Playing(a, session, k) == Playing(b, session, k))
  }

  function Ruling(db: Database, session: Id, r: Id): Option<RulesetRow> {
    if r in db.rulesets && db.rulesets[r].sessionId == session then Some(db.rulesets[r]) else None
  }

  function Inviting(db: Database, session: Id, i: Id): Option<Invitation> {
    if i in db.invitations && db.invitations[i].sessionId == session then Some(db.invitations[i]) else None
  }

  function Playing(db: Database, session: Id, k: Id): Option<Player> {
    if k in db.players && db.players[k].sessionId == session then Some(db.players[k]) else None
  }

  /** No row of any table names the session. */
  ghost predicate NoTraceOf(db: Database, session: Id) {
    && session !in db.sessions
    && (forall k :: k in db.files ==> k.sessionId != session)
    && (forall k :: k in db.members ==> k.session != session)
    && (forall r :: r in db.rulesets ==> db.rulesets[r].sessionId != session)
    && (forall i :: i in db.invitations ==> db.invitations[i].sessionId != session)
    && (forall k :: k in db.players ==> db.players[k].sessionId != session)
  }

  // ---- Rosters

  /** The players of a session by ascending slot, each row once; the order of equal slots is up to
      the database. */
  ghost predicate IsRoster(players: PlayerTable, session: Id, rows: seq<Player>) {
    && (forall i :: 0 <= i < |rows| ==>
          Seated(players, session, rows[i].id) && players[rows[i].id] == rows[i])
    && (forall k :: Seated(players, session, k) ==> exists i :: 0 <= i < |rows| && rows[i].id == k)
    && (forall i, j :: 0 <= i < j < |rows| ==> rows[i].id != rows[j].id && rows[i].order <= rows[j].order)
  }
}

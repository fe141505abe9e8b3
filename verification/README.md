# Neper: a verified model of its transactional core

Neper hosts turn-based games of Stars!. Players gather in sessions, pick races, and start a game;
stars.exe, run outside the server, generates the universe and then one turn after another. The
server's hard part is what happens around that: a database that many requests change at the same
time, a slow generator that runs outside any transaction, and records that other servers push in.
This project models that part in Dafny and proves what it keeps.

`dafny verify dfyconfig.toml` checks everything.

## How it is modelled

| file | what it holds |
|---|---|
| `Common.dfy` | shared datatypes |
| `Database.dfy` | the tables, their constraints, query answers, the store |
| `Slots.dfy`, `Roster.dfy`, `NewGame.dfy` | slot arithmetic, registration of players, what a new game is generated from |
| `Sessions.dfy` | rules, update, archive, delete, join, accept, and who may see a session |
| `GameStart.dfy`, `Turns.dfy` | the three phases of a start; later turns and the orders that go into them |
| `Protocol.dfy`, `Safety.dfy`, `History.dfy`, `Scenario.dfy` | all transactions interleaved, the invariant, what it means over every run, which earlier step is behind what is found, and a run of a whole game |
| `Relations.dfy`, `Broadcast.dfy`, `Publishing.dfy` | the membership table rewritten from either side, messages made of such rewrites, and what a published message becomes |
| `SyncCodec.dfy`, `SyncEncoder.dfy` | the JSON codecs of the broadcast records and their two dispatchers |
| `Base64.dfy`, `GameFiles.dfy` | base 64 after section 4 of RFC 4648, and the bundle of a turn's files |
| `SerialKeys.dfy` | the serial key allocator, statement by statement, and the batch loader |
| `Lifecycle.dfy` | `Run` and `Shutdown` of the turn generator, action by action |

* A **transaction** of the session protocol is one atomic step. Where several requests can really
  be open at once and that matters, the model splits further: a start is three transactions with the
  oracle in between, a turn generation reads and writes in two steps, a key assignment is
  interleaved statement by statement.
* A **handler** is a method on a `Store`. It works on a local copy and either commits it or leaves
  the store as it was; its contract ties the new state to a function of the old one, and the
  invariants and theorems are proved about that function. Beside each such function stands a law in
  terms of the tables alone: exactly when the transaction succeeds, which row it leaves, and that
  every other row, and every other session (`SameSession`), is as before.
* What a **query** returns is a parameter, with a predicate that says which answers are possible:
  the roster ordered by slot, the rows of an `IN` query in any order, the maximum of a column.
* **stars.exe** is an oracle from its input (a game definition and a directory, or a directory) to the
  directory it leaves. It is assumed that the host file of a
  new game carries the year 2400 and that of a turn one year more than its input.
* What handles binary files (the year of a host file, the validity of a race file, its processing
  before a new game) and the check and unique constraints of pushed rows are parameters.
* `Result` and `Option` carry the error returns; a nil dereference that would roll the transaction
  back is modelled as a failure of that operation.

## Where the code and its comments disagree

The model follows the code.

* `Shutdown` (`lib/stars/newturn.go`) says it waits for `Run` to exit. It does if and only if its own
  check finds the running flag set, or `Run` has exited already (`Lifecycle.ShutdownWaitsIffRunning`).
  Looking at the flag before the call is not enough: cancelling the parent context can clear it before
  the call comes to its check, so from the caller's side only an exit that has already happened is
  safe (`Lifecycle.CheckingBeforeTheCallIsNotEnough`).
* Approving a user is meant to give one key. A user has at most one key exactly as long as the keys at
  the start and the assignments committed to that user are at most one together
  (`SerialKeys.OneKeyIffOneGrant`). What an approval can check first is that the user owns no key and
  no assignment for the user is open (`SerialKeys.OneApprovalOneKey`).
* The generated decoders (`sync/schemas.go`) say that a `false` in place of another type is accepted
  and ignored. The reader then fails on what follows the `false`: `SyncCodec.FalseIsOnlyForBooleans`.
* `LoadKeysIntoDB` loads in batches and skips a non-empty table, so a rerun completes a load only if
  nothing was loaded: `SerialKeys.RerunCompletesOnlyAnEmptyLoad`, with such a load in
  `SerialKeys.PartialLoad`.
* Accepting an invitation as someone who is already a member is meant to be a conflict, but the name
  of the constraint is not the one the handler compares with: `Sessions.MemberAcceptFails`.
* A publisher's version is a signed integer, a worker's an unsigned one: `Publishing.PublishedMessage`
  says exactly which messages are readable.
* An update of a session is meant for its name, privacy and members. It writes the whole row of the
  body, state included, and sets the link to the rules to null. `Protocol.EditKeepsInvIff` says which
  updates keep the protocol's invariant: those of a session without rules, to "pending" or "starting".

## Model

| member | source | states |
|---|---|---|
| Protocol.RunKeepsInv | restapi/handlers/game_create.go:58-207 | in every interleaving of start phases, reverts, crashes, late or repeated turn messages, archive, delete, rules, joins and roster changes, the whole invariant holds |
| Protocol.StepKeepsInv | restapi/handlers/game_create.go:58-260 | each single transaction or oracle answer keeps the invariant |
| Protocol.BeginKeepsInv | restapi/handlers/game_create.go:58-153 | phase 1 starts a second generation for no session and hands on a snapshot that is the committed row |
| Protocol.SaveKeepsTheRow | restapi/handlers/game_create.go:196-201 | the whole-row write of the phase-1 snapshot equals the current row with only the state changed, and its link names the session's ruleset |
| Protocol.SaveKeepsInv | restapi/handlers/game_create.go:176-207 | saving inserts the first year, or fails on a constraint and leaves the start to be reverted |
| Protocol.RevertKeepsInv | restapi/handlers/game_create.go:235-260 | the unconditional revert never hits a session that has been started |
| Protocol.WriteTurnKeepsInv | lib/stars/newturn.go:219-257 | a turn that commits extends the years by exactly the next one, whatever happened since its input was read |
| Protocol.RulesKeepInv | restapi/handlers/rules_create.go:54-152 | writing rules touches no session that has started or is starting, and keeps one ruleset per session, linked from its row |
| Protocol.DeleteKeepsInv | restapi/handlers/session_delete.go:76-95 | the cascade leaves nothing of the session, and no start or turn in flight can bring it back |
| Protocol.ArchiveKeepsInv | restapi/handlers/session_archive.go:61-79 | archiving keeps files, rules link and everything in flight |
| Safety.OneStartInFlight | restapi/handlers/game_create.go:66-88 | in every reachable world a session has at most one generation in flight, and then it is "starting" with its phase-1 row, or deleted |
| Safety.StartsAreGenerable | lib/stars/newgame.go:167-199 | no generation in flight can fail for a race that is not found or unreadable or a bot without a level |
| Safety.StepEvolves | restapi/handlers/game_create.go:145-207 | every step of the protocol but a submission of orders moves a state only pending to starting, starting to started or pending, started to archived; leaves stored files and recorded rules alone; deleted sessions never return |
| Safety.GamesLast | restapi/handlers/session_archive.go:61-70 | over any run of steps a started game stays started or archived, none of its years is removed, and to them nothing but missing orders is ever added, as long as it is not deleted |
| Safety.SubmitAddsOrders | restapi/handlers/turn_submit.go:114-136 | a submission changes nothing, or adds the caller's order in the caller's slot of that one year and touches no other slot, year or table |
| History.OthersUntouched | restapi/handlers/game_create.go:58-260 | every step leaves every row of every session that it is not about as it was, all accounts, and, but for uploads and deletions, all races |
| History.EveryStartWasBegun | restapi/handlers/game_create.go:58-153 | over every run, behind each start in flight there is a step that took its session from pending to starting for a manager, with every player ready and every race valid, and handed on exactly this start |
| History.EveryGameWasBegun | restapi/handlers/game_create.go:105-201 | likewise behind each started or archived session, from the rules on record for it |
| History.EveryTurnWasTaken | lib/stars/newturn.go:184-217 | behind each turn in flight there is a step that read it, with the roster and everything stored at that moment, orders included |
| History.TurnsAreUpToDate | lib/stars/newturn.go:206-217 | and the files of its year are still stored, at most with orders that came later |
| History.EveryOrderWasSubmitted | restapi/handlers/turn_submit.go:71-136 | behind each stored order there is an accepted submission of exactly this text for this year by the player in this slot |
| Safety.YearsHaveNoGap | lib/stars/newturn.go:225-247 | a session's stored years are a gap-free stretch from 2400, non-empty exactly when it is started or archived |
| Safety.AnnouncedYearsAreStored | lib/stars/newturn.go:173-179 | a year that was announced was inserted, and its stored files carry that year in their own host file |
| Safety.RulesOfTheUniverse | restapi/handlers/game_create.go:112-116 | a started or archived session has exactly one ruleset, the one its universe was generated from, and still links to it |
| Safety.SaveRecordsRules | restapi/handlers/game_create.go:159-201 | what is recorded as the universe's rules is what phase 1 read, and the save loses no rules link |
| Safety.RostersAreOk | restapi/handlers/session_player_race_create.go:70-167 | over every run: humans play existing races of their own and once per session, bots have a predefined race and a level, slots are distinct and from 0 to 15 |
| Scenario.AGameCanStart | restapi/handlers/game_create.go:38-207 | from any initial world a user can create a session, set rules, upload a race, register, become ready, add a bot, and get to a started game with both players' turns stored for 2400, generated from those rules |
| Scenario.ATurnCanFollow | lib/stars/newturn.go:158-257 | and from there the human can submit orders and the turn of 2401 can be generated, stored and announced |
| Safety.AnswersExist | models/session_db.go:120-185 | in every reachable world the queries of phase 1 have an answer for every session |
| Safety.BeginIsNeverBlocked | restapi/handlers/game_create.go:58-153 | so phase 1 can always run, to its end or to an error |
| Safety.OrphansStay | restapi/handlers/game_create.go:234-260 | over any run of steps a session left "starting" without a start in flight stays so until it is deleted |
| Safety.FreeIffInFlight | restapi/handlers/game_create.go:157-207 | a session that is "starting" with rules can get out of it, other than by being deleted, if and only if a start of it is in flight |
| Safety.CrashOrphans | restapi/handlers/game_create.go:234-260 | a crashed start leaves exactly such a session |
| Scenario.AnOrphanIsReachable | restapi/handlers/game_create.go:157-166 | a run from nothing that ends in one |
| Protocol.EditKeepsInvIff | restapi/handlers/session_update.go:51-67 | an update keeps the invariant if and only if it writes a state without a game and the session has no rules, or is new and nothing was ever stored or is in flight for its id |
| Sessions.HandleSessionUpdate | restapi/handlers/session_update.go:30-71 | the whole row of the body, without a link to rules, and its members, or nothing |
| Sessions.SessionIsEdited | restapi/handlers/session_update.go:51-67 | in terms of the tables: the members become exactly those of the body with their flags, the row holds what the body says, no other session changes |
| GameStart.GameCreateHandler.Begin | restapi/handlers/game_create.go:58-153 | phase 1 as a whole; when it succeeds every player of the session was ready, the session alone changes, to "starting" with slots from 0 on, and what is handed on is that row, those players, their races and the session's rules |
| GameStart.BeginsIff | restapi/handlers/game_create.go:44-138 | it succeeds if and only if a manager asks, the session is pending, its players fit the slots, all are ready, it has rules, and every race brought in is valid; and what each error means |
| GameStart.BegunTables | restapi/handlers/game_create.go:96-153 | what it leaves and hands on, row by row |
| GameStart.BegunInput | lib/stars/gameinput.go:26-82 | under the roster invariant stars.exe is given the session's name and rules and one line per slot: a bot's own race and level, or a file that holds that human's own race |
| GameStart.GamesAreMadeFromInput | lib/stars/newgame.go:137-165 | the files of a new game are what stars.exe makes of exactly that input |
| GameStart.SavesIff | restapi/handlers/game_create.go:176-203 | phase 3 commits if and only if the session is there and has no files of that year, which is 2400 or later; it adds these files and writes this row, and no other |
| GameStart.RevertsOneState | restapi/handlers/game_create.go:235-260 | the compensation changes the state of its own session and nothing else |
| GameStart.NewFilesIff | lib/stars/newgame.go:55-110 | files come out if and only if universe, host file and every player's turn are there and the host file has a year |
| GameStart.GameCreateHandler.Generate | lib/stars/newgame.go:137-165 | race files and definition prepared, stars.exe run on them, and its directory read back, or nothing |
| GameStart.GameCreateHandler.Save | restapi/handlers/game_create.go:176-203 | phase 3 commits the files and the snapshot as "started", or nothing |
| GameStart.GameCreateHandler.RevertSessionState | restapi/handlers/game_create.go:235-260 | the current row becomes "pending"; a deleted session stays deleted |
| GameStart.GameCreateHandler.Handle | restapi/handlers/game_create.go:38-232 | without interference a request starts the game, if and only if all three phases can, and returns a turn that is in range; otherwise it leaves all as it was but for normalised slots |
| GameStart.RevertUndoes | restapi/handlers/game_create.go:160-172 | the compensating transaction undoes phase 1 except for the normalisation |
| GameStart.BegunIsGenerable | restapi/handlers/game_create.go:96-143 | under the roster invariant, passing phase 1 means the input of stars.exe can be prepared |
| Turns.TurnHandler.ReadInput | lib/stars/newturn.go:184-217 | the input of a turn is the stored bundle of exactly that session and year |
| Turns.ReadsIff | lib/stars/newturn.go:189-217 | it can be read if and only if session and files are there and every stored text decodes; then each part of the input is the stored text decoded, orders included, and the players are the roster |
| Turns.StoredTurnIsGenerated | lib/stars/newturn.go:212-299 | a stored bundle comes back whole, and in front of stars.exe lie the orders of exactly the slots that count as ready, with their content |
| Turns.TurnInput | lib/stars/newturn.go:272-299 | for whatever text players sent in: stars.exe finds universe, host file and the decoded orders under their players' numbers, and nothing else |
| Turns.TurnsAreMadeFromOrders | lib/stars/newturn.go:219-247 | a turn that is stored is what stars.exe made of that directory |
| Turns.TurnsAreStored | lib/stars/newturn.go:184-257 | and it is stored whenever stars.exe succeeds and the new year is not there yet |
| Turns.SavesTurnIff | lib/stars/newturn.go:225-247 | the insertion commits if and only if the session is there and has no files of that year, which is 2400 or later; it adds these files and nothing else |
| Turns.TurnHandler.NeedsGeneration | lib/stars/newturn.go:158-257 | a message is answered, with the year after its own, if and only if a turn could be read, generated and stored; otherwise the store is left alone |
| Turns.HandleTurnSubmit | restapi/handlers/turn_submit.go:71-136 | one order in the slot of the caller's row, in the last year; refused when that order is there already |
| Turns.SubmittedFiles | restapi/handlers/turn_submit.go:114-131 | an order is refused if and only if one is there or the slot is beyond the list; otherwise it is added in the caller's slot, the other slots are as before or empty, and the files stay readable |
| Turns.OnlyCallerGetsReady | restapi/handlers/turn_submit.go:114-139 | so readiness changes for the caller alone, also with the first order of a year |
| Turns.SubmitsIff | restapi/handlers/turn_submit.go:71-136 | when a submission is stored, and that it changes that one row of files |
| GameStart.NewFilesAreReadable | lib/stars/newturn.go:225-230 | what is stored for a new year decodes to what the directory holds, each turn in its player's slot, under the year of its own host file, without orders |
| Slots.PlayerRows.NormalizePlayerOrders | restapi/handlers/query_helpers.go:297-327 | position i gets slot i in memory and in the table; fails exactly when a row would have to go beyond slot 15 |
| Slots.OnlySlotsChange | restapi/handlers/query_helpers.go:311-324 | no row but the listed ones and no field but the slot changes, at any point of the loop |
| Slots.SlotAfterSteps | restapi/handlers/query_helpers.go:312-324 | after n iterations exactly the first n rows have their position as slot |
| Slots.NormalisedIsRoster | restapi/handlers/query_helpers.go:322-326 | memory and table agree: re-reading the session gives the returned list |
| Slots.NormaliseTwice | restapi/handlers/query_helpers.go:298-309 | normalising again writes nothing |
| Slots.NoClashOnTheWay | restapi/handlers/query_helpers.go:311-324 | for strictly ascending, non-negative slots no intermediate state has two players of the session in one slot |
| Slots.ValidatePlayerOrder | restapi/handlers/query_helpers.go:331-359 | accepts exactly the permutations of 0 to n-1, reports the first fault, and never reports a gap |
| Slots.NoFaultIsPermutation | restapi/handlers/query_helpers.go:336-356 | n distinct numbers below n are all of them, so the gap loop cannot fire |
| Slots.GetNextPlayerOrder | restapi/handlers/session_player_race_create.go:266-282 | the next slot is above every taken one, and 0 when there is none |
| Roster.SessionPlayerRaceCreateHandler.Authorize | restapi/handlers/session_player_race_create.go:206-262 | bots by managers; humans by members with a race they own; anything by global managers |
| Roster.SessionPlayerRaceCreateHandler.Handle | restapi/handlers/session_player_race_create.go:36-181 | the row that an update or a creation writes, or the error it ends with, in the order of the checks |
| Roster.RegistrationKeepsRoster | restapi/handlers/session_player_race_create.go:70-167 | a registration keeps the roster invariant if and only if it fields a bot or a race of the player's own user |
| Roster.UserKeepsRoster | restapi/handlers/session_player_race_create.go:246-261 | so nobody but a global manager can break the invariant |
| Roster.OnlyOwnRows | restapi/handlers/session_player_race_create.go:70-165 | nobody writes a human row but their own and only while it is not ready; what is written has the race and level of the request; an update changes those only, a creation takes a seat above all others and never a second one for a user |
| Roster.RegistersIff | restapi/handlers/session_player_race_create.go:40-181 | a registration succeeds if and only if the request is in order, a manager fields a bot or a member an own race (a global manager anything), and the named row may be changed or a seat taken, within the table's limits |
| Roster.WritesOneRow | restapi/handlers/session_player_race_create.go:150-167 | it writes that row and no other |
| Roster.CreatesIff | restapi/handlers/race_create.go:30-140 | an uploaded race belongs to its uploader; no other race changes |
| Roster.DeletesIff | restapi/handlers/race_delete.go:31-91 | a race goes if and only if it is there, nobody plays it and its path is the principal's or the principal a global manager; no other race does |
| Roster.NormaliseKeepsRoster | restapi/handlers/query_helpers.go:297-327 | on a valid roster normalisation cannot fail and keeps the roster valid |
| Roster.HandleRaceDelete | restapi/handlers/race_delete.go:31-91 | refuses a race in use, otherwise deletes exactly that race |
| Roster.RaceStepsKeepRoster | restapi/handlers/race_delete.go:51-79 | creating or deleting any race leaves every player with theirs |
| NewGame.PlayerRaces | models/session_db.go:140-171 | for each human in turn, every selected race of that user |
| NewGame.EachPlaysTheirOwnRace | models/session_db.go:157-169 | under the roster invariant joining by owner is joining by race id: one race per human in slot order, paired with that player's own bytes, never "not found" |
| NewGame.RaceFilesExist | lib/stars/newgame.go:167-199 | for any roster at all, race files can be made if and only if the owner of each human's race is a human of the session and each race decodes |
| NewGame.JoinedRaceFound | lib/stars/newgame.go:175-192 | after the join by owner, the lookup by id finds that very race, or none if its owner does not play |
| NewGame.NewRaceFiles | lib/stars/newgame.go:167-199 | one race file per human, in order, ending at the first fault |
| NewGame.ComputeRaces | lib/stars/gameinput.go:57-82 | one line per player, defined exactly when every bot has a level: a bot's race and level, or the file with the slot's number plus one |
| NewGame.SaveRaceFilesToSessionDir | lib/stars/newgame.go:201-240 | the race files are written one by one |
| NewGame.RaceFilesAreSaved | lib/stars/newgame.go:201-240 | for different slots each is in a fresh directory as it was processed, under its player's number, and no other |
| NewGame.LineNamesOwnRace | lib/stars/gameinput.go:79-82 | the file that a human's line names holds that human's own race |
| NewGame.GameFilesForTurn | lib/stars/newgame.go:82-109 | the bundle exists exactly when universe, host file and every player's turn are there; each turn is at the index of its slot, indices of gaps are empty, none is out of range |
| NewGame.TurnsAreBySlot | lib/stars/newgame.go:92-107 | for every roster, with or without gaps, the file of slot k is at index k, in range |
| NewGame.GapsAreEmpty | lib/stars/newgame.go:92-107 | an index is empty if and only if nobody sits there or the file itself is empty |
| NewGame.NormalisedHasNoGap | restapi/handlers/game_create.go:96-103 | a normalised roster of n fills exactly n indices |
| NewGame.OwnTurn | restapi/handlers/game_create.go:221-231 | the requesting player of a normalised roster receives the turn file of their own number |
| Sessions.HandleRulesCreate | restapi/handlers/rules_create.go:33-162 | only while pending; capital ships clamped to 10..300; the link is set with the first ruleset only |
| Sessions.RulesAreWritten | restapi/handlers/rules_create.go:80-152 | the session's rules become those of the request also the second time, a value out of range becomes the nearer bound, and nothing else changes |
| Sessions.RulesAreWrittenIff | restapi/handlers/rules_create.go:41-75 | who may write rules, when, and what each error means |
| Sessions.HandleSessionArchive | restapi/handlers/session_archive.go:32-87 | only a started session is archived, and only its state changes |
| Sessions.ArchivedIff | restapi/handlers/session_archive.go:41-79 | a request succeeds if and only if a manager asks and the session is started; then it is archived and nothing else changes |
| Sessions.HandleSessionDelete | restapi/handlers/session_delete.go:33-103 | no row names the session any more, every row of every other session stays, and the users who may receive the notification are exactly those who could access the session just before |
| Sessions.DeletesOneSession | migration/scripts/0004_add_table_user_profile_session_rel.up.sql:7 | so access to every other session is as before |
| Sessions.DeletedIff | restapi/handlers/session_delete.go:42-60 | a session is deleted if and only if it is there and a manager asks |
| Sessions.CheckAccess | restapi/handlers/query_helpers.go:127-148 | access is being public, a membership or an invitation |
| Sessions.CanAccessDeletedSession | restapi/handlers/notifications_responder.go:253-272 | decides from the captured metadata alone |
| Sessions.CapturedIds | restapi/handlers/session_delete.go:62-74 | the captured ids are the members and the invitees, no one else |
| Sessions.NobodyAccessesDeleted | restapi/handlers/notifications_responder.go:216-219 | asking the live tables after the delete would reach nobody, hence the metadata |
| Sessions.HandleSessionJoin | restapi/handlers/session_join.go:36-150 | a pending session gains the member, the invitation is consumed, and the notice of that goes to exactly its invitee |
| Sessions.HandleInvitationAccept | restapi/handlers/invitation_accept.go:34-130 | likewise for an accepted invitation, without a membership limit |
| Sessions.MemberAcceptFails | restapi/handlers/invitation_accept.go:76-94 | accepting is never a conflict; it is an internal error if and only if the invitation is the caller's, its session pending, and the caller already a member or unknown; and when it succeeds |
| Sessions.OnlyVisitorsJoin | restapi/handlers/session_join.go:185-219 | joining and accepting let in only who could already see the session, only while it is pending, and never as a manager; the invitation used goes and nothing else changes |
| Sessions.JoinedIff | restapi/handlers/session_join.go:45-110 | who gets in, and what each error means, the limit of sessions that are not archived included |
| Sessions.JoiningKeepsAccess | restapi/handlers/session_join.go:94-135 | consuming the invitation takes access from nobody and gives it to nobody, in any session |
| Relations.RelationTable.SyncUserProfileSessionRelations | lib/relations.go:11-53 | the rows of the given side become exactly the list, every other row is untouched; fails exactly on a duplicate or a dangling key |
| Relations.UpsertThenDelete | lib/relations.go:16-51 | upserting the list and deleting the rest of that side is replacing that side, in both orientations |
| Relations.ReplaceTwice | lib/relations.go:11-53 | a rewrite forgets what the side held before |
| Broadcast.Worker.HandleNeperReferentialBroadcast | sync/referential_broadcast.go:108-181 | commits exactly when every change is readable and applies, in order; a failing change leaves the database untouched |
| Broadcast.Worker.ReadChange | sync/referential_broadcast.go:51-106 | the operation, the tagged type and the data of a change; anything else in it is an error |
| Broadcast.ChangeIsReadIff | sync/referential_broadcast.go:51-98 | a change is read if and only if each member is a known operation or tagged data |
| Broadcast.OperationIsLastGiven | sync/referential_broadcast.go:62-76 | its operation is the last one given |
| Broadcast.DataIsLastGiven | sync/referential_broadcast.go:77-90 | its data and type are the last given |
| Broadcast.MessageIsReadIff | sync/referential_broadcast.go:114-172 | a message is read if and only if each member is a version of 64 bits without sign or a list of changes |
| Broadcast.MessageInOrder | sync/referential_broadcast.go:123-165 | its changes are those of its lists, in order |
| Broadcast.AppliesIff | lib/relations.go:11-53 | a write succeeds if and only if its row is accepted, its list names nobody twice, and everybody on it exists |
| Broadcast.LastTouchWins | sync/sessions.go:12-41 | after a message that commits, every membership is as the last change naming its session or its user lists it, absent if that omits it, unchanged if none names either |
| Broadcast.LastPutWins | sync/user_profile.go:12-60 | likewise every row is the one that the last change writing it gives |
| Broadcast.ReplayChangesNothing | sync/referential_broadcast.go:108-181 | handling a message again, if that commits, changes nothing |
| Broadcast.ReplayCommits | sync/referential_broadcast.go:108-181 | it does commit when the row constraints look at the row alone |
| Publishing.PublishedMessage | sync/schemas.go:1541-1563 | a published message is read as its changes in order, if and only if its version is not negative |
| Publishing.PublishedChange | sync/schemas.go:1111-1128 | a published change does what its operation and record say; an invitation or an unknown operation fails |
| Publishing.PublishedTouch | sync/user_profile.go:46-53 | which pairs a published record decides, and how, in terms of its own list |
| Publishing.ColumnsExist | sync/schemas.go:2400-2503 | every record has an id, and the columns that the worker looks at have the types it expects |
| Publishing.PublishedRow | sync/sessions.go:12-27 | for each kind: the row has the record's id and kind and every column of the record with its own value, but the tag, the list of relations, and what is null; an empty list is nil; and exactly which changes do nothing or fail |
| Publishing.PublishedAppliesIff | sync/user_profile.go:12-60 | a record is written if and only if its row is accepted and its list names existing ones, nobody twice |
| Publishing.LastRecordWins | sync/session_player_race.go:11-33 | after a published message that commits, the row of the last record about it is the row of that record |
| Publishing.OtherRowsStay | sync/referential_broadcast.go:101-181 | and a row that no record is about is as before |
| Publishing.LastListWins | sync/user_profile.go:46-53 | a membership is as the last record about its session or user lists it |
| Publishing.OtherMembersStay | lib/relations.go:11-53 | and one that no record is about is as before |
| SyncCodec.UnmarshalJSON | sync/schemas.go:2400-2503 | the generated decoder of every type, driven by its schema |
| SyncCodec.DecodeIsLastValues | sync/schemas.go:2834-2985 | an object decodes exactly when its visible members are acceptable and no required one is missing; each field holds the last value given |
| SyncCodec.FalseIsOnlyForBooleans | sync/schemas.go:2405-2470 | with a `false` for a known field an object decodes if and only if that field is a boolean and nothing is wrong with the rest |
| SyncCodec.ScalarsRead | sync/schemas.go:2405-2470 | which values a field takes, and what null does to each kind |
| SyncCodec.UnmarshalDataType | sync/schemas.go:668-764 | the first decoder that succeeds wins |
| SyncCodec.GuessDataType | sync/referential_broadcast.go:13-49 | the first tag decides; no tag is no type |
| SyncCodec.FirstTagDecides | sync/referential_broadcast.go:13-49 | no tag is no type and no error; otherwise the first tag must be one of the seven names |
| SyncCodec.DispatchersAgree | sync/schemas.go:668-764 | trying every decoder gives type T and a record exactly when the tag says T and T's own decoder gives that record |
| SyncCodec.SchemasAreGood | sync/schemas.go:2400-2503 | each of the seven schemas has distinct names and a required tag, which the agreement rests on |
| SyncEncoder.MarshalJSONStream | sync/schemas.go:2334-2388 | the stream is the rendering of the fields that are not omitted, with commas between members only |
| SyncEncoder.WrittenIff | sync/schemas.go:2334-2388 | a field is written, with its own value, if and only if it is not optional or not empty |
| SyncEncoder.ParseRender | sync/schemas.go:33-44 | what the comma tracker writes parses back to the same members |
| SyncEncoder.EncodeThenDecode | sync/schemas.go:2759-2985 | encoding a well-tagged record and decoding it by either route gives the same type and record, despite omitted empty fields |
| SerialKeys.RunKeepsInv | lib/serial/serial.go:141-200 | every interleaving of statements, commits and rollbacks keeps row locks exclusive and held keys free |
| SerialKeys.KeysAreNeverShared | lib/serial/serial.go:144-177 | two committed assignments never return one key, and each profile's key is owned by that profile in the key table |
| SerialKeys.AssignmentsAreNeverFreed | lib/serial/serial.go:156-164 | a committed assignment keeps its owner for ever |
| SerialKeys.KeysAreConserved | lib/serial/serial.go:202-222 | free plus assigned is constant, and the assigned count grows by one per committed assignment |
| SerialKeys.KeysOfUser | lib/serial/serial.go:144-200 | in every run a user's keys are those of the start and one per assignment committed to that user |
| SerialKeys.OneKeyIffOneGrant | lib/serial/serial.go:144-200 | so a user has at most one key if and only if these are at most one together |
| SerialKeys.SecondKeyIffOwnedBefore | lib/serial/serial.go:144-200 | a commit leaves its user with more than one key if and only if the committed key table already has a key of that user |
| SerialKeys.KeysStayWithinOpen | lib/serial/serial.go:144-200 | over any stretch of a run a user's keys stay within those owned, those being assigned, and the assignments begun in it |
| SerialKeys.OneApprovalOneKey | lib/serial/serial.go:179-200 | one approval of a user without a key and without an open assignment gives at most one key |
| SerialKeys.OneUserMayTakeTwoKeys | lib/serial/serial.go:179-200 | a run in which two approvals of one user take two keys |
| SerialKeys.SoloTransaction | lib/serial/serial.go:179-200 | an undisturbed transaction goes through all its statements |
| SerialKeys.KeyStore.AssignKeyToUser | lib/serial/serial.go:181-200 | fails leaving both tables alone, or gives one free unlocked key to the user |
| SerialKeys.KeyStore.CountKeys | lib/serial/serial.go:203-222 | the two counters add up to the table |
| SerialKeys.LoadKeys | lib/serial/serial.go:22-49 | the non-empty lines after the header, in order |
| SerialKeys.KeysInOrder | lib/serial/serial.go:22-49 | each non-empty line after the header is a key, at its place among them, and there are no others |
| SerialKeys.KeyTable.InsertKeyBatch | lib/serial/serial.go:104-139 | a batch is inserted as a whole or not at all |
| SerialKeys.KeyTable.LoadKeysIntoDB | lib/serial/serial.go:54-101 | the batch loop ends and does what the batch-wise specification says |
| SerialKeys.LoadFromKeepsWholeBatches | lib/serial/serial.go:78-93 | what is there afterwards is the old rows and a run of whole batches |
| SerialKeys.LoadIsAllOrWholeBatches | lib/serial/serial.go:54-101 | into an empty table: the whole list in order on success, a prefix of whole batches on failure |
| SerialKeys.LoadSucceedsIff | lib/serial/serial.go:54-139 | it succeeds if and only if no key is longer than 8, no two are the same, and each transaction of 50000 is accepted |
| SerialKeys.RerunCompletesOnlyAnEmptyLoad | lib/serial/serial.go:62-71 | a rerun after a non-empty partial load inserts nothing |
| SerialKeys.PartialLoad | lib/serial/serial.go:62-93 | a list of one key more than a batch and a failure at the second batch leave a load that no rerun completes |
| Base64.B64Encode | lib/stars/gamefiles.go:21-25 | fills a buffer of exactly the computed length with the encoding |
| Base64.B64Decode | lib/stars/hostfile.go:41-49 | decodes into a buffer of the computed length, newlines skipped, and cuts it to what was decoded |
| Base64.AlphabetIsStandard | lib/stars/gamefiles.go:21-25 | the alphabet is that of RFC 4648 |
| Base64.GroupIsNumber | lib/stars/gamefiles.go:21-25 | each four symbols are the digits of the 24-bit number of three bytes, and padding stands exactly where bytes are missing |
| Base64.TestVectors | lib/stars/gamefiles.go:21-25 | the vectors of section 10 of RFC 4648 |
| Base64.StripsPerCharacter | lib/stars/hostfile.go:41-49 | exactly the characters CR and LF are skipped, in any place |
| Base64.EncodeFitsBuffer | lib/stars/gamefiles.go:22-23 | the encoding has exactly the computed length |
| Base64.DecodeFitsBuffer | lib/stars/hostfile.go:42-47 | the computed length is enough, and at most two too many without newlines |
| Base64.DecodeEncode | lib/stars/hostfile.go:41-49 | decoding an encoding gives the bytes back |
| Base64.EncodeDecode | lib/stars/gamefiles.go:21-25 | encoding a decoded text gives the text back if and only if it is canonical |
| GameFiles.HydrateSessionFiles | lib/stars/gamefiles.go:82-104 | every part encoded, under the year of the host file |
| GameFiles.NewGameFilesFromSessionFiles | lib/stars/gamefiles.go:27-54 | every part decoded, or an error |
| GameFiles.StoreThenLoad | lib/stars/gamefiles.go:27-104 | storing and loading is the identity on universe, host file, turns and orders |
| GameFiles.LoadThenStore | lib/stars/gamefiles.go:27-104 | loading and storing changes nothing if and only if the year agrees and every text is canonical |
| GameFiles.ReadyPlayers | models/session_files_db.go:15-21 | a slot is ready when its stored order is not empty |
| GameFiles.SaveOrderFilesToSessionDir | lib/stars/newturn.go:357-367 | non-empty orders become files, one per slot |
| GameFiles.OrderFilesMatchSlots | lib/stars/newturn.go:357-390 | in a fresh directory exactly the non-empty orders have a file, under their player number and with their content |
| GameFiles.SaveTurnToSessionDir | lib/stars/newturn.go:272-299 | orders, universe and host file are written for stars.exe |
| GameFiles.TurnDirHoldsBundle | lib/stars/newturn.go:272-299 | in a fresh directory that is all there is, with the bundle's content |
| GameFiles.ReadyMeansWritten | models/session_files_db.go:15-21 | ready and written agree if and only if the stored text is not made of newlines alone |
| GameFiles.StoredOrdersAreReadyIffWritten | models/session_files_db.go:15-21 | for orders that the server stored they always agree |
| GameFiles.WriteFileIsExact | lib/stars/newturn.go:369-390 | opening without truncation is harmless if and only if no longer file was there |
| Lifecycle.RunKeepsInv | lib/stars/newturn.go:99-147 | every interleaving of `Run`, cancellation and any number of `Shutdown` callers keeps the invariant |
| Lifecycle.ChannelsCloseOnce | lib/stars/newturn.go:77-89 | neither channel is closed twice; done implies ready and not running |
| Lifecycle.NobodyWaitsInVain | lib/stars/newturn.go:141-147 | a blocked caller has cancelled the context, and `Run` can act or done is closed |
| Lifecycle.CancelledRunEnds | lib/stars/newturn.go:123-128 | once cancelled, every action that takes no message brings the end closer |
| Lifecycle.CancelIsThere | lib/stars/newturn.go:102-103 | nobody calls a cancel function that has not been set |
| Lifecycle.WaitedMeansExited | lib/stars/newturn.go:141-147 | a call that saw the generator running returns only after its exit |
| Lifecycle.ShutdownWaitsIffRunning | lib/stars/newturn.go:141-147 | for every run that comes to the check of a call and everything that may follow: the call returns only after the exit if and only if the flag is set at the check or `Run` has exited |
| Lifecycle.CheckingBeforeTheCallIsNotEnough | lib/stars/newturn.go:113-147 | from the moment of the call, it is sure to return only after the exit if and only if `Run` has exited already |
| Lifecycle.ShutdownBeforeRunning | lib/stars/newturn.go:142-144 | a call before the flag is set returns at once and the generator goes on, not cancelled |
| Lifecycle.ShutdownWhileExiting | lib/stars/newturn.go:113-117 | a call after the flag is cleared returns while done is still open |

## Left out

- Isolation below whole transactions in the session protocol: a rules update that has read "pending" and commits after phase 1 is not an interleaving of the model.
- A commit whose acknowledgement is lost: a failed commit is taken to have changed nothing.
- HTTP, responders, error texts, logging, metrics, generated validation of requests and the SQL text itself.
- Running wine, the file system beyond names and contents of a session directory, zip files, the parser of binary Stars! files.
- `auth/auth.go`, the rate limiter, the NATS connection and delivery guarantees.
- Reordering of players (`restapi/handlers/reorder_players.go`): it is not scoped to a session, so slots need not stay distinct across it. A start normalises whatever slots it finds.
- Promoting members, switching players to AI and back: not steps of the protocol. Leaving a session and removing a player are covered as the removal of arbitrary rows, followed by any normalisation.
- Whether all players are ready after a submission: a turn may be asked for at any time.
- Broadcasts as steps of the session protocol: they write states and rules directly, so the two models are separate.
- The state "pending" of new sessions is modelled, but not how the creator is merged into the lists of members and managers.
- Protocol.RunKeepsInv: human players are registered by users who are not global managers, and sessions that already have rules are not updated through `restapi/handlers/session_update.go`, which would write a state of the body's choice and drop the link to the rules; Roster.RegistrationKeepsRoster and Protocol.EditKeepsInvIff say exactly what these break. An update that gives a deleted id a new session is not a step either.
- Protocol.SaveKeepsTheRow: an update of the session between phase 1 and phase 3 is not a step; phase 3 would write the phase-1 row over it.
- Safety.OneStartInFlight: without updates of sessions that have rules. This is safety only; a crash or a failed revert leaves a session "starting", as Safety.OrphansStay says.
- Safety.StartsAreGenerable: without updates of sessions that have rules.
- Safety.StepEvolves: an update of a session that has rules is not a step; it may move the state anywhere.
- Safety.GamesLast: without updates of sessions that have rules, which may un-start a game, and without switching players to AI, which rewrites the stored host file.
- Safety.YearsHaveNoGap: without updates of sessions that have rules, which may give a session with files another state.
- Safety.AnnouncedYearsAreStored: the host file of a stored year may be rewritten by switching a player to AI, which is not a step.
- Safety.RulesOfTheUniverse: without updates of sessions that have rules, which drop the link to them.
- Safety.OrphansStay: an update of the session through `restapi/handlers/session_update.go` could free it; for sessions with rules that is not a step.
- Safety.FreeIffInFlight: likewise.
- Turns.HandleTurnSubmit: the membership check and the checks of the submitted file's header are one flag.
- SyncCodec.UnmarshalJSON: works on parsed objects with ordered, possibly repeated members, not on bytes; list items are matched by exact name although the reflective reader also accepts other cases, and a repeated list replaces the earlier one although the reader may reuse its elements.
- Broadcast.Worker.HandleNeperReferentialBroadcast: works on a parsed message, and the checks and unique keys of the written rows are one arbitrary predicate; an upserted session row also resets the columns that the record does not carry, which the stored record does not show.
- Roster.HandleRaceDelete: race creation appears only as a step whose limit, parsing and validation are one flag.
- NewGame.ComputeRaces: the two kinds of lines are values, not formatted text, and the template around them is left out; the definition that stars.exe is given is the record of its parts, not a file.
- Turns.TurnHandler.NeedsGeneration: the database is not seen between the writing of the files and the run of stars.exe; what else the directory holds from an earlier attempt is a parameter.
- Lifecycle.RunKeepsInv: reading and writing the running flag are single actions; the memory model of unsynchronised access is not covered.

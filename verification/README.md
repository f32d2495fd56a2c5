# Plane in Dafny

Plane runs session backends: processes that are started for a key, run on drones, and are reached
through proxies. Controllers keep all shared state in one Postgres database. Plane promises that at
most one process runs for a key at any time, although drones may be cut off from the controllers and
their clocks may be set to anything.

This project models the parts that keep that promise, and the parts that carry a backend's status
from the drone to whoever waits for it, and proves what they promise over every run.

| module | models |
|---|---|
| `BackendStates` | statuses, states and the transitions between them |
| `Tables`, `Effects`, `Database` | the controller's tables and every transaction on them, as values and as an object with an update per transaction, and what each transaction leaves in which column |
| `StatusReports` | folding status reports into one row of the backend table |
| `Lease` | the lease protocol of keys between controllers and drones with unrelated clocks and a network that loses, repeats and delays |
| `KeyManager` | the drone's loop that renews a key or stops its backend, and the table of such loops |
| `Connect` | `connect` with every other transaction interleaved between its own |
| `StateStore` | the drone's durable event store, and the protocol that replays it to the controller |
| `EventBus` | catch-up and live delivery of database notifications |
| `StatusStream`, `Delivery` | the resumable stream of a backend's statuses, and the whole way from a transaction over the event table to it |
| `Lifecycle` | the state machine of one backend on its drone, with calls that overlap, and the clean-up after a drone restart |
| `ConnectionMonitor`, `Keepalives` | keepalives for backends with open connections, on their own and together with the tables and the sweep |
| `RouteMap`, `RouteRequests` | the proxy's route cache, and the controller's answers to it |
| `Nodes` | which controller a node is connected to |
| `Sse`, `Resumption` | the client's reader of server-sent events, and a client of the status stream that reconnects |
| `ConnectUrl` | printing a connect URL and reading a request made to it |

Files that change state in place are classes whose methods are proved against a function of the old
state; loops are loops with invariants. Protocols are step machines: `Enabled` and `Apply` for one
step, `Valid` and `Final` for a run, and a `RunKeepsInv` lemma for every run. Each transaction is one
step, and the database clock never goes back. Times are in microseconds.

Assumed throughout: backend ids are not reused, a drone's event store is a file that survives a
restart, and all clocks run at the same rate, whatever they are set to.

## What the code does and its documentation does not say

- Fencing tokens are documented as increasing with every grant (common/src/protocol.rs:63-68). They
  are milliseconds, so two grants in one millisecond share a token: `Lease.ReplacementTies`, with
  the exact condition in `Lease.TokensNeverDecrease`.
- The first lease has its soft and hard deadline at the same instant
  (plane/src/database/connect.rs:172-177), so a backend on its first lease is never soft-terminated
  by its drone: `KeyManager.FirstLeaseHasNoSoftStop`.
- A lease at the very instant of its expiry is neither live nor removable, so a connect at that
  instant fails with a retryable error: `Connect.ExpiryInstantIsReachable`, with the exact condition
  in `Connect.ExpiryInstantIff` and `Connect.AttemptConnect`.
- After a drone restart the terminated state is computed from the state before hard termination, so
  its kind and reason are lost unless hard termination had already begun: `Lifecycle.RestartKindIff`.
- `terminate`, `mark_terminated` and finished steps compute a state under one lock and set it under
  another. A terminate call that an exit overtakes, and a finished step that a terminate call
  overtakes, take the status back, and an exit that a terminate call overtakes forgets the
  termination: `Lifecycle.OvertakenTerminateLowersStatus`, `Lifecycle.OvertakenFinishLowersStatus`,
  `Lifecycle.OvertakenExitForgetsTermination`, with the exact condition in
  `Lifecycle.SoundThroughoutIff`.
- Removing a backend with open connections makes later counts wrap around or miss connections:
  `ConnectionMonitor.RemovalCanWrapACount`, `ConnectionMonitor.RemovalCanHideAConnection`, with the
  exact condition in `ConnectionMonitor.CountIsRightIff`.
- A connection opened when its backend is close to its idle limit, or past it, may come too late:
  `ConnectionMonitor.FreshConnectionCanBeSwept`, with the exact condition in
  `ConnectionMonitor.OpeningTooLateIff` and `ConnectionMonitor.IdleLimitIff`.
- A row that becomes visible below the last id while the manager follows is never delivered:
  `EventBus.LateRowIsMissed`, with the exact condition over runs in `EventBus.MissesNothingIff`.
- A client that subscribes before the manager has delivered anything can miss a status for good:
  `Delivery.FirstRowsCanPassBy`, with the exact condition in `EventBus.NoRowPassesByIff`.
- The event reader drops what is left of a chunk after the event it completes:
  `Sse.DroppedBytesMatterIff`, `Sse.SecondEventCanBeLost`. A status dropped in this way is lost for
  good if another event follows before a reconnect: `Resumption.ResumedClientIff`.
- Two registrations of a node in one instant cannot be told apart: `Nodes.StaleCloseIff`,
  `Nodes.TiedStartTimesConfuse`. Marking a node offline announces a disconnection even when nothing
  was changed.
- A cluster named with an explicit port 443 rejects every host its own URLs have:
  `ConnectUrl.HostRoundTrip`, `ConnectUrl.ExplicitHttpsPortIff`.

## Model

| member | source | states |
|---|---|---|
| `BackendStates.StatusOrdersAgree` | common/src/types/backend_state.rs:46-57 | the declared order of statuses and the stored numbers order every pair alike, and the numbers tell all statuses apart |
| `BackendStates.StoredNumbers` | common/src/types/backend_state.rs:46-57 | the numbers that are stored for the eight statuses |
| `BackendStates.StatusTells` | common/src/types/backend_state.rs:273-284 | a state's status tells which state it is |
| `BackendStates.AddressIff` | common/src/types/backend_state.rs:265-271 | a backend has an address exactly while it is waited for or ready |
| `BackendStates.EntryTellsExit` | common/src/types/backend_state.rs:421-453 | a stream entry tells of an exit only at the end, and of an error exactly for a nonzero code |
| `Tables.UpdateStateKeepsConsistent` | plane/src/database/backend.rs:150-218 | a status report, accepted or not, keeps every table rule: one holder per key, keys only of running backends, rows that match their strictly increasing history, no dangling reference |
| `Tables.CreateKeepsConsistent` | plane/src/database/connect.rs:95-198 | creating a backend with its key, action and history keeps every table rule |
| `Tables.KeepaliveKeepsConsistent` | plane/src/database/backend.rs:454-472 | a keepalive keeps every table rule |
| `Tables.RenewKeepsConsistent` | plane/src/database/backend_key.rs:66-86 | a renewal keeps every table rule |
| `Tables.LeaseMoveKeepsConsistent` | plane/src/database/backend_key.rs:32-86 | removing, renewing or freezing a lease keeps every table rule |
| `Tables.CleanupTouchesNoKey` | plane/src/database/backend.rs:524-613 | no backend old enough to be cleaned up holds a key, so cleanup leaves the key table as it was |
| `Tables.CleanupNeverBlocked` | plane/src/database/backend.rs:524-613 | for every age and batch, deleting the chosen backends after their dependents never hits a foreign key, removes exactly them, and leaves nothing that refers to a deleted backend |
| `Tables.AlwaysConsistent` | plane/src/database/backend.rs:200-211 | over every sequence of transactions the tables stay consistent |
| `Effects.CreatedBackend` | plane/src/database/connect.rs:95-154 | a created backend is scheduled on its drone, with its static token and idle limit, its keepalive set to now, and its lifetime over exactly after now and the lifetime asked for |
| `Effects.CreatedLease` | plane/src/database/connect.rs:129-131 | its lease is on the wanted key and tag, may be renewed, is live for exactly 60 s and removable exactly after them |
| `Effects.TokenIsMilliseconds` | plane/src/database/connect.rs:130-130 | its fencing token is the time in milliseconds to the nearest |
| `Effects.CreatedAction` | plane/src/database/connect.rs:168-193 | its drone has an unacknowledged spawn action with that token and deadlines 30, 40 and 40 s after the drone's last local time |
| `Effects.CreateTouchesNothingElse` | plane/src/database/connect.rs:95-198 | nothing of any other backend changes, and no token or drone |
| `Effects.CreateIsAllOrNothing` | plane/src/database/connect.rs:95-198 | a create changes something exactly if id, key and action are new and the drone is known |
| `Effects.ReportTouchesOnlyStatus` | plane/src/database/backend.rs:150-218 | a report leaves drone, limits, keepalive and static token of its backend, and everything of every other, as they were |
| `Effects.ReportEndsLeaseIff` | plane/src/database/backend.rs:200-211 | a lease goes with a report exactly if it is the one that its backend has terminated |
| `Effects.KeepaliveMarks` | plane/src/database/backend.rs:454-472 | a keepalive sets the last one of a backend that has not terminated to now, and nothing else |
| `Effects.KeepaliveSpares` | plane/src/database/backend.rs:454-499 | after it the sweep takes the backend exactly once its idle limit has passed again, or its lifetime is over |
| `Effects.RenewalExtends` | plane/src/database/backend_key.rs:66-86 | a renewal starts 60 s anew and changes nothing else |
| `Effects.PreventedForGood` | plane/src/database/backend_key.rs:32-49 | over every run, a lease that may not be renewed is never extended again until it goes |
| `Effects.RemovalTakesExpired` | plane/src/database/backend_key.rs:51-64 | a removal takes exactly the named lease, exactly after its expiry |
| `Effects.HeartbeatRecords` | plane/src/database/drone.rs:66-80 | a heartbeat notes both clocks of its drone and nothing else |
| `Effects.TokenLeads` | plane/src/database/connect.rs:200-225 | a new token leads to its backend, and one in use where it did |
| `Effects.ActionAcknowledged` | plane/src/database/backend_actions.rs:20-68 | only the drone it is for acknowledges an action |
| `Effects.CleanupTakesOnlyOld` | plane/src/database/backend.rs:524-613 | a cleanup takes no backend that was not terminated that many times 24 hours ago |
| `Effects.CleanupTakesAllOld` | plane/src/database/backend.rs:524-613 | with room in the batch it takes every one that was |
| `Effects.CleanupIsPossible` | plane/src/database/backend.rs:524-613 | a cleanup of any age and batch can run in any state |
| `Effects.CleanupSparesOthers` | plane/src/database/backend.rs:524-613 | rows, history, tokens and actions of all other backends stay as they were |
| `Database.RunStatesConsistent` | plane/src/database/backend.rs:150-218 | every state a database object has been in is consistent |
| `Database.CleanupGoesThrough` | plane/src/database/backend.rs:524-613 | in every run the deletes of a cleanup go through in full |
| `Database.Database.UpdateState` | plane/src/database/backend.rs:150-218 | the update in place is the transaction, and reports whether the row took the status |
| `Database.Database.UpdateKeepalive` | plane/src/database/backend.rs:454-472 | the keepalive is set, and found, exactly for a backend that is not terminated |
| `Database.Database.RemoveKey` | plane/src/database/backend_key.rs:51-64 | the lease goes, and is reported gone, exactly if it had expired |
| `Database.Database.RenewKey` | plane/src/database/backend_key.rs:66-86 | the lease is extended exactly if it exists and may be renewed |
| `Database.Database.PreventRenew` | plane/src/database/backend_key.rs:32-49 | no renewal succeeds afterwards, and nothing else changes |
| `Database.Database.CheckKey` | plane/src/database/backend_key.rs:89-140 | nothing is found exactly when no lease has the key; what is found is that lease with its backend's status |
| `Database.Database.CreateBackendWithKey` | plane/src/database/connect.rs:95-198 | all rows are inserted or none; a conflict is reported exactly when the id or the key is taken |
| `Database.Database.CreateToken` | plane/src/database/connect.rs:200-225 | a token is stored exactly if it is new and its backend exists |
| `Database.Database.Cleanup` | plane/src/database/backend.rs:524-613 | exactly the chosen backends go, with everything that refers to them, and no lease changes |
| `StatusReports.UpdateStateReceives` | plane/src/database/backend.rs:150-218 | the transaction, seen from one backend's row and history, is one step of the fold |
| `StatusReports.FoldReachesGreatest` | plane/src/database/backend.rs:150-218 | whatever the reports and their order, the row ends at the greatest status number among them and its own |
| `StatusReports.OrderAndRepetitionDoNotMatter` | plane/src/database/backend.rs:150-218 | two report sequences with the same members end at the same status number |
| `StatusReports.FoldKeepsSound` | plane/src/database/backend.rs:150-218 | the history only grows, stays strictly increasing and ends in the row's state; the status, number and address columns stay functions of the state |
| `StatusReports.StaleReportsAreIgnored` | plane/src/database/backend.rs:150-218 | reports not above the row change nothing at all |
| `StatusReports.ReplayIsIdempotent` | plane/src/database/backend.rs:150-218 | replaying any of the reports, in any order, changes nothing |
| `StatusReports.TerminatedAbsorbs` | plane/src/database/backend.rs:150-218 | a terminated row and its history never change again |
| `StatusReports.FirstGreatestWins` | plane/src/database/backend.rs:150-218 | among reports of the greatest status the first one received is kept, with its time |
| `StatusReports.ReadyRowsHaveAnAddress` | common/src/types/backend_state.rs:265-288 | a row that reads ready is in the ready state and stores that state's address |
| `Lease.RunKeepsInv` | plane/src/database/connect.rs:95-198 | every step of the lease protocol keeps its invariant: every deadline issued lies a margin before the expiry of the lease it was issued under, in the drone's own time |
| `Lease.ReachableIsSound` | plane/src/controller/drone.rs:77-100 | the invariant holds in every reachable state, for every clock offset, loss, repetition and delay |
| `Lease.HandoverIsSafe` | plane/src/database/connect.rs:252-302 | when a key passes to another backend, the earlier one is recorded as terminated, or every deadline triple ever issued for it has its hard deadline past by 10 s or more by its drone's clock |
| `Lease.NoFurtherDeadlines` | plane/src/database/backend_key.rs:51-86 | once a lease is gone, no further deadline is issued for its backend in any continuation |
| `Lease.StoredSpawnsAreIssued` | plane/src/database/connect.rs:168-193 | in every run the deadlines of every stored spawn action are among those issued, so hand-over safety covers them |
| `Lease.SpawnReachesTheDrone` | plane/src/database/connect.rs:168-193 | a spawn that is received gives the drone deadlines 30, 40 and 40 s after its last known local time |
| `Lease.RenewalReachesTheDrone` | plane/src/controller/drone.rs:77-100 | a renewal that is asked for, handled and answered gives it deadlines 30, 40 and 50 s after its asking, and extends the lease by 60 s from the handling |
| `Lease.RefusedRenewalIsSilent` | plane/src/controller/drone.rs:77-100 | a renewal that is refused changes nothing |
| `Lease.OnlyItsOwnIsForgotten` | plane/src/drone/key_manager.rs:171-173 | unregistering a backend or restarting its drone drops its deadlines and no others |
| `Lease.HeartbeatReachesThePick` | plane/src/database/drone.rs:66-80 | what a picked drone is known by is its own clock at the last heartbeat handled |
| `Lease.EarlierHolderMayNotRun` | plane/src/database/connect.rs:252-302 | an earlier holder of a key has no deadline left under which it may run |
| `Lease.OneBackendPerKey` | plane/src/database/connect.rs:95-198 | in every reachable state at most one of the backends ever granted a key may run |
| `Lease.RenewalsKeepToken` | plane/src/database/backend_key.rs:66-86 | as long as a lease exists its fencing token and key stay the same |
| `Lease.TokensNeverDecrease` | plane/src/database/connect.rs:129-131 | tokens of later grants are never lower; they are higher exactly when the grants round to different milliseconds, and by 60000 or more after an expiry |
| `Lease.ReplacementTies` | common/src/protocol.rs:63-68 | from every state in which a key can be taken, a replacement in the same millisecond gets the same token |
| `Lease.TiesAreReachable` | plane/src/database/drone.rs:66-80 | such states are reachable |
| `KeyManager.RenewKeyLoop` | plane/src/drone/key_manager.rs:26-112 | the log of the loop is the decision at each waking, and the loop ends exactly with the first waking past the hard deadline whose terminate action is accepted |
| `KeyManager.StopsOnTime` | plane/src/drone/key_manager.rs:26-112 | a waking stops the backend exactly from the soft deadline on, and stops it hard exactly from the hard deadline on |
| `KeyManager.AsksOnTime` | plane/src/drone/key_manager.rs:83-92 | a waking asks for a renewal, with the time it reads for it, exactly if the loop is connected and between its renew and soft deadlines, and does nothing exactly otherwise before the soft one |
| `KeyManager.SleepsToTheNextDeadline` | plane/src/drone/key_manager.rs:26-112 | a waking sleeps exactly until the next deadline after it; a refused stop, or one past all deadlines, is tried again after a second |
| `KeyManager.PassesMoveForward` | plane/src/drone/key_manager.rs:26-112 | each waking lies at or after the instant the earlier one slept until |
| `KeyManager.AtMostOnce` | plane/src/drone/key_manager.rs:26-112 | per set of deadlines one renewal request is sent at most, and one accepted soft stop, after which only hard stops follow |
| `KeyManager.SoftStopIff` | plane/src/drone/key_manager.rs:26-112 | a soft stop is possible exactly if the soft deadline lies before the hard one |
| `KeyManager.FirstLeaseHasNoSoftStop` | plane/src/database/connect.rs:172-177 | under the first deadlines no waking ever soft-stops; under renewed ones some waking does |
| `KeyManager.TakeoverMeansHardStop` | plane/src/drone/key_manager.rs:26-112 | in every run of the lease protocol, once a key has passed on after an expiry, the earlier drone's loop decides for a hard stop if it still holds the key |
| `KeyManager.EventKeepsSafe` | plane/src/drone/key_manager.rs:141-169 | each waking, request and answer of a timely drone keeps the next soft deadline ahead |
| `KeyManager.TimelyAnswersKeepTheKey` | plane/src/drone/key_manager.rs:26-112 | if lateness of wakings and delay of answers together stay below 10 s and the loop has a connection whenever it wakes, no run ever stops the backend for its key |
| `KeyManager.RunLoopAsksIff` | plane/src/drone/key_manager.rs:83-92 | a loop that runs asks exactly if it is connected and between its renew and soft deadlines, and stops its backend exactly from the soft one on |
| `KeyManager.RestartRunsAtOnce` | plane/src/drone/key_manager.rs:123-137 | a loop that is restarted with a new connection runs at once and asks exactly if it has one and is between its renew and soft deadlines |
| `KeyManager.AnswerRenews` | plane/src/drone/key_manager.rs:158-169 | an answer gives deadlines 30, 40 and 50 s after its question, once, and the loop runs again at once |
| `KeyManager.UnconnectedNeverAsks` | plane/src/drone/key_manager.rs:83-92 | a loop without a connection never asks, and stops its backend from the soft deadline on |
| `KeyManager.RegisteredInTime` | plane/src/drone/key_manager.rs:141-156 | a key registered before its first soft deadline, with that much to spare, starts safe |
| `KeyManager.DawdlingLosesTheKey` | plane/src/drone/key_manager.rs:26-112 | from 10 s on that is no longer so: a run within those bounds stops the backend |
| `KeyManager.Manager.SetSender` | plane/src/drone/key_manager.rs:123-139 | every key is kept and every loop is restarted on the new connection |
| `KeyManager.Manager.RegisterKey` | plane/src/drone/key_manager.rs:141-156 | a new backend gets a loop for its key; a known one is refused and nothing changes |
| `KeyManager.Manager.UpdateDeadlines` | plane/src/drone/key_manager.rs:158-169 | only the named backend's loop is replaced, by one under the new deadlines; an unknown backend is ignored |
| `KeyManager.Manager.UnregisterKey` | plane/src/drone/key_manager.rs:171-173 | exactly the named backend's loop goes |
| `Connect.HolderIsUnique` | plane/src/database/backend_key.rs:89-140 | the lease found for a key is the only one |
| `Connect.ExpiryInstantIff` | plane/src/database/backend_key.rs:51-64 | get-or-create fails to remove a lease exactly at the instant of its expiry |
| `Connect.ExpiryInstantIsReachable` | plane/src/database/backend_key.rs:157-159 | that instant comes for every key |
| `Connect.StaleCheckRemovesOnlyExpired` | plane/src/database/backend_key.rs:51-64 | a removal based on a stale check removes at most the lease it saw, and only if that one has expired by now |
| `Connect.LiveHolderIsFound` | plane/src/database/connect.rs:252-302 | with a live holder, atomic get-or-create answers with it, or refuses for its tag |
| `Connect.FreeKeyIsCreated` | plane/src/database/connect.rs:304-346 | with the key free, atomic get-or-create creates the backend |
| `Connect.CreatedIsFound` | plane/src/database/connect.rs:252-302 | right after a create, its key with its tag is answered with the new backend, and with another tag refused with the stored one |
| `Connect.ExpiredHolderIsReplaced` | plane/src/database/connect.rs:252-302 | a lease that has expired goes and a new backend takes its key |
| `Connect.SpawnedIsAsked` | plane/src/database/connect.rs:306-346 | a spawned backend has the limits and the kind of token asked for, runs on a drone that was suitable when picked, has its action, and is what the next request for its key finds |
| `Connect.RequestedNames` | plane/src/database/connect.rs:252-346 | the key, tag and id that are asked for are the ones used |
| `Connect.SuitableIff` | plane/src/database/drone.rs:196-206 | a drone is considered exactly for less than 45 s after a heartbeat |
| `Connect.CreateAddsLoad` | plane/src/database/drone.rs:185-191 | a create adds one to the load of its drone and of no other |
| `Connect.ReportTakesLoad` | plane/src/database/drone.rs:185-191 | a report takes one off the load of its drone exactly if its backend terminates with it |
| `Connect.PickDroneForSpawn` | plane/src/database/drone.rs:174-230 | no drone exactly if none of the right kind has a known clock and a recent heartbeat; otherwise one of the sample with the fewest backends that are not terminated, and its last local time |
| `Connect.AttemptConnect` | plane/src/database/connect.rs:241-369 | whatever is committed before and in between, the outcome is the one atomic get-or-create has at some instant of the attempt; every failure, database errors included, is due to what the tables had in the way at that instant, after the check had found no live lease where the attempt went on to create; an attempt that nobody interferes with up to its removal fails to remove the key exactly at the instant of its expiry |
| `Connect.CreateHolder` | plane/src/database/connect.rs:306-346 | an answer that it spawned names the backend that was asked for and that took a free key at its insert; without one, no drone was suitable, the id or key was taken, the drone or the token stood in the way of the database, or the action could not be stored |
| `Connect.Connect` | plane/src/database/connect.rs:371-391 | connect makes one to three attempts, with other transactions between them too; every one but the last failed to remove or to acquire the key, and it gives up on those two only after the third; its outcome is explained by what its last attempt met, and the token that is returned leads to the backend that is returned |
| `StateStore.StateStore.RegisterEvent` | plane/src/drone/state_store.rs:53-110 | the event and the backend's state are stored under a new id, and the listener, if there is one, is told once |
| `StateStore.StateStore.UnackedEvents` | plane/src/drone/state_store.rs:137-176 | every stored event is returned once, oldest first |
| `StateStore.StateStore.RegisterListener` | plane/src/drone/state_store.rs:178-191 | a new listener is first sent every stored event, oldest first |
| `StateStore.StateStore.AckEvent` | plane/src/drone/state_store.rs:193-203 | exactly the acknowledged event goes |
| `StateStore.StateStore.ActiveBackends` | plane/src/drone/state_store.rs:206-228 | exactly the backends whose last state is not terminated, with that state |
| `StateStore.ReplaySendsUnacked` | plane/src/drone/state_store.rs:137-191 | the messages of a replay are exactly the unacknowledged events |
| `StateStore.NumbersNeverDrop` | plane/src/database/backend.rs:150-218 | no transaction lowers the status number of a backend that keeps its row |
| `StateStore.RunKeepsInv` | plane/src/controller/drone.rs:57-69 | every step of the replay protocol keeps its invariant |
| `StateStore.NoStatusLost` | plane/src/controller/drone.rs:57-69 | across reconnects, restarts, repeated messages and late acknowledgements, an event is gone from the store only once the controller's row, if there is one, has reached its status |
| `StateStore.EmptyStoreMeansCaughtUp` | plane/src/drone/state_store.rs:53-203 | an empty store means that the controller has reached every status the drone ever registered for a backend |
| `StateStore.RegisteredIsSent` | plane/src/drone/state_store.rs:53-110 | an event is kept as registered, and sent at once if there is a listener, and otherwise to the next one |
| `StateStore.StoredIsSentAgain` | plane/src/drone/state_store.rs:137-191 | as long as it is stored, an event is sent again to a new listener after a restart |
| `StateStore.SentGetsThrough` | plane/src/controller/drone.rs:57-69 | a message that is handled and acknowledged has its state applied, and exactly its event leaves the store |
| `EventBus.HappeningsAreARun` | plane/src/database/subscribe.rs:179-257 | whatever the manager's loops and their surroundings meet, in any order, is a run of the bus |
| `EventBus.RowGoesOut` | plane/src/database/subscribe.rs:230-254 | a row that becomes visible while the manager follows, beyond all it has seen, is delivered next, and once |
| `EventBus.PageTakesFurther` | plane/src/database/subscribe.rs:195-226 | a page that is read takes the last id further, or finds that nothing is left and lets the manager follow; a failed read drops the connection |
| `EventBus.LostLinkIsReplaced` | plane/src/database/subscribe.rs:230-257 | whatever a lost connection still holds is read, then it is given up, and the next one starts at the end of the table |
| `EventBus.SubscriptionManager.CatchUp` | plane/src/database/subscribe.rs:195-226 | the loop over pages takes the bus where its happenings lead; it has caught up exactly if a read found nothing, and then the table has nothing beyond the last message; it loses the connection only to a failed read |
| `EventBus.SubscriptionManager.Drain` | plane/src/database/subscribe.rs:230-254 | the live loop takes the bus where its happenings lead: each notification is received once, in order, until a lost connection has nothing left |
| `EventBus.SubscriptionManager.Run` | plane/src/database/subscribe.rs:179-257 | whatever connections the manager goes through, it ends where its happenings lead the bus, so the lemmas about every run hold of it; delivered ids strictly increase |
| `EventBus.PageAscends` | plane/src/database/subscribe.rs:282-309 | a page is strictly ascending, beyond the given id, and from the table |
| `EventBus.PageInOrder` | plane/src/database/subscribe.rs:282-309 | of an ordered table a page is the next rows, none left out |
| `EventBus.DeliveredIdsIncrease` | plane/src/database/subscribe.rs:179-257 | for every pattern of connections, failures and commits the delivered ids strictly increase |
| `EventBus.NothingIsMissed` | plane/src/database/subscribe.rs:179-257 | if commits become visible in id order, the delivered ids are an unbroken slice of the table in every run, and all of it from the first delivered id on once a live connection has nothing left to read |
| `EventBus.MissedIff` | plane/src/database/subscribe.rs:244-251 | over every run, in whatever order rows become visible: a row is missed exactly if it becomes visible at or below the last id, or a notification beyond it is taken up while it is visible and undelivered |
| `EventBus.MissesNothingIff` | plane/src/database/subscribe.rs:179-257 | over every run: every new row and every row beyond the starting id is delivered, up to the last id, exactly if no step goes past a row in one of these two ways |
| `EventBus.OvertakenForGood` | plane/src/database/subscribe.rs:179-257 | a row once gone past is never delivered, however the run goes on, reconnects included |
| `EventBus.PageCovers` | plane/src/database/subscribe.rs:282-309 | a page has every visible row between the given id and its last one, in whatever order they became visible |
| `EventBus.InOrderOvertakesNone` | plane/src/database/subscribe.rs:179-257 | rows visible in id order are never gone past |
| `EventBus.NewManagerMissesNothingIff` | plane/src/database/subscribe.rs:143-257 | the same exact condition for everything a new manager does from its first delivery on |
| `EventBus.LateRowIsMissed` | plane/src/database/subscribe.rs:244-251 | row 2, then row 1 while the manager follows: row 1 is missed |
| `EventBus.NoRowPassesByIff` | plane/src/database/subscribe.rs:195-195 | from every state reached with rows visible in id order, and as long as they do: no later row can pass by exactly if something was delivered, or a lost connection still has rows to hand over |
| `EventBus.NewManagerMissesNothing` | plane/src/database/subscribe.rs:143-257 | for everything a new manager does with rows visible in id order: what it delivers is an unbroken, ascending slice of the table, up to its end once nothing is left to read |
| `StatusStream.Stream` | plane/src/database/backend.rs:47-107 | the history, followed by those live updates that go beyond everything sent so far |
| `StatusStream.ResumeAfter` | plane/src/controller/backend_state.rs:54-79 | exactly the entries beyond the client's last event |
| `StatusStream.StreamIsHistory` | plane/src/database/backend.rs:47-107 | a stream that subscribed no later than it read has each status of the history once, and none is missed |
| `StatusStream.RunExtendsHistory` | plane/src/database/backend.rs:150-218 | over every run a backend's history only grows at its end |
| `StatusStream.StreamIsExact` | plane/src/database/backend.rs:47-107 | whatever is committed before, between and after subscription and read, the stream is exactly the backend's history |
| `StatusStream.ResumedStreamIsComplete` | plane/src/controller/backend_state.rs:54-79 | wherever a stream broke off, what was received and what a resumed stream sends make up the whole history |
| `StatusStream.GaplessForEveryBackend` | plane/src/database/subscribe.rs:315-350 | a gapless part of the event log carries a gapless part of every backend's updates to its subscribers |
| `Delivery.StepEmitsHistory` | plane/src/database/backend.rs:645-680 | what a transaction adds to a backend's history is exactly what it puts in the event table under that backend's key |
| `Delivery.LogIsHistory` | plane/src/database/backend.rs:150-218 | over every run the events keyed by a backend are its history |
| `Delivery.TableCarriesHistory` | plane/src/database/subscribe.rs:352-400 | the event table, with other kinds of events anywhere between, carries every backend's history in order |
| `Delivery.StreamOfTable` | plane/src/database/backend.rs:47-107 | a stream that has received a part of the event table from its subscription on is the history up to the last row received |
| `Delivery.StatusesReachTheClient` | plane/src/database/backend.rs:47-107 | transactions, event table, manager and stream together: with rows visible in id order, and a client that subscribes in a state from which no row can pass by, the client's stream is the history up to the last row the manager has delivered, and all of it once nothing is left |
| `Delivery.FirstRowsCanPassBy` | plane/src/database/backend.rs:47-107 | from every other state, for every backend and every two further statuses of it: a run in which the client's stream has the second and never the first |
| `Resumption.FirstOfChunk` | common/src/sse.rs:43-79 | of a chunk that carries events the reader gets the first |
| `Resumption.ClientReceives` | common/src/sse.rs:30-80 | of entries sent in chunks the client gets the first of each chunk |
| `Resumption.ResumedClientIff` | plane/src/controller/backend_state.rs:54-79 | what a client got before and after a reconnect is the whole history exactly if every chunk but the last carried a single entry |
| `Lifecycle.TargetFollows` | common/src/types/backend_state.rs:308-372 | what a terminate call or an exit computes from a state may follow that state |
| `Lifecycle.CompletionFollows` | plane/src/drone/backend_manager.rs:148-222 | so may what a finished step sets |
| `Lifecycle.CompletionMeans` | plane/src/drone/backend_manager.rs:148-222 | from what and with which result each state is reached: waiting and ready at the address the start gave, hard termination for a start-up timeout or an internal error, an end with nothing new to tell |
| `Lifecycle.TransitionsAccount` | common/src/types/backend_state.rs:308-372 | each transition's status is the greater of both, termination notes the status it found, its kind and reason, and the end keeps all that and the exit code |
| `Lifecycle.EntryIsAccount` | common/src/types/backend_state.rs:421-453 | a stream entry's kind and reason are what the state accounts for |
| `Lifecycle.StartsUp` | plane/src/drone/backend_manager.rs:148-222 | a backend whose steps succeed gets ready at the address its start gave, through every status in turn |
| `Lifecycle.TerminatesThrough` | plane/src/drone/backend_manager.rs:148-292 | a terminate call on any running backend starts its termination, whose end is recorded with that kind, reason and last status |
| `Lifecycle.UnreportedStartsNothing` | plane/src/drone/backend_manager.rs:239-242 | a state whose report fails is set and starts nothing |
| `Lifecycle.SumsIff` | common/src/types/backend_state.rs:308-372 | setting a state over another keeps the status from going back and the account of the past true exactly if it fits: a later running state, a termination that begins now or is in force, or an end that tells what is known now |
| `Lifecycle.SetIsSoundIff` | plane/src/drone/backend_manager.rs:224-260 | the same for the set of a call that read the state earlier |
| `Lifecycle.EnterKeepsInv` | plane/src/drone/backend_manager.rs:224-260 | entering a state replaces the pending step by that state's own |
| `Lifecycle.RunKeepsInv` | plane/src/drone/backend_manager.rs:148-292 | over every run, however reads and sets of completions, terminate calls and exits overlap and whichever reports fail: at most one step is pending and it is the current state's, and every call sets what follows the state it read |
| `Lifecycle.SoundThroughoutIff` | plane/src/drone/backend_manager.rs:262-292 | over every such run: at every point the status has never decreased and the state tells its past, exactly if every set fits the state it replaces |
| `Lifecycle.TerminationIsExplained` | plane/src/drone/backend_manager.rs:148-292 | over every run in which no call sets over a state it has not read, so in particular with each call as one step: the status never decreases, the last status is that before termination began, and the final kind is hard exactly if hard termination was entered and absent exactly if neither was |
| `Lifecycle.StaleTerminateIff` | plane/src/drone/backend_manager.rs:262-275 | a terminate computed from an earlier running state fits exactly if the status is still that one or the call's own; for a hard one soft termination may have begun |
| `Lifecycle.StaleExitIff` | plane/src/drone/backend_manager.rs:277-291 | an exit computed from an earlier state fits exactly if last status, kind and reason are still the same |
| `Lifecycle.StaleFinishIff` | plane/src/drone/backend_manager.rs:246-258 | a finished step computed for an earlier state fits exactly if the backend still runs and is not ahead of it; one that ends the backend, exactly if what is known of its past is still the same |
| `Lifecycle.OvertakenFinishLowersStatus` | plane/src/drone/backend_manager.rs:246-258 | from every state with a start-up step running, a step that succeeds but is overtaken by a terminate call takes the status back to a running one |
| `Lifecycle.AtOnceMeansNonePassed` | plane/src/drone/backend_manager.rs:262-292 | runs in which each set directly follows its read set over no state that was not read |
| `Lifecycle.OvertakenTerminateLowersStatus` | plane/src/drone/backend_manager.rs:262-275 | from every state of a running backend, a terminate call overtaken by an exit takes the status back from terminated |
| `Lifecycle.OvertakenExitForgetsTermination` | plane/src/drone/backend_manager.rs:277-291 | from every such state, an exit overtaken by a terminate call records an end with no kind although termination had begun |
| `Lifecycle.BackendManager.constructor` | plane/src/drone/backend_manager.rs:120-146 | a manager starts as the machine does, its first step already under way |
| `Lifecycle.BackendManager.SetState` | plane/src/drone/backend_manager.rs:224-260 | the state is reported and entered, the pending step cancelled and the new one begun |
| `Lifecycle.BackendManager.TaskDone` | plane/src/drone/backend_manager.rs:246-258 | a finished step, what other threads do meanwhile, and the set of its result are a run of the machine |
| `Lifecycle.BackendManager.TerminateWith` | plane/src/drone/backend_manager.rs:262-275 | the read of a terminate call, what other threads do meanwhile, and its set are a run of the machine, in every state |
| `Lifecycle.BackendManager.MarkTerminated` | plane/src/drone/backend_manager.rs:277-291 | the read of an exit, what other threads do meanwhile, and its set are a run of the machine, in every state |
| `Lifecycle.RestartKindIff` | plane/src/drone/executor.rs:73-147 | after a restart the terminated state recorded is that of the hard termination recorded before it exactly if the backend was already hard terminating |
| `Lifecycle.RestartForgetsHardStop` | plane/src/drone/executor.rs:73-147 | a ready backend is recorded as hard terminating and then as terminated with no kind and no reason |
| `Lifecycle.RecordNext` | plane/src/drone/executor.rs:89-144 | the next record of any backend that is not done keeps every other record and brings the restart one step closer to its end |
| `Lifecycle.TerminatePreexisting` | plane/src/drone/executor.rs:73-147 | whatever the order in which the concurrent terminations get their turns: every backend ends up terminated in the store, each that was not has its two events stored in their order, and no stored event is lost |
| `ConnectionMonitor.ConnectionMonitor.RemoveBackend` | plane/src/proxy/connection_monitor.rs:36-38 | the entry goes; its visits stay queued |
| `ConnectionMonitor.ConnectionMonitor.TouchBackend` | plane/src/proxy/connection_monitor.rs:40-57 | a known backend is marked; a new one is reported, tracked and queued |
| `ConnectionMonitor.ConnectionMonitor.IncConnection` | plane/src/proxy/connection_monitor.rs:59-79 | the count rises; a new backend is reported, tracked and queued |
| `ConnectionMonitor.ConnectionMonitor.DecConnection` | plane/src/proxy/connection_monitor.rs:81-93 | the count of a known backend falls by one, modulo 2^32, and nothing else changes; an unknown one is ignored |
| `ConnectionMonitor.ConnectionMonitor.PopVisit` | plane/src/proxy/connection_monitor.rs:109-118 | the oldest visit leaves the queue |
| `ConnectionMonitor.ConnectionMonitor.CarryOut` | plane/src/proxy/connection_monitor.rs:130-149 | a backend in use is reported and queued again; another is forgotten |
| `ConnectionMonitor.CountIsRightIff` | plane/src/proxy/connection_monitor.rs:36-93 | over every run, removals included: a counter is what was opened less what was closed since its entry was made, modulo 2^32; it is the number of open connections exactly if none was open then, and zero exactly if as many are open as were then; it can only be off for a removed backend |
| `ConnectionMonitor.WrapIff` | plane/src/proxy/connection_monitor.rs:81-93 | closing a connection raises the counter exactly if as many connections are open as were when its entry was made |
| `ConnectionMonitor.OpenIsVisited` | plane/src/proxy/connection_monitor.rs:130-149 | a visit of a backend with an open connection reports it and plans the next 7 s later |
| `ConnectionMonitor.TouchLastsOneVisit` | plane/src/proxy/connection_monitor.rs:130-149 | a touch, or a connection closed again, is reported at one more visit and forgotten at the one after it |
| `ConnectionMonitor.OthersAreLeftAlone` | plane/src/proxy/connection_monitor.rs:36-93 | what is done to one backend leaves the entries of all others alone |
| `ConnectionMonitor.ClientsAreFree` | plane/src/proxy/connection_monitor.rs:36-93 | connections can open, up to the 32-bit bound, and close again, and backends be touched or removed, at any time |
| `ConnectionMonitor.RemovalCanWrapACount` | plane/src/proxy/connection_monitor.rs:36-38 | from every sound state: a removal under an open connection, a touch and the close wrap the counter |
| `ConnectionMonitor.RemovalCanHideAConnection` | plane/src/proxy/connection_monitor.rs:36-38 | from every sound state: a removal under an open connection, another opening and a close leave a counter of zero with a connection open, which two visits forget |
| `ConnectionMonitor.StepKeepsQueue` | plane/src/proxy/connection_monitor.rs:103-151 | the visit queue stays sorted by due time and its head is never overdue beyond the lateness |
| `ConnectionMonitor.StepKeepsCounts` | plane/src/proxy/connection_monitor.rs:59-93 | every step keeps the counters exact modulo 2^32, and entries of backends never removed are made before their first connection and kept while one is open |
| `ConnectionMonitor.StepKeepsPlanned` | plane/src/proxy/connection_monitor.rs:103-151 | every tracked backend is queued or in the visitor's hand, within one interval of its last report |
| `ConnectionMonitor.RunKeepsInv` | plane/src/proxy/connection_monitor.rs:36-151 | all this holds over every run |
| `ConnectionMonitor.OpenConnectionsAreKeptAlive` | plane/src/controller/proxy.rs:170-173 | in every run a backend with an open connection is tracked and counted, and its keepalive is not older than 7 s and the assumed lateness and delay, or the first keepalive since it is tracked left no longer than that delay ago |
| `ConnectionMonitor.OpenConnectionsAreNotSwept` | plane/src/database/backend.rs:481-522 | if its idle limit is at least that, the sweep takes it exactly when its lifetime is over, or when its row is idle and its first keepalive is still on its way, which takes a row within the delay of its limit before it was tracked; other proxies may keep it alive too |
| `Keepalives.ArrivalIsNoted` | plane/src/controller/proxy.rs:170-173 | a keepalive that arrives is noted in its row, if the backend has not terminated |
| `Keepalives.TransactionKeeps` | plane/src/database/backend.rs:150-218 | no transaction sets a last keepalive back, and none revives a terminated backend |
| `Keepalives.SweptIff` | plane/src/database/backend.rs:481-522 | proxy and tables together, over every run with any other transactions: a backend with an open connection and an idle limit of at least 7 s and the assumed lateness and delay is swept exactly when its lifetime is over, or its row is idle and its first keepalive still on its way |
| `ConnectionMonitor.CanWait` | plane/src/proxy/connection_monitor.rs:103-151 | from every sound state, whatever else the proxy tracks, time can pass with no keepalive of a backend arriving until its first one must |
| `ConnectionMonitor.OpeningTooLateIff` | plane/src/database/backend.rs:481-522 | from every sound state of a proxy that does not track the backend: a connection that is opened and stays open can find it idle beyond its limit exactly if it had been idle for more than the limit less the delay |
| `ConnectionMonitor.BehindIsTight` | plane/src/proxy/connection_monitor.rs:103-151 | a backend in use can be idle for exactly 7 s and the assumed lateness and delay |
| `ConnectionMonitor.IdleLimitIff` | plane/src/database/backend.rs:481-522 | from a new proxy, for every idle limit: such a connection can find its backend idle exactly if the limit is below that, or the backend had been idle for more than the limit less the delay |
| `ConnectionMonitor.FreshConnectionCanBeSwept` | plane/src/database/backend.rs:481-522 | a connection to a backend idle for 100 s under a limit of 60 s: it is a candidate of the sweep while its connection is open |
| `RouteMap.RouteMap.BeginLookup` | plane/src/proxy/route_map.rs:52-85 | a cached answer is returned, an unconnected proxy answers nothing, and otherwise the lookup waits on the token's one channel and a request is sent |
| `RouteMap.RouteMap.FinishLookup` | plane/src/proxy/route_map.rs:86-96 | a woken lookup returns what is cached by then |
| `RouteMap.RouteMap.Receive` | plane/src/proxy/route_map.rs:98-118 | the answer is cached, evicting the least recently used, and the token's channel is signalled |
| `RouteMap.RouteMap.RemoveRoutesTo` | plane/src/proxy/route_map.rs:120-142 | every cached route to the backend becomes no route, whatever its position, and no other changes |
| `RouteMap.PushAgrees` | plane/src/proxy/route_map.rs:98-114 | an insertion keeps the cache a part of the unbounded map, whatever it evicts |
| `RouteMap.PushFinds` | plane/src/proxy/route_map.rs:98-114 | whatever was cached, a response is what its token is answered with next |
| `RouteMap.PushLeavesOthers` | plane/src/proxy/route_map.rs:98-114 | other tokens are answered as before, except the least recently used one of a full cache |
| `RouteMap.InvalidateAgrees` | plane/src/proxy/route_map.rs:120-142 | so does the removal of a backend |
| `RouteMap.GoneIsForgotten` | plane/src/proxy/route_map.rs:120-142 | a removal may come at any time; after it every token that led to the backend is answered with no route, and every other as before |
| `RouteMap.RunKeepsInv` | plane/src/proxy/route_map.rs:52-142 | the invariant holds over every interleaving of lookups, removals and answers, which are stored and signalled under two locks |
| `RouteMap.ResponseWakesEveryWaiter` | plane/src/proxy/route_map.rs:98-114 | in every reachable state, once a stored answer is signalled, every lookup that waits for its token can go on |
| `RouteMap.ChannelsAreNotDropped` | plane/src/proxy/route_map.rs:61-85 | the channel of a waiting lookup is kept until it is signalled |
| `RouteMap.WokenOnlyByItsResponse` | plane/src/proxy/route_map.rs:60-114 | over every run, a lookup that has joined a channel is not woken before an answer for its own token is signalled after that |
| `RouteMap.LookupWaits` | plane/src/proxy/route_map.rs:52-85 | from every state a lookup that misses can join, ask and wait, and returns nothing exactly if the proxy has no connection |
| `RouteMap.ConnectedLookupWaits` | plane/src/proxy/route_map.rs:42-85 | from every state it waits once the proxy has been connected |
| `RouteMap.WaiterIsAnswered` | plane/src/proxy/route_map.rs:86-118 | from every reachable state a lookup that waits returns the answer that is stored and signalled for its token |
| `RouteMap.ReturnsOnce` | plane/src/proxy/route_map.rs:52-96 | over every run a lookup returns at most once |
| `RouteMap.RoutesAreCurrent` | plane/src/proxy/route_map.rs:52-96 | a route returned is that of an unbounded map driven by the same answers and removals |
| `RouteMap.NoRouteIff` | plane/src/proxy/route_map.rs:86-96 | a woken lookup returns the unbounded map's answer exactly if the token has not been evicted again, and nothing otherwise |
| `RouteMap.AnswerIsReturned` | plane/src/proxy/route_map.rs:52-96 | from every state and over every run after an answer was stored: a lookup of its token returns it, if fewer other tokens than the cache holds were used since, the token was not answered anew and the backend not removed |
| `RouteRequests.HandleRequest` | plane/src/controller/proxy.rs:28-157 | the reply is the route, or its absence, of the first query that is not pending, or of the first update from ready on; without a reply no update had got that far |
| `RouteRequests.RouteByState` | plane/src/database/backend.rs:380-452 | by the stored state, a backend is pending exactly below ready, available exactly at ready with that address, and not found exactly from terminating on |
| `RouteRequests.QueryAnswersIff` | plane/src/database/backend.rs:311-452 | the only answer of a query for a token that leads to one backend |
| `RouteRequests.StoredTokenLeads` | plane/src/database/backend.rs:380-410 | a token that was made for a backend leads to it and to no other |
| `RouteRequests.StaticTokenLeads` | plane/src/database/backend.rs:311-378 | a static token leads to exactly the backends created with it |
| `RouteRequests.QuerySettles` | plane/src/controller/proxy.rs:33-80 | what a query finds is the answer at once, unless the backend is pending, and then there is none yet |
| `RouteRequests.NoRouteNeedsReason` | plane/src/controller/proxy.rs:28-157 | over every run a request is told that there is no route only if its token leads nowhere or to a backend whose termination has begun |
| `RouteRequests.PendingIsAwaited` | plane/src/controller/proxy.rs:33-80 | from all consistent tables, a request for a backend below ready comes to wait for its next update |
| `RouteRequests.ReadyReportIsRouted` | plane/src/controller/proxy.rs:83-121 | such a request is answered with the address that the next report gives |
| `RouteRequests.WaiterGetsThrough` | plane/src/controller/proxy.rs:83-140 | the updates that are there to be read take a waiting request to the answer of the first from ready on |
| `RouteRequests.OverStaysOver` | plane/src/controller/proxy.rs:83-157 | a request that is answered or given up is never answered again |
| `RouteRequests.PendingMeansNotReady` | plane/src/database/backend.rs:380-452 | a pending answer means that no status from ready on has been recorded |
| `RouteRequests.RunKeepsInv` | plane/src/controller/proxy.rs:28-157 | the invariant holds over every interleaving of commits with query, subscription, second query and updates, some of which may be older than the subscription |
| `RouteRequests.AtMostOneAnswer` | plane/src/controller/proxy.rs:28-157 | a request is never answered twice |
| `RouteRequests.NoMissedReady` | plane/src/controller/proxy.rs:28-157 | a request still waiting with every update read waits for a backend that is not ready yet |
| `RouteRequests.FirstReadyAnswers` | plane/src/controller/proxy.rs:28-157 | the first update from ready on ends the wait, with a route exactly if it is ready |
| `RouteRequests.RouteNeedsReady` | plane/src/controller/proxy.rs:28-157 | a route is only sent for a backend whose history has that address ready |
| `RouteRequests.AvailableMeansReady` | plane/src/database/backend.rs:311-452 | a query finds a route only for a backend whose history has that address ready |
| `Nodes.RegisterKeepsIndexed` | plane/src/database/node.rs:58-114 | a registration keeps the index unique, and the row it conflicts with is the only such row |
| `Nodes.NodeDatabase.RegisterNode` | plane/src/database/node.rs:58-114 | the row of that cluster and name is updated, or a new one inserted, and a connection announced |
| `Nodes.NodeDatabase.MarkNodeOffline` | plane/src/database/node.rs:116-151 | the controller is cleared exactly if it and the start time match; a disconnection is announced either way |
| `Nodes.RunKeepsInv` | plane/src/database/node.rs:58-151 | over every interleaving, a node has no controller exactly if since its latest registration a connection with that controller and start time has ended |
| `Nodes.LatestConnectionDecides` | plane/src/controller/core.rs:28-73 | if registrations can be told apart, a node has no controller exactly if its latest connection has ended, and otherwise the controller of that connection |
| `Nodes.StaleCloseIff` | plane/src/database/node.rs:116-151 | the end of an older connection takes a connected node offline exactly if the latest has the same controller and start time |
| `Nodes.RunKeepsTimeOrder` | plane/src/database/node.rs:58-114 | over every run, a later registration never has an earlier start time |
| `Nodes.TiedStartTimesConfuse` | plane/src/database/node.rs:116-151 | from every reachable state two registrations in one instant and the end of the first leave the node offline |
| `Sse.RawSseStream.Take` | common/src/sse.rs:48-74 | a complete line changes data and id, or completes an event, as the line function says, and leaves the unread chunks alone |
| `Sse.RawSseStream.Next` | common/src/sse.rs:30-80 | the nested loops find the next event, and leave buffer, data, id and unread chunks, as the reading function says |
| `Sse.NextYieldsEvents` | common/src/sse.rs:30-80 | calls one after the other yield all events of the response in order |
| `Sse.ReadingConcat` | common/src/sse.rs:43-75 | line-by-line reading of two byte strings in turn is reading their concatenation |
| `Sse.EventRoundTrip` | common/src/sse.rs:48-74 | every event with any data, of several lines too, and an id of one line of UTF-8 is read back as it was sent |
| `Sse.SentIsReceived` | common/src/sse.rs:30-80 | events that are sent are received in order, in whatever chunks that drop nothing |
| `Sse.PrefixesSpell` | common/src/sse.rs:51-61 | the prefixes are the bytes of "data:" and "id:" |
| `Sse.ChunkReads` | common/src/sse.rs:43-79 | a chunk is read as its bytes are, up to the first event it completes |
| `Sse.ChunkingDoesNotMatter` | common/src/sse.rs:30-80 | for every byte stream and every split that leaves only idle lines after the event a chunk completes, the events are those of a line-by-line reading of the whole |
| `Sse.DroppedBytesMatterIff` | common/src/sse.rs:71-74 | dropping the rest of a chunk loses nothing, whatever follows, exactly if the rest is made of complete lines that carry neither data nor a valid id |
| `Sse.SecondEventCanBeLost` | common/src/sse.rs:71-74 | two events in one chunk are read as one, in two chunks as two |
| `ConnectUrl.HostIff` | plane/src/proxy/request.rs:14-37 | a host header is accepted for a subdomain exactly if it is the printed host with one port suffix, or the printed host where that does not end in one |
| `ConnectUrl.HostRoundTrip` | plane/src/proxy/request.rs:14-37 | the printed host gives back its subdomain exactly if the cluster does not end in ":443", and is rejected otherwise; with ":443" added it always does |
| `ConnectUrl.ExplicitHttpsPortIff` | common/src/types/mod.rs:39-42 | for a cluster with an optional port, the scheme is https exactly without a port or with 443, and the name ends in ":443" exactly with port 443 |
| `ConnectUrl.UriParts.GetAndMaybeRemoveBearerToken` | plane/src/proxy/request.rs:41-75 | there is no token exactly if the path does not lead with one; a static token changes nothing, another leaves exactly the path behind it and the query |
| `ConnectUrl.LeadsOnce` | plane/src/proxy/request.rs:41-75 | a path leads with at most one token and one rest |
| `ConnectUrl.UrlParts` | common/src/types/mod.rs:418-423 | a request below a printed URL has its host, and the token in front of its path |
| `ConnectUrl.UrlSchemeIff` | common/src/types/mod.rs:418-423 | a printed URL is one of https exactly for a cluster without a port or with port 443, and one of http otherwise |
| `ConnectUrl.UrlRoundTrip` | common/src/types/mod.rs:418-423 | such a request is read back as exactly that token, path and query, and as that subdomain exactly if the cluster does not end in ":443" |

## Left out

- Containers and their runtimes: preparing, spawning, stopping and exiting are results a step may have. Safety of a lease is about deadlines and recorded states; a spawn that arrives past its deadline is still applied by the code.
- Sockets, HTTP and the proxy's forwarding: channels that lose, delay and repeat messages.
- Certificates, DNS and TLS.
- SQL text, JSON and rows that cannot be decoded: tables are maps, and every transaction is one atomic step.
- Exponential backoff, quotas, metrics, logging, command line and administration.
- Token secrecy, header stripping and authorization: tokens are opaque strings.
- Lag of broadcast channels and notifications without an id: subscribers keep up with persisted events.
- Deletion of old events: the event table only grows.
- Connect.PickDroneForSpawn: readiness, cluster, pool, draining and controller health of the query are not modelled; the drones that match them, in the query's random order, are a parameter.
- A connection monitor without a listener: every report is handed on.
- The executor's table of managers and the order in which actions reach it: one manager at a time.
- URL, headers and the encoding of a client's request to resume a stream: which entries it gets before and after is modelled.
- Carriage returns and the optional space after a colon, which section 9.2.6 of the WHATWG HTML Living Standard allows: the reader does not treat them specially, nor does the model. Whether bytes are UTF-8 is a parameter.
- Lengths, escapes and fragments of URIs: a path and a query are strings, split at the first question mark.
- StatusStream.StreamIsExact: the clean-up of long-terminated backends spares the backend whose stream is read.
- RouteRequests.NoMissedReady: a row that has been cleaned up is not waited for any more.
- RouteRequests.RunKeepsInv: a token leads to the same backend in both queries of a request; tokens are random and not given to another backend.
- ConnectionMonitor.OpenConnectionsAreKeptAlive: bounds how late the visitor wakes and how long a report travels by parameters.
- Delivery.StatusesReachTheClient: assumes rows visible in id order, and a subscription in a state from which no row can pass by; the exact condition for that is in EventBus.NoRowPassesByIff.
- Lifecycle.TerminationIsExplained: assumes that no call sets over a state it has not read; without that the exact condition is in Lifecycle.SoundThroughoutIff.
- Nodes.LatestConnectionDecides: assumes that no two registrations of a node share controller and start time; the exact condition is in Nodes.StaleCloseIff.
- EventBus.NothingIsMissed: assumes that rows become visible in id order, which Postgres sequences do not promise; the exact condition without that is in EventBus.MissesNothingIff.
- EventBus.NewManagerMissesNothing: assumes the same order; the exact condition is in EventBus.NewManagerMissesNothingIff.
- ConnectionMonitor.OpenConnectionsAreNotSwept: speaks of idle limits of at least 7 s and the assumed lateness and delay; ConnectionMonitor.IdleLimitIff covers shorter ones.
- KeyManager.TimelyAnswersKeepTheKey: assumes that a restarted loop has a connection; KeyManager.UnconnectedNeverAsks covers one that has none.
- Keepalives.SweptIff: bounds how late the visitor wakes and how long a report travels by parameters, as ConnectionMonitor.OpenConnectionsAreKeptAlive does.

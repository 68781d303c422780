# Live migration behind a TCP forwarder: a verified model

The server migrates a running container from one host to another while its clients stay connected
to a TCP forwarding service. This project models that protocol in layers and proves what each layer
and the whole promise.

| layer | modules | models |
|---|---|---|
| forwarder | `Forwarder`, `Cascade`, `Driven`, `Emergency`, `Pump`, `Gate` | one connection: `Accept`, its two pump goroutines, the half-closes, the emergency channel, the rate limiter |
| forwarding service | `Service`, `Handshake`, `Traffic`, `Answer`, `Waiters`, `Returns`, `ServiceObject` | the listener, any number of controllers that suspend and resume it, the list of forwarders, every forwarder ever created; when its calls return |
| one session | `Restore`, `Exec`, `Dump`, `Serve`, `Images`, `Session` | the restore side, the dump side, the byte stream between them, the image directories on both hosts |
| migration | `Migration`, `Completes`, `Overtake`, `Ending`, `Progress`, `CallsReturn` | a session whose restore side drives a forwarding service, beside everything else that service does; how it ends |
| ownership | `ApiCore`, `Ownership`, `Incarnations`, `Restores`, `CoreObject` | any number of deploy and remove requests on any names, the entry locks, the migration goroutines outside them |

Concurrency is modelled by step systems: a state, a predicate saying which atomic steps are enabled,
and the state after a step. Statements about `Reachable` states or about legal action sequences
hold for every interleaving. The source's objects are also given as classes with the source's methods
that update fields in place (`Pump.Direction`, `Gate.Closer`, `ServiceObject.ForwarderService`,
`Exec.Restorer`, `Serve.DumpServer`, `CoreObject.APICore`). Every region of such a method is proved to
be a step of those systems, so what is proved about the systems holds of the objects, and the
contracts say what a caller may rely on when a method returns. In `ServiceObject` and `CoreObject`
everybody else goes on between the regions of a method, as an arbitrary script says.

Failures of Kubernetes, SSH, the file system and the network, and the passing of deadlines, are
answers of the environment. Every such answer is allowed at every call.

## What the proofs found

Eight properties one would expect do not hold of the code without a condition. Each is shown to fail
by a run, and the condition under which it holds is proved.

- A `Suspend` can wait for ever. `Waiters.ReturnsIffHopeful` says exactly, for every reachable state and
  whatever all other controllers are doing, when one that waits can return without another one being
  called; when no other is on its way to raising the flag that is when a token is there, or the flag
  is up and the listener is neither parked nor gone (`Answer.ReceivesIffAnswering`). There are three
  ways to be left waiting. The flag was raised again before the parked listener had seen it lowered
  (`Handshake.BecomesDeaf`, `Handshake.DeafForever`; one controller suffices,
  `Handshake.ResumeThenSuspendDeafens`). The listener has exited (`Handshake.ExitedForever`). Or the
  `Suspend` overlapped another controller's holding, whose `Resume` has lowered the flag for both
  (`Answer.OverlappedSuspendHangs`).
- So a migration with forwarding need not end: its calls of `Suspend` and `CloseAllForwarders` have no
  timeout. From the start of every migration a run leaves `exec` in `Suspend` for ever, when the
  service is closed before its listener parks, as a `Remove` does it (`Ending.SuspendCanStick`,
  `Ending.StuckForever`), and it then keeps its resume signal port; another leaves it in
  `CloseAllForwarders` until a client or a server does something (`Ending.CloseAllCanWait`). Every fair
  run finishes unless `exec` stays in one of these two calls (`Progress.FinishesUnlessServiceStays`).
  `Ending.SuspendReturnsIffHopeful` says exactly when the first can return, and
  `CallsReturn.SuspendComesBack` and `CallsReturn.CloseAllComesBack` when they do.
- A `Close` of a forwarder that runs before `Accept` has stored the client connection marks it closed
  without shutting anything. `Cascade.CascadeTerminates` holds for all others,
  `Cascade.UnfinishedRestIsEarly` says that this is the only way to be left unfinished,
  `Cascade.EarlyCloseHangs` reaches such a state, and `Driven.HangsIffOpen` says exactly when one can
  still be reached. `Returns.CloseAllReturns` is the same for `CloseAllForwarders`.
- A `Close` of a rate-limited forwarder makes its pump leave at the next poll, so that at most one more
  buffer is read (`Emergency.CloseFires`, `Emergency.EmergencyStopsReading`), but not if it comes after
  the client connection was stored and before the emergency channel is made: then all that is queued
  is still forwarded at the limited rate (`Emergency.CloseBeforeArmDoesNotFire`).
  `Emergency.SignalFiresIffArmed` is the exact condition.
- The dump side counts failed and unknown requests as well, so a client that goes on after an error
  gets a dump on an incomplete predecessor (`Images.RetryAfterErrorMisaligns`). The exact condition is
  `Images.PrevsGoodIffAligned`; the restore side meets it by giving up at the first error
  (`Session.PredecessorCompleted`).
- In every migration the restore side can give up waiting while the final dump still runs, and then
  its deferred `Resume` lets clients write to the server that is being dumped
  (`Overtake.TrafficDuringFinalDump`). `Migration.DumpQuietIffNotResumed` says exactly in which states
  of a running final dump the service is still kept quiet for it, and
  `Migration.NoTrafficDuringFinalDump` that there is no traffic until the flag is lowered.
- Two restore sessions can run into one pod (`Restores.TwoRestoresInOnePod`; the second need not be
  the one whose pod it is not, `Restores.FreshCanBeSecond`): the goroutine of `DeployFwdLM` runs outside
  the entry lock, so the pod can be deleted and deployed again under it. A goroutine finds another
  pod than its own if and only if one of its name was deleted since it created it
  (`Restores.StaleIffDeleted`). Without such a delete no pod has two
  (`Restores.UndisturbedMeansOneRestore`), and every such delete can lead to two, given one more
  request (`Restores.DisturbanceCanRestoreTwice`). `DeployLM` is not affected
  (`Restores.OnlyUnlockedAreHit`).
- With forwarding asked for and no service started, `exec` calls `Suspend` on nil.
  `Restore.PanicsIffNoService` says that it can panic if and only if that is so, and can complete if
  and only if it is not.

## Model

| member | source | states |
|---|---|---|
| Migration.NoTrafficDuringFinalDump | server/lm.go:149-199 | In every run of a migration, from the return of `CloseAllForwarders` until the deferred `Resume` lowers the flag, on success or failure, whatever the service, other controllers, peers and the dump side do, every forwarder ever created is over and no byte is written to the old server or to a client |
| Migration.QuietEndsWithResume | server/lm.go:149-199 | That stretch ends in one way only: the deferred `Resume` lowers the flag |
| Completes.MigrationCanComplete | server/lm.go:67-200 | From the start of every migration, with any number of pre-dumps, a run ends with `exec` completed, the service resumed and forwarding to the restored pod at no rate limit, and the source container stopped |
| Migration.DumpQuietIffNotResumed | server/lm.go:152-165 | While the final dump runs the service is kept quiet for it exactly as long as `exec` has not given up and lowered the flag |
| Overtake.TrafficDuringFinalDump | server/lm.go:149-163 | From the start of every migration, with any number of pre-dumps, a run leads to a state in which the final dump is at work and a client's byte is written to the old server |
| Progress.FinishesUnlessServiceStays | server/lm.go:67-200 | In every fair infinite run of a migration, with any behaviour of the service, its other controllers, the peers and the network, both sides finish, unless `exec` stays for ever in its call of `Suspend` or of `CloseAllForwarders` |
| Progress.ResumeComesBack | server/lm.go:152-155 | In every fair run the deferred `Resume` returns, however the mutex is contended |
| CallsReturn.SuspendComesBack | server/lm.go:149-151 | In a fair run in which nobody else is or comes to be in a `Suspend`, `exec` gets out of its own, or comes to a state in which no run lets it |
| CallsReturn.CloseAllComesBack | server/lm.go:156-157 | In a fair run `exec` does not stay in `CloseAllForwarders` when it calls it while each unfinished forwarder has its client connection and no `Close` came before that |
| Ending.SuspendReturnsIffHopeful | server/lm.go:149-151 | While `exec` waits for its token in any reachable state of a migration, some run without another `Suspend` lets it return if and only if the condition of `Waiters.ReturnsIffHopeful` holds of the service |
| Ending.OnlyTheServiceStopsIt | server/lm.go:132-200 | No deadlock of a migration: in every reachable state that is not finished `exec`, the dump side or the owner of the mutex has a step that is no failure, unless `exec` waits for a token, or for `Close` calls that have not returned |
| Ending.SuspendCanStick | server/lm.go:149-151 | From the start of every migration, with any number of pre-dumps, a run leads to where `exec` waits for the token of a listener that has exited, and the dump side for the next request |
| Ending.StuckForever | server/fwdsvc.go:80-86 | From there every run leaves `exec` in `Suspend` |
| Ending.StuckSessionRests | server/lm.go:326-338 | And neither side of the session has a step that is no failure |
| Ending.CloseAllCanWait | server/fwdsvc.go:95-111 | From the start of every migration a run leads to where `exec` waits in `CloseAllForwarders` and no forwarder does anything by itself |
| Migration.FinalDumpIsQuiet | server/lm.go:157-165 | While the dump side carries out the final dump, the restore side waits for its answer or has given up; while it waits every forwarder is over and the controller holds the service |
| Migration.CompletedRetargets | server/lm.go:162-198 | When a completed `exec` comes to its deferred `Resume`, the service forwards to the restored pod at no rate limit, every old forwarder is over and the source container is stopped |
| Migration.RouteChangesOnlyByRetarget | server/lm.go:149-198 | No other step of `exec` changes address or rate, and no "Must be suspended" guard fires |
| Migration.RetargetMeansAnswered | server/lm.go:162-198 | When `exec` changes the address or the rate the final dump was answered with Ok and the source is stopped |
| Handshake.ActsAsLock | server/fwdsvc.go:80-93 | Tokens plus controllers between `Suspend` and `Resume` are at most one; if one, the listener is parked and the flag set; the send under the mutex never blocks |
| Traffic.LockedOverRuns | server/fwdsvc.go:80-152 | The same in every reachable state, with any number of controllers, connections and forwarders |
| Handshake.NoLostWakeup | server/fwdsvc.go:88-93 | A listener that sleeps without a notification while the flag is down is about to be notified by the controller that holds the mutex |
| Handshake.AnswersSoon | server/fwdsvc.go:127-152 | So in every run a token is produced within a bounded number of listener steps, one accept round at most, unless the listener exits |
| Answer.AnswerNotBlocked | server/fwdsvc.go:80-137 | Until then the listener, or the controller inside its critical section, can always move |
| Answer.ReceivesIffAnswering | server/fwdsvc.go:80-137 | When a controller waits for its token and none is on its way to raising the flag, some run without another `Suspend` lets one return if and only if a token is there, or the flag is up and the listener neither parked nor gone |
| Answer.ReceivesIffAnsweringOverRuns | server/fwdsvc.go:80-137 | The same in every reachable state |
| Waiters.ReturnsIffHopeful | server/fwdsvc.go:80-137 | In every reachable state, whatever all controllers and the listener are doing, some run without another `Suspend` leads to where a waiting controller can take a token, if and only if a token is there, or the listener runs and the flag is up or will be raised, or it is parked, somebody still waits to raise the flag, and it will be lowered before |
| Answer.OverlappedSuspendHangs | server/fwdsvc.go:80-93 | A `Suspend` that overlaps another controller's holding can be left waiting with the listener accepting and the flag down |
| Handshake.BecomesDeaf | server/fwdsvc.go:80-93 | A parked listener is left with the flag up, no token and no holder if and only if the step raises the flag before it has seen it lowered |
| Handshake.DeafForever | server/fwdsvc.go:131-137 | From then on no `Suspend` returns, in any run, with any further calls |
| Handshake.ExitedForever | server/fwdsvc.go:141-152 | Nor does one after the listener has exited |
| Handshake.ResumeThenSuspendDeafens | server/fwdsvc.go:80-93 | One controller that resumes a sleeping listener and suspends it again at once gets there |
| Traffic.Quiescence | server/fwdsvc.go:95-111 | From the return of `CloseAllForwarders` until the flag is lowered, every forwarder has finished with its connections closed and no step of anybody writes a byte |
| Traffic.RoutingCoherent | server/fwdsvc.go:113-164 | In every run an unfinished forwarder that has taken an address has the current one, and an unfinished listed forwarder has the current rate |
| Traffic.ListHoldsUnfinished | server/fwdsvc.go:154-164 | The list has no duplicates and holds every unfinished forwarder but the one the listener is creating |
| Traffic.ListChanges | server/fwdsvc.go:156-163 | A forwarder enters the list only by the listener and leaves it only by its own removal, after its `Accept` returned |
| Traffic.WalkCoversUnfinished | server/fwdsvc.go:99-110 | When the walk of `CloseAllForwarders` ends, a `Close` was started for every unfinished forwarder |
| Returns.CloseAllReturns | server/fwdsvc.go:95-111 | In every fair infinite run a `CloseAllForwarders` called when each unfinished forwarder has its client connection, and no `Close` came before that, returns, and then every forwarder is over |
| ServiceObject.ForwarderService.Suspend | server/fwdsvc.go:80-86 | Whatever the others do in between, when it returns the caller holds the service alone, the flag is set, the listener parked and no token left; until then it waits for the mutex or for a token that is not there |
| ServiceObject.ForwarderService.Resume | server/fwdsvc.go:88-93 | When it returns the flag is down, the mutex free and a sleeping listener notified; while it waits the caller still holds the service |
| ServiceObject.ForwarderService.CloseAllForwarders | server/fwdsvc.go:95-111 | It never panics after `Suspend`; when it returns every forwarder ever created has both pumps ended and its connections closed; until then some `Close` it started has not returned |
| ServiceObject.ForwarderService.ChangeServerAddr | server/fwdsvc.go:113-118 | It never panics after `Suspend`, and sets the address |
| ServiceObject.ForwarderService.ChangeDataRate | server/fwdsvc.go:120-125 | It never panics after `Suspend`, and sets the rate |
| ServiceObject.ForwarderService.Park | server/fwdsvc.go:130-136 | The listener's send never blocks, and it comes out of its wait loop only with the flag down |
| ServiceObject.ForwarderService.Round | server/fwdsvc.go:128-164 | A round of the listener loop goes on at a deadline, ends the listener at a closed or broken one, and for a client, and only then, starts exactly one new forwarder, listed and at the current rate; or it still sleeps, or waits for the mutex |
| ServiceObject.ForwarderService.Connect | server/fwdsvc.go:159-164 | The goroutine of a connection takes the address it finds when it calls `Accept`; when `Accept` has returned and it has removed the forwarder, that is over and out of the list |
| ServiceObject.ForwarderService.Schedule | server/fwdsvc.go:65-166 | Any interleaving of regions on the object, played in order, is a legal run and keeps the invariant |
| ServiceObject.ForwarderService.constructor | server/fwdsvc.go:39-73 | A started service is the initial state of the step system |
| Forwarder.NextKeepsInv | server/fwd.go:51-231 | Every step of a forwarder keeps its invariant: mutual exclusion in `closeUpstream`, one close, stages of `Accept`, callers that returned only after the end, conserved bytes |
| Traffic.ForwarderPromises | server/fwd.go:51-231 | For every forwarder in every run of the service, under any mix of callers: in each direction delivered bytes are a prefix of read bytes and these of sent bytes, without a write error nothing read is missing, with one only the unwritten tail of the last chunk, and at a reported end of stream everything was delivered; the emergency channel is closed at most once; once `chanClosed` is closed or a `Close` returned, both pumps have ended and the connections are closed |
| Cascade.ClosedIsFinal | server/fwd.go:51-91 | Once `chanClosed` is closed no step of anybody reopens it or writes a byte |
| Emergency.ArmedIffLimited | server/fwd.go:55-59 | From where `Accept` makes it on, the emergency channel exists if and only if the forwarder is rate-limited |
| Emergency.CloseFires | server/fwd.go:112-125 | In every run of a limited forwarder whose channel exists when it is first closed, once anybody has got past the channel it is closed |
| Emergency.SignalFiresIffArmed | server/fwd.go:118-120 | A `Close` closes the channel if and only if the forwarder is limited and `Accept` has made it before |
| Emergency.CloseBeforeArmDoesNotFire | server/fwd.go:53-59 | At every limited rate a run leaves the channel open for good, by a `Close` between the two |
| Emergency.EmergencyStopsReading | server/fwd.go:151-156 | Once the channel is closed, in every run the upstream pump starts at most one more read and takes at most one buffer more, none if it had not polled before |
| Cascade.CascadeTerminates | server/fwd.go:75-145 | In every fair infinite run, once a `Close` was called on a forwarder that has its client connection, or `CloseRead` reached the client side, or a pump left its loop, both pumps end, the connections and `chanClosed` get closed and every `Close` returns, if no `Close` ran before the connection was stored |
| Cascade.UnfinishedRestIsEarly | server/fwd.go:112-125 | Such a forwarder at rest is unfinished only if an early `Close` happened |
| Cascade.EarlyCloseHangs | server/fwd.go:51-125 | And with one a run exists that gets stuck, at every rate |
| Driven.HangsIffOpen | server/fwd.go:51-231 | After an early `Close`, some run brings the forwarder to rest unfinished if and only if its client has not ended its stream, no end or error was met on it, and the dial has not failed |
| Driven.CanEnd | server/fwd.go:51-231 | From every state after the call of `Accept`, early or not, some run ends the forwarder and every `Close` |
| Pump.Direction.Upstream | server/fwd.go:150-192 | The upstream loop over its reused buffer does the turns of its script and no more; its chunks are paced and account for every byte written |
| Pump.Direction.UpstreamRound | server/fwd.go:151-191 | One round of it, with the poll of the emergency channel and the sleep |
| Pump.Direction.Downstream | server/fwd.go:202-230 | The same for the downstream loop |
| Pump.UpTurnIsRun | server/fwd.go:151-191 | A turn of the upstream loop is the run poll, read, write, sleep of the forwarder, as far as it gets, from every state of it |
| Pump.UpTurnsAreRun | server/fwd.go:150-192 | So the whole loop is a run of the forwarder |
| Pump.DownTurnsAreRun | server/fwd.go:202-230 | And the downstream loop is one of reads and writes |
| Pump.TurnsConserve | server/fwd.go:150-230 | For every sequence of reads and writes a loop delivers what it read except after a failed write, and everything sent if it saw the end |
| Pump.PacedBySleep | server/fwd.go:160-169 | A chunk's write and sleep together take the time the rate allows, less than one nanosecond short |
| Pump.SleepIsExact | server/fwd.go:160-169 | And not longer: the sleep is the longest in whole nanoseconds with which the write is not slower than the rate, none when the write alone is |
| Pump.RateBound | server/fwd.go:157-169 | m limited chunks in a row satisfy 8000 * bytes <= rate * (elapsed ns + m) |
| Pump.WindowBound | server/fwd.go:19-21 | In any window the chunks that meet it carry at most what the rate allows plus two buffers |
| Gate.CloseTwice | server/fwd.go:112-125 | Closing twice is closing once, whoever comes second, and the mutex is free afterwards |
| Gate.Closer.CloseUpstream | server/fwd.go:112-125 | On the fields, a call that runs alone is the run of those steps from the mutex to the return |
| Gate.Closer.CloseDownstream | server/fwd.go:127-137 | The server's read side is shut once and nothing else changes |
| Restore.BalancedExit | server/lm.go:67-200 | On every exit of `exec` all it opened was undone as often and in reverse order, so each returned `Suspend` has one `Resume`, and no guard of the service fired |
| Restore.CompletedOpenedAll | server/lm.go:77-158 | A completed `exec` had opened, and undone, each exactly once, the resume listener, the connection, the tunnel and, with forwarding, the suspension of the service |
| Restore.RetargetIffAnswered | server/lm.go:159-199 | The address changes, and the restore is launched, exactly when the final dump was answered Ok |
| Restore.PanicsIffNoService | server/lm.go:149-157 | `exec` panics in some environment if and only if forwarding was asked for and there is no service, and completes in some if and only if that is not so |
| Restore.ExecEnds | server/lm.go:132-193 | Given that its calls of `Suspend` and `CloseAllForwarders` return, `exec` ends in every environment and sends at most one request per round and a final one |
| Restore.PreDumpsAsAsked | server/lm.go:132-147 | The final dump is sent once, after as many pre-dumps as were asked for, one when that is zero, none when it is negative |
| Restore.LaunchesIffAllServe | server/lm.go:75-181 | The restore is launched if and only if every answer was what it had to be: listener, script, daemon, start request, connection, tunnel, each pre-dump and the final dump; after the first other one `exec` gives up |
| Restore.WaitsForSignal | server/lm.go:167-193 | After the launch `exec` polls until the first signal or the timer, and only then goes on to the address |
| Exec.Restorer.Call | server/lm.go:67-200 | The imperative `exec` with its deferred calls, for every environment and given that its calls of the service return, ends balanced and changes the address exactly when the final dump was answered Ok; when it completed it had sent one final dump and as many pre-dumps as asked for |
| Exec.Restorer.PreDumps | server/lm.go:132-147 | The counting loop sends the pre-dumps asked for or gives up at the first error |
| Exec.Restorer.AwaitResume | server/lm.go:167-193 | The polling loop ends by the signal or the timer and goes on alike |
| Exec.Restorer.Request | server/lm.go:236-252 | A request is done when its own answer byte is Ok |
| Dump.DumpSideBalanced | server/lm.go:265-394 | In every interleaving of `Start` and its goroutine, what is held is what the one in charge will give back; after a failing `Start` or the loop's end everything was given back as often as taken |
| Serve.DumpServer.Start | server/lm.go:265-326 | The imperative `Start` succeeds if and only if the listener, the key, the tunnel and the process id were had; on failure nothing is held, on success the goroutine owns the listener and the tunnel channel |
| Serve.DumpServer.Serve | server/lm.go:326-393 | The imperative loop carries out the requests in order, numbered from one, until they end or an answer cannot be written, answers each with Ok exactly when it is known and its command succeeded, gives everything back, and names completed predecessors if and only if the requests were aligned |
| Serve.DumpServer.Carry | server/lm.go:338-386 | One request: what it does to the directories; a pre-dump or a dump is answered Ok if and only if its command succeeded, any other byte with an error |
| Images.PrevsGoodIffAligned | server/lm.go:326-386 | For every sequence of requests and failures, each dump names a directory completed in this session if and only if the request before it was a pre-dump that criu finished |
| Images.RetryAfterErrorMisaligns | server/lm.go:326-345 | A second pre-dump after a failed one does not |
| Images.FinalChain | server/lm.go:173-178 | Following parents on the destination from `final` gives exactly final, k, ..., 1 |
| Images.PerformTouchesOnly | server/lm.go:340-381 | However far a command gets it changes no other image on the source, copies nothing but what is there, all of it when it succeeds, and stops the source exactly when criu finished a final dump |
| Session.PredecessorCompleted | server/lm.go:326-386 | In every session each `--prev-images-dir` names a directory completed by the request before it, on its own predecessor, and copied |
| Session.RestoreReadsWholeChain | server/lm.go:162-181 | Once the restore may be launched, its whole chain of images, final and then the pre-dumps asked for (one for zero, none for a negative number), is complete on the destination and the source is stopped: never two live copies |
| Session.AnswersTellTheTruth | server/lm.go:357-386 | In every reachable state every answer on its way is Ok if and only if the command of its own request succeeded |
| Session.StoppedByFinalDump | server/lm.go:362-381 | The source container is stopped only by a final dump of this session that criu finished |
| Session.DeadlockFree | server/lm.go:132-193 | Given that calls of the service return, until both sides have finished one of them can go on without a failure of the network |
| Session.SessionEnds | server/lm.go:132-200 | From the connection on, every run of a session has at most 5 k + patience + 46 steps of its two sides, with or without failures |
| Session.AtMostOneFinal | server/lm.go:326-386 | At most k + 1 requests are carried out, and exactly the last of these is the final dump |
| Ownership.ServiceOwnership | server/api-core.go:226-243 | Under any interleaving of requests a service is closed at most once; while open it is held by the request that just started it or current under its own name |
| Ownership.PlacesAreDisjoint | server/api-core.go:70-96 | A held service is open, held by one request, and current under no name |
| Ownership.CurrentBelongsToName | server/api-core.go:335-349 | A current service was started for that name, and is open unless its Remove is just about to clear it |
| Ownership.OneOpenServicePerName | server/api-core.go:109-126 | A name never has two open services |
| Incarnations.OneSessionPerCreation | server/api-core.go:155-205 | Each creation of a pod leads to at most one restore session, and sessions of a host do not overlap |
| Incarnations.FaithfulMeansOneRestore | server/api-core.go:244-294 | While every session ran into the pod its own request created, no pod had two |
| Restores.StaleIffDeleted | server/api-core.go:244-294 | Over every run between its creation of a pod and its restore, a goroutine finds another pod, or none, if and only if a pod of its name was deleted in between |
| Restores.OnlyUnlockedAreHit | server/api-core.go:145-206 | Such a delete never hits a goroutine that a `DeployLM` waits for |
| Restores.UndisturbedMeansOneRestore | server/api-core.go:244-294 | In every run of any requests without such a delete each session runs into the pod created for it and no pod has two |
| Restores.DisturbanceCanRestoreTwice | server/api-core.go:208-295 | From every reachable state every such delete can lead to two sessions in one pod, given one more `DeployFwdLM` of the name |
| Restores.FreshCanBeSecond | server/api-core.go:208-295 | The second session can be that of the pod's own creator |
| Incarnations.LockedRestoreIsFresh | server/api-core.go:174-202 | `DeployLM` restores under the lock, so its session is never stale |
| Restores.TwoRestoresInOnePod | server/api-core.go:208-295 | Deploy, remove and deploy with forwarding can end with two sessions in one pod |
| Incarnations.ClosesItsOwn | server/api-core.go:344-349 | What a Remove closes is an open service of its own name, or nothing |
| CoreObject.APICore.DeployNew | server/api-core.go:60-102 | Whatever others do in between, when it is done the lock is free and the name has an open service of its own, or none; with every answer yes it has one; it is not done only as long as somebody else has the lock |
| CoreObject.APICore.DeployFwd | server/api-core.go:104-127 | The same |
| CoreObject.APICore.StartService | server/api-core.go:113-126 | A service is started if and only if there is none and the start succeeds |
| CoreObject.APICore.EnsureService | server/api-core.go:81-96 | Afterwards there is a service if and only if there was one or the start succeeded, and one that was there stays |
| CoreObject.APICore.CreateNewPod | server/api-core.go:377-402 | The request creates the pod if and only if the name is free and Kubernetes accepts it, and then it is there |
| CoreObject.APICore.DeployLM | server/api-core.go:129-206 | The same; a session it runs is into the pod this request created, and the only one for that creation; with every answer yes, the name and the port free and nobody else about, it runs one |
| CoreObject.APICore.Migrate | server/api-core.go:175-202 | A restore session starts only if the pod is there and ready, and with nobody else about it does if and only if the port is free as well |
| CoreObject.APICore.DeployFwdLM | server/api-core.go:208-295 | The same; it leaves one goroutine behind, which has nothing yet |
| CoreObject.APICore.Background | server/api-core.go:244-294 | That goroutine runs at most one session, and only after it created a pod; with every answer yes, the name and the port free and nobody else about, it runs one |
| CoreObject.APICore.Schedule | server/api-core.go:45-58 | Any interleaving of them keeps the invariant |
| CoreObject.APICore.Remove | server/api-core.go:331-375 | Whatever others do in between, when it is done and had a client, the name has no service, every one ever started under it was closed exactly once, and the pod was deleted if and only if Kubernetes did it |
| CoreObject.APICore.Close | server/api-core.go:344-349 | It closes an open service of its own name, for the first time |

## Left out

- Cascade.CascadeTerminates: is about forwarders on which no `Close` ran before `Accept` had stored the client connection; for the others termination is false, as `Cascade.EarlyCloseHangs` shows. It assumes that every write returns. `Close` calls that come later in a run start another one.
- Handshake.AnswersSoon: counts the listener's steps and does not claim that every `Suspend` returns, which the code does not give (`Answer.ReceivesIffAnswering`).
- Restore.ExecEnds: takes the calls of `Suspend` and `CloseAllForwarders` to return, as do Exec.Restorer.Call and Session.DeadlockFree, which are about a session by itself. `Ending`, `Progress` and `CallsReturn` are about when they do.
- Session.DeadlockFree: the same; `Ending.OnlyTheServiceStopsIt` is the statement for a migration.
- Exec.Restorer.Call: the same; `Progress.FinishesUnlessServiceStays` is the statement for a migration.
- CallsReturn.SuspendComesBack: is about runs in which no other controller is in a `Suspend`; with others, who of those waiting takes a token is left to chance.
- ServiceObject.ForwarderService.Connect: runs the goroutine's own two regions; the steps of `Accept` are run by the script of the others, as they are steps of module `Forwarder`.
- Returns.CloseAllReturns: like `Cascade.CascadeTerminates` it needs every write to return. A peer that does not read blocks a pump in its write, and `CloseRead` does not free it.
- Session.SessionEnds: starts at an established connection. When the dial after a successful start request fails, the dump side stays in `Accept`.
- Pump.Direction.Upstream: runs for a finite script of what the environment does, in place of an endless loop; every finite run of the loop is one. The same holds for the other loops that serve or poll.
- ServiceObject.ForwarderService.Suspend: returns false when the script of the others ends before its wait does, as do the other methods that wait; that they return at all is the matter of `Answer` and `Returns`.
- Gate.Closer.CloseUpstream: is the call that nobody overtakes; interleaved calls are steps of module `Forwarder`.
- Traffic.RoutingCoherent: assumes of the controllers what `exec` does, that only one whose `Suspend` returned calls the service, and that address and rate change only after `CloseAllForwarders` returned.
- Reads of `isSuspended`, `serverAddr` and `dataRate` outside a lock are atomic here; Go's memory model is not modelled.
- `CloseRead` lets the bytes already queued be read and then reports the end of the stream. On a connection that is not stored yet, a nil `*net.TCPConn`, it is taken to return an error. This is an assumption about Go's net package. Should it panic there instead, the process ends at the early `Close`; no result about forwarders without an early `Close` depends on which it is.
- `closeDownstream` has one caller and is one atomic step; `SetLinger` and socket buffer sizes have no effect here.
- The limiter's float64 arithmetic is over reals, with the truncation to whole nanoseconds kept.
- The resume wait polls at most `patience` times before its timer fires; deadlines and sleeps have no duration otherwise.
- The migration goroutine's read of `res.fwdsvc` outside the lock appears only as whether a service was found. A panic ends `exec` after its deferred calls; the end of the whole process is not modelled.
- Pods are created and deleted atomically, and waiting for a pod succeeds or fails as the environment likes, success only while a pod exists. Cluster IPs and services of Kubernetes are part of whether a forwarding service starts.
- The lock that the handler of the dump start request takes on the source is not part of the entry model.
- What criu, rsync and the shell do is `&&` of three commands that may stop anywhere; command texts, bandwidth options and the file that holds the process id are left out.
- Kubernetes, SSH and port-forward clients, JSON, configuration, logging, the request listener, the packet header, the byte queue, the commented-out old server, the Java client, the sample applications and the build are left out.

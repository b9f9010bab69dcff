# Station agent: a verified model

The station agent controls radio transmitters and flashes firmware, as one process with an
asyncio control loop, timer tasks, executor threads and a flasher thread, on a machine that can
lose power at any moment. This project models its concurrent and crash-prone core in Dafny and
proves what every interleaving, every crash and every input keeps.

| file | models |
|---|---|
| `PttBroker.dfy` | PTT accounting of the broker: keys on the wire, dead-man timers, fail-safe unkeys |
| `ScanList.dfy` | the scanner's walk over its entry list |
| `ScanSystem.dfy` | scan task, message handler, dead-man tasks and clock as one transition system, await by await |
| `ScanSafety.dfy` | the inductive invariant of that system |
| `ScanTheorems.dfy` | theorems about its runs |
| `ScanEntries.dfy` | the lists given to the scanner, and the entries its visits take from them |
| `ScanVisits.dfy` | which entries a scan visits, and when failures stop it, over runs |
| `ScanCourse.dfy` | which body a visit runs next, and what ends a visit or a scan, over runs |
| `ScanMessages.dfy` | what becomes of every message: keys, retunes, holds, stops, starts, updates, skips |
| `ScanLookup.dfy` | the list position that `hold` carries over an await, and exactly when it goes stale |
| `ScanOverride.dfy` | what the scan task may still do while a key or a hand retune is on the device |
| `ScanRadio.dfy` | where the radio and tx_route are by a scan's history, against what frames say and where holds route |
| `ScanExamples.dfy` | runs in which promises about the scanner fail |
| `PauseGate.dfy` | the firmware pause against commands queued on the slot lock and the device lock |
| `SimSwap.dfy` | the sim binary swap over an inode-level directory, with a crash at any operation |
| `VerifyLoop.dfy` | the timed verification poll |
| `DfuBudget.dfy` | the DFU download loop, its persisted retry budget and its recovery |
| `FlashCycle.dfy` | the flash cycle, its crash marker and its pause |
| `KernelArgs.dfy` | the kernel command line tokenizer |
| `BootMarkers.dfy` | boot markers, overlay lists and the commit gate |
| `Digits.dfy`, `BootScript.dfy` | the boot counter as text, the two boot scripts, the agent's environment writes |
| `TrialBoot.dfy` | the A/B trial boot as a transition system of boots and agent steps |
| `Debouncer.dfy` | the slot inventory debouncer against a specification over its whole history |
| `Subscriptions.dfy` | audio demand counting |
| `OtaStream.dfy` | the resumable download and the streamed partition write |
| `Options.dfy`, `Sets.dfy`, `Digests.dfy` | shared definitions |

How the parts are modelled:

- A coroutine becomes a sequence of events, one for each stretch between two awaits; a thread
  becomes one event for each read or lock move. `IsRun(ss, es)` is any sequence of enabled events,
  so a lemma about it is about every interleaving.
- A crash keeps a prefix of the operations. The classes record in `points` or `trail` what is on disk after
  every operation, and what is proved of every point holds of whatever a restarted agent finds. In
  `SimSwap` a loss of power takes back any operations since the last directory sync, over any number
  of calls.
- The network, device replies, the clock, digests and failing tools are parameters, events or
  arbitrary values; SHA-256 is an uninterpreted function. A class that can fail at many operations has
  a constant function that says what each one comes to, so its contracts say for every such
  function what the result is, and not only what a success means.
- Objects with fields are classes whose methods are proved against functions of the old state;
  the lemmas are about those functions.

## What the code does not do

Eight promises in comments or documentation hold only under a condition. The model follows the
code; each has a concrete counterexample and the exact condition.

- `_unkeying` is a set, so when two fail-safe unkeys of one module overlap it forgets the module
  as soon as the first one lands and `slot_busy` turns false with the second still on the wire
  (`PttBroker.UnkeyLostExample`). Over every run that ends with an idle line, busy-until-it-lands
  holds if and only if no dead-man fires while its module is being unkeyed
  (`PttBroker.UnkeyCoveredIffApart`).
- `hold` indexes the entry list again after it awaited the held frame. Over every run, a hold of the
  message handler then ends the connection, and loses its key, if and only if at the held frame the
  scan task slept in its listen window with a skip noted and a list no longer than the position
  waiting, and the task took a turn during the await without the scan ending
  (`ScanLookup.HandlerDiesIff`, `ScanLookup.ConnectionLostIff`, `ScanExamples.HandlerDiesExample`).
  From every such held frame two more turns do it (`ScanLookup.GuardedHoldDies`). A hold of the scan
  task itself ends the scan there if and only if a skip of the held entry adopted a list no longer
  than the position during the await (`ScanLookup.TaskDiesIff`, `ScanExamples.TaskDiesExample`).
- "Held on an entry that is actually tuned → PTT must key that module." The entry is found by its ref in
  the list as it is after the await. Over every run `hold` moves tx_route to another module than the one
  last applied if and only if that list has another module at the position and the route may go there.
  Either the list was adopted during the await, or a list adopted before has the tuned ref on another
  module (`ScanRadio.HandlerStraysIff`, `ScanRadio.TaskStraysIff`, `ScanExamples.HandlerStraysExample`,
  `ScanExamples.RelistedExample`).
- The same promise fails where `hold` does not route. Take a hold with nothing keyed, or for a key of the
  module last applied. Over every run it leaves tx_route on another module without moving it if and only if
  the scan's last route was for the ref last applied while that was on another module, or the hold is for
  the key and the list has another module at the position (`ScanRadio.HandlerLeavesAstrayIff`,
  `ScanExamples.MisroutedExample`, `ScanExamples.RelistedKeyExample`). For the scan task's own hold only the
  first can happen (`ScanRadio.TaskLeavesAstrayIff`). The key itself goes on the wire with tx_route elsewhere
  if and only if it was elsewhere and its hold left it there or found the scan held already
  (`ScanRadio.KeyOutAstrayIff`, `ScanExamples.HeldKeyExample`).
- Held and stopped frames name "the tuned entry", and "a failed/partial apply leaves the radio on no known
  entry". Over every run a frame names an entry the radio is not known to be on if and only if the scan's
  last apply raised, the module last applied was retuned by hand since, or the list has another entry under
  its ref. Only a terminal frame follows an apply that raised (`ScanRadio.FrameMisleadsIff`,
  `ScanExamples.RaisedApplyExample`, `ScanExamples.RetunedStopExample`,
  `ScanExamples.RetunedHoldExample`, `ScanExamples.RelistedExample`).
- `hold` "returns once no scanner step is in flight" and never moves the mic "away from a module being
  keyed". It returns at once when the scan is already held. Over every run a key or a hand retune goes to the
  device with the scan task inside the step lock if and only if its message finds the scan held and the task
  sending the held frame or moving tx_route in its own hold (`ScanOverride.OverrideRacesIff`,
  `ScanExamples.RouteUnderKeyExample`). No move of tx_route starts under a key
  (`ScanOverride.RouteUnderKeyIff`); under a hand retune one can (`ScanOverride.OwnHoldUnderOverride`).
- `discover_slots` asks for the pause before `probe_slot` takes the device lock, so a probe that is
  past its check can open the device under the flasher (`PauseGate.ProbeSlipsInExample`). From every
  state in which a pause begins it can if and only if a probe is past its check
  (`PauseGate.ProbeSlipsInIff`).
- "On False `pending` is kept" holds of a sim rollback if and only if it failed before its last
  directory sync (`SimSwap.PendingKeptIff`, `SimSwap.LastSyncExample`). Likewise an acceptance whose
  sync fails has removed `pending`, and a loss of power may bring it back with the old binary
  (`SimSwap.SimBackend.Accept`).

`arm_trial_rollback` answers "already armed" for any decimal counter at or over the limit. Under the
hexadecimal script that is right unless the counter ends in 9 and its other digits do not exceed the
limit (`BootScript.UbootRollsBackIff`, `BootScript.ArmedPastLimitExample`). Over every run an open
trial's counter never passes an armable limit (`TrialBoot.OpenCount`), so in runs the next boot does
roll back (`TrialBoot.ArmedBootRollsBack`). The verify guard takes a reboot between the local commit
and the server commit for a rollback, as a comment there admits; `TrialBoot.AcceptsIff` states
exactly when.

## Model

| member | source | states |
|---|---|---|
| `PttBroker.RunKeepsInv` | station_agent/broker.py:767-803 | in every reachable state armed modules and sleeping dead-man tasks are in bijection, each task within its timeout, and the in-flight set is exactly the PTT command on the wire |
| `PttBroker.SlotBusyCoversKeys` | station_agent/broker.py:756-758 | read off the line alone: from a key being sent, through its acknowledgement, until an unkey is acknowledged or a fail-safe attempt is over, the slot is busy; and it is busy only with a key armed or a command on the line |
| `PttBroker.DeadManFiresOnTime` | station_agent/broker.py:777-783 | the clock cannot pass the last arm plus the timeout, and a fail-safe unkey starts at exactly that instant |
| `PttBroker.ArmedSinceLastArm` | station_agent/broker.py:785-795 | the task's deadline is always the timeout after the last acknowledged key or keepalive of that module |
| `PttBroker.UnkeyCoveredIffApart` | station_agent/broker.py:797-803 | over a run that drains the line, every pending unkey is covered by the unkeying set throughout if and only if no dead-man fires while its module is being unkeyed |
| `PttBroker.UnkeyLostExample` | station_agent/broker.py:97-100 | a run, with commands in line order, that ends with an unkey on the line and the slot reported idle |
| `PttBroker.Broker.constructor` | station_agent/broker.py:96-104 | starts in the initial state, which satisfies the invariant |
| `PttBroker.Broker.DisarmDeadMan` | station_agent/broker.py:772-775 | no sleeping dead-man of the module is left and no other module's is touched |
| `PttBroker.Broker.ArmDeadMan` | station_agent/broker.py:767-770 | exactly one dead-man of the module sleeps, due a timeout from now, and no other module's is touched |
| `PttBroker.Broker.BeginPtt` | station_agent/broker.py:261-264 | takes exactly the step of a key going on the wire and keeps the invariant |
| `PttBroker.Broker.EndPtt` | station_agent/broker.py:264-274 | takes exactly the step of a result coming back, arming or disarming before the window closes, and keeps the invariant |
| `PttBroker.Broker.HandleKeepalive` | station_agent/broker.py:785-795 | re-arms a keyed module, does nothing otherwise, and keeps the invariant |
| `PttBroker.Broker.DeadMan` | station_agent/broker.py:777-801 | takes exactly the step of a dead-man firing and keeps the invariant |
| `PttBroker.Broker.EndUnkey` | station_agent/broker.py:800-803 | takes exactly the step of a fail-safe attempt ending and keeps the invariant |
| `ScanList.FindRef` | station_agent/scanner.py:441-444 | the first position with this ref, or none if the ref is absent |
| `ScanList.AdoptedListContinues` | station_agent/scanner.py:348-356 | if the current ref survives in an adopted list the scan goes on with it, or with the entry right after it, around the end of the list |
| `ScanList.AdoptedListKeepsPosition` | station_agent/scanner.py:354-355 | otherwise it goes on at the same position taken around the new list |
| `ScanVisits.PassCoversList` | station_agent/scanner.py:291-312 | in every run, as many visits in a row as the list is long, with no hold set and no update between them, go to entries of the list and reach every position exactly once |
| `ScanVisits.FailingVisitStopsIff` | station_agent/scanner.py:306-311 | in every such stretch of a run a failing visit ends the scan if and only if with it the failures in a row fill the list |
| `ScanVisits.VisitsMoveOn` | station_agent/scanner.py:291-312 | at every await of such a stretch the scan is over, or its cursor is exactly as far as its visits ended and its streak is their failures in a row |
| `ScanCourse.VisitPrepares` | station_agent/scanner.py:359-382 | in every run the body after the announcement of a visit is the apply of its entry, and after a fully successful apply the carrier read of it, unless a skip was noted; any other apply leads to another visit |
| `ScanCourse.CarrierIsRouted` | station_agent/scanner.py:384-390 | in every run a carrier that is heard is followed: with nothing keyed the visit goes on and the next body of the task is the route to that entry; with a key live the task holds itself |
| `ScanCourse.SilenceIsListenedTo` | station_agent/scanner.py:379-388 | in every run a silent read is followed by another of the same entry until the listen window is due or a skip was noted; a failed read or a window that is due leads to another visit |
| `ScanCourse.CarrierIsFollowed` | station_agent/scanner.py:390-406 | in every run the route puts tx_route on the entry; then the carrier dropping and coming back are announced and it is read again, and the task goes to another visit if and only if a skip was noted, a read failed, or the carrier stayed away for the hang time |
| `ScanCourse.ScanEndsIff` | station_agent/scanner.py:291-339 | in every run a turn of the task ends its scan if and only if a scanned slot is drained, the slot is updating, a step or the lookup of its hold raises, or a whole pass failed |
| `ScanCourse.TaskHoldsIff` | station_agent/scanner.py:420-424 | in every run the task holds its own scan if and only if it is about to visit or to route and a key is live |
| `ScanCourse.SkipWasAsked` | station_agent/scanner.py:232-235 | a skip that is noted was asked for since the last visit began |
| `ScanMessages.MessageReachesDevice` | station_agent/broker.py:252-264 | in every run each key, unkey and hand retune goes to the device before the handler takes the next message, unless the connection is lost |
| `ScanMessages.BrokerIsTold` | station_agent/broker.py:261-274 | in every run the broker is told of every key as it goes out and as it comes back and of every keepalive, and of nothing else |
| `ScanMessages.HoldIsSet` | station_agent/scanner.py:239-249 | a hold message, a key or a hand retune of a scanned slot holds a running scan |
| `ScanMessages.HoldAnnounces` | station_agent/scanner.py:253-263 | the hold that gets the step lock sends the held frame |
| `ScanMessages.HoldParksOn` | station_agent/scanner.py:258-260 | a hold moves the cursor to the position its held frame names and nowhere else |
| `ScanMessages.StopIsServed` | station_agent/scanner.py:272-288 | before the handler takes the next message after a stop, an empty update or a start, the running scan is over with its terminal frame sent, and a start has its own scan on its own list |
| `ScanMessages.StartBegins` | station_agent/scanner.py:193-206 | a start with no scan running begins one on its list at once |
| `ScanMessages.ScanBeginsOnItsList` | station_agent/scanner.py:193-206 | a scan begins only on the list of the last start message, at its first entry, with nothing held, tuned, routed or waiting |
| `ScanMessages.UpdateWaits` | station_agent/scanner.py:208-215 | an update of a running scan waits as it is and changes nothing else |
| `ScanMessages.EntriesComeFromUpdate` | station_agent/scanner.py:341-357 | the entries of a running scan change only to those of the last update |
| `ScanMessages.SkipMovesOn` | station_agent/scanner.py:228-235 | a skip of a held scan resumes it with the entry after the held one, in the list that waits if there is one; a skip of a running scan is only noted |
| `ScanMessages.ResumeGoesOn` | station_agent/scanner.py:293-297 | a resumed scan goes on with the held entry, in the list that waits if it is there |
| `ScanMessages.VisitEndGoesOn` | station_agent/scanner.py:312 | a visit that ends by itself goes on with the next entry, around the list, and adopts the list that waits |
| `ScanList.Walk.Locate` | station_agent/scanner.py:351 | the loop finds the first position with the ref |
| `ScanList.Walk.Advance` | station_agent/scanner.py:341-357 | the in-place step is the specified next position, adopting a waiting list |
| `ScanList.Walk.FinishVisit` | station_agent/scanner.py:306-312 | counts failures, stops exactly when the specification does, and otherwise moves on |
| `ScanSafety.InvStep` | station_agent/scanner.py:193-470 | every event of the handler, the scan task, a cancellation, a timer or the clock keeps the invariant of lock, task, list, hold generation and key |
| `ScanSafety.RunKeepsInv` | station_agent/scanner.py:193-470 | the invariant holds in every reachable state |
| `ScanTheorems.StepsStartUnkeyed` | station_agent/scanner.py:359-432 | no apply_preset or other step body starts while a module is keyed, has a key on the wire, or is in the unkeying set (which can miss an overlapping unkey) |
| `ScanTheorems.RouteStartsUnkeyedOrToKeyed` | station_agent/scanner.py:264-270 | every scanner move of tx_route starts with nothing keyed or goes to the module about to be keyed |
| `ScanTheorems.OverrideNeverRaced` | station_agent/broker.py:252-274 | while a key or a hand retune of a scanned slot is on the device no apply, carrier read or other body of a step runs; the scan task's own hold is treated by the next rows |
| `ScanOverride.OverrideRacesIff` | station_agent/scanner.py:239-256 | in every run an override goes to the device with the scan task inside the step lock if and only if its message finds the scan held and the task sending the held frame or moving tx_route in its own hold |
| `ScanOverride.WaitedOverrideStartsAlone` | station_agent/scanner.py:253-256 | an override that had to wait for its hold starts with no task in the step lock |
| `ScanOverride.OwnHoldUnderOverride` | station_agent/scanner.py:253-270 | at every await under an override the task sends its held frame or moves tx_route if and only if it stood in its own hold when the override began and took just the turns from there |
| `ScanOverride.RouteUnderKeyIff` | station_agent/scanner.py:268-270 | a tx_route move of the task is under way while a key is on the wire if and only if it was when the key went out and the task took no turn since |
| `ScanEntries.RunKeepsEntries` | station_agent/scanner.py:70-108 | in every reachable state the lists have distinct refs, every visit that is not outdated and every running step is of an entry of the list, and a retune that held nothing is on no scanned slot |
| `ScanEntries.RetuneNeverRaced` | station_agent/broker.py:252-264 | while a hand retune is on the device, of whatever slot, no scanner step runs for an entry on that slot |
| `ScanTheorems.HoldQuiesces` | station_agent/scanner.py:239-270 | once a hold that set the flag is through, no step body runs until resume, skip or a new scan |
| `ScanTheorems.StepNeedsFreshVisit` | station_agent/scanner.py:426-432 | a step body that starts after a hold belongs to a visit of its own task that began after it, however soon the scan was resumed |
| `ScanTheorems.OneStoppedFramePerScan` | station_agent/scanner.py:334-339 | every scan is exactly one of running, about to send its terminal frame, or over with exactly one terminal frame sent |
| `ScanTheorems.FinishedTaskIsInert` | station_agent/scanner.py:456-461 | a task that is only sending its terminal frame changes nothing of a later scan |
| `ScanTheorems.ListStaysInRange` | station_agent/scanner.py:208-237 | while a scan runs its list is non-empty and its index in range at every await, under any replacement |
| `ScanRadio.TunedIsLastApplied` | station_agent/scanner.py:365-370 | the tuned ref is that of the scan's last apply that returned if it fully succeeded, else none; an apply that raises leaves it alone |
| `ScanRadio.FramesNameTunedEntry` | station_agent/scanner.py:463-470 | held and stopped frames name the ref of the last apply that returned if it fully succeeded and is still listed, otherwise none, and no apply is under way then |
| `ScanRadio.KnownIs` | station_agent/scanner.py:365-370 | at every await the entry the radio is known to be on, by the applies and hand retunes of the run, is the one last applied, unless an apply is under way, raised, or its module was retuned |
| `ScanRadio.ListedIsApplied` | station_agent/scanner.py:346-356 | the listed entry with the ref last applied is the applied one unless a list was adopted since |
| `ScanRadio.FrameMisleadsIff` | station_agent/scanner.py:463-470 | a held or terminal frame names an entry the radio is not known to be on if and only if the last apply raised, the applied module was retuned by hand since, or the list has another entry under its ref; only a terminal frame follows a raised apply, and only an adopted list changes the entry |
| `ScanTheorems.BrokerRun` | station_agent/broker.py:252-274 | what the broker goes through in a run of the whole system is a run of the broker, so its theorems apply |
| `ScanLookup.HandlerDiesIff` | station_agent/scanner.py:258-266 | in every run the handler's turn after its held frame ends the connection if and only if a list no longer than the position waited there, the task slept listening with a skip noted, and took a turn since without the scan ending |
| `ScanLookup.ConnectionLostIff` | station_agent/scanner.py:258-266 | over every run an exception in the modelled handler, whose device commands always answer, ends the connection for that reason and no other |
| `ScanLookup.GuardedHoldDies` | station_agent/scanner.py:263-266 | from every held frame that meets the condition two more turns end the connection |
| `ScanLookup.NoUpdateNeverDies` | station_agent/scanner.py:258-266 | in a run without list updates no list waits and no exception ends the connection |
| `ScanRadio.HandlerStraysIff` | station_agent/scanner.py:264-270 | in every run the same turn starts to move tx_route to another module than the one last applied if and only if the list it looks in has another one at the position and the route may go there; without a list adopted during the await, one adopted before put the tuned ref there |
| `ScanRadio.HandlerLeavesAstrayIff` | station_agent/scanner.py:264-270 | in every run that turn, with nothing keyed or for a key of the module last applied, leaves tx_route on another module if and only if the last route was for the same ref on another module, or the hold is for the key and the list it looks in has another module at the position |
| `ScanRadio.KeyOutAstrayIff` | station_agent/scanner.py:239-270 | in every run the key of the module last applied goes on the wire with tx_route elsewhere if and only if it was elsewhere and the hold for it did not move it or returned at once because the scan was held |
| `ScanLookup.TaskDiesIff` | station_agent/scanner.py:258-266 | in every run the scan task's turn after its own held frame ends the scan if and only if a skip of the held entry adopted a list no longer than the position since |
| `ScanRadio.TaskStraysIff` | station_agent/scanner.py:264-270 | in every run that turn starts to route to another module than the one last applied if and only if the list, adopted by a skip since or before, has another one at the position and nothing is keyed |
| `ScanRadio.TaskLeavesAstrayIff` | station_agent/scanner.py:264-270 | the same of the task's own hold: it leaves tx_route astray if and only if the last route was for the same ref on another module |
| `ScanExamples.HandlerDiesExample` | station_agent/scanner.py:253-270 | a reachable dead connection: update, skip and key during the listen sleep |
| `ScanExamples.TaskDiesExample` | station_agent/scanner.py:253-270 | a reachable scan that ends in its own hold: another module keyed, resume, own hold, update, skip |
| `ScanExamples.HandlerStraysExample` | station_agent/scanner.py:264-270 | a reachable hold that routes to an entry other than the one last applied |
| `ScanExamples.RelistedExample` | station_agent/scanner.py:258-270 | a list adopted before the hold has the tuned ref on another module: the held frame names that entry and the hold routes there, with no race |
| `ScanExamples.MisroutedExample` | station_agent/scanner.py:265 | a reachable hold that leaves tx_route on the old module of the ref while the radio is on its new one |
| `ScanExamples.RelistedKeyExample` | station_agent/scanner.py:264-270 | a reachable key of the module the radio is on, whose hold finds the tuned ref on another module and never moves tx_route |
| `ScanExamples.HeldKeyExample` | station_agent/scanner.py:246-247 | a reachable key of the module the radio is on under a hold that another module's key began, with tx_route never moved there |
| `ScanExamples.RetunedStopExample` | station_agent/scanner.py:463-470 | hold for a hand retune of the tuned module, then stop: the terminal frame names the entry it left |
| `ScanExamples.RetunedHoldExample` | station_agent/scanner.py:258-263 | the same retune, then resume and hold: the held frame names it too |
| `ScanExamples.RouteUnderKeyExample` | station_agent/scanner.py:268-270 | a reachable key on the wire under a tx_route move to another module |
| `ScanExamples.RaisedApplyExample` | station_agent/scanner.py:317-319 | a reachable scan whose second apply raises and whose terminal frame names the first entry |
| `PauseGate.RunKeepsInv` | station_agent/broker.py:541-574 | locks, in-flight keys and pause state agree in every reachable state |
| `PauseGate.OwnedSlotIsQuiet` | station_agent/module_ota.py:552-569 | from `_pause_when_idle` returning true until resume no key is live by the acknowledgements of the run, none can be acknowledged, and the device is opened only for fail-safe unkeys |
| `PauseGate.SetsTellEvents` | station_agent/broker.py:261-274 | over every run the armed and the unkeying set hold exactly the units that the acknowledgements, dead-men and returned unkeys say, and a live key is in one of them |
| `PauseGate.QueryTellsKeys` | station_agent/broker.py:756-758 | the flasher's query answers busy if and only if a unit is armed or being unkeyed or a key command is under way; always while a key is live |
| `PauseGate.OwnsIff` | station_agent/module_ota.py:557-569 | the flasher owns the slot if and only if the answer was idle and no audio runs; otherwise the pause ends |
| `PauseGate.OrdinaryPassesIff` | station_agent/broker.py:541-574 | at each of its three checks an ordinary call passes if and only if the slot is not paused, and is refused without the device otherwise |
| `PauseGate.DoneIffAnswered` | station_agent/slot_control.py:108-137 | over every run a call comes back as done if and only if the device answered it so |
| `PauseGate.OutcomesAreHeeded` | station_agent/module_ota.py:552-569 | a device that does not open fails the call, a barrier that times out ends the pause, a query that times out counts as busy |
| `PauseGate.SingleOwner` | station_agent/devlock.py:54-71 | a device open in one call is open in no other, in no probe and not held by the barrier |
| `PauseGate.UnkeyIsNeverRefused` | station_agent/broker.py:541-574 | over every run, whatever pauses come, a queued fail-safe unkey still waits, has been cleared to open the device, or lost its device lock to a timeout |
| `PauseGate.UnkeyMovesOn` | station_agent/slot_control.py:108-137 | each of its own steps takes a waiting unkey further: to its thread, to the device lock, past the pause check |
| `PauseGate.ProbesStayOff` | station_agent/slot_discovery.py:303-306 | in every run, if no probe was past its check when the pause began, none holds the device behind the barrier |
| `PauseGate.ProbeSlipsInIff` | station_agent/slot_discovery.py:303-306 | from every state of a pause, with any number of probes, one can get on the device behind the barrier if and only if one is there or is past its check |
| `PauseGate.ProbeSlipsInExample` | station_agent/slot_discovery.py:303-306 | a run in which a probe opens the device under the flasher |
| `SimSwap.RenameMoves` | station_agent/module_ota_sim.py:160-167 | a rename gives the target the source's content even when both are links to one inode, and touches no other name |
| `SimSwap.StalePrevExample` | station_agent/module_ota_sim.py:118-127 | without `pending` a rollback could install the wrong binary, so the callers' check is needed |
| `SimSwap.SimBackend.Stage` | station_agent/module_ota_sim.py:187-214 | raises exactly if an operation failed; otherwise accepts exactly the pinned image, copied chunk by chunk, and leaves no staged file if it refuses; every crash point is sound |
| `SimSwap.SimBackend.RefreshPrev` | station_agent/module_ota_sim.py:216-221 | on success `.prev` is the accepted binary or absent with it; the staged file is untouched |
| `SimSwap.SimBackend.TouchPending` | station_agent/module_ota_sim.py:223-230 | on success `pending` exists, and the live file is still the accepted one |
| `SimSwap.SimBackend.Restore` | station_agent/module_ota_sim.py:160-170 | on success the live file is the accepted binary again, with `pending` still there |
| `SimSwap.PendingKeptIff` | station_agent/module_ota_sim.py:155-183 | a rollback that answers False has kept `pending` if and only if it failed before its last sync |
| `SimSwap.LastSyncExample` | station_agent/module_ota_sim.py:174-181 | a directory in which only the last sync fails: `pending` is gone, the accepted binary is live, the answer is False |
| `SimSwap.SimBackend.Rollback` | station_agent/module_ota_sim.py:155-183 | leaves exactly the directory that its failing step determines, sound at every crash point; it completes if and only if no operation failed, and then the accepted binary is live, all leftovers are gone and no crash takes that back; not completed: `pending` is gone if and only if the last sync failed, and only with the accepted binary live |
| `SimSwap.SimBackend.Flash` | station_agent/module_ota_sim.py:79-116 | OK if and only if no operation failed, the module is in its slot and the image is the pinned one: then the image is live, `.prev` is the accepted binary and `pending` is set, all durably; a failed install is rolled back to the accepted binary unless the rollback failed too; transient without a leftover: the live binary is untouched and, with one failure at most, nothing is left behind |
| `SimSwap.SimBackend.Accept` | station_agent/module_ota_sim.py:129-138 | removing `pending` accepts exactly the live binary; it is durable if and only if the sync succeeded, and until then every earlier state since the last sync may come back with the old acceptance |
| `SimSwap.SimBackend.AfterVerify` | station_agent/module_ota_sim.py:118-138 | a success accepts exactly the live binary by removing `pending`, if that works; a failure with `pending` there is rolled back, to the accepted binary if no operation fails; without `pending` it changes nothing |
| `SimSwap.SimBackend.Startup` | station_agent/module_ota_sim.py:140-151 | rolls back if and only if `pending` is found, to the accepted binary if no operation fails |
| `SimSwap.SimBackend.Run` | station_agent/module_ota_sim.py:79-151 | one call: only a successful verification changes the accepted binary, and then to the live one |
| `SimSwap.SimBackend.Crash` | station_agent/module_ota_sim.py:118-138 | a loss of power brings back any state since the last sync, with what was accepted then, and it is sound |
| `SimSwap.SimBackend.Lifetime` | station_agent/module_ota_sim.py:79-183 | after any calls and losses of power the disk is sound; a durable acceptance changes only with a successful verification and only to a pinned image, and a rollback that completes leaves exactly the accepted binary |
| `VerifyLoop.OutcomesExclusive` | station_agent/module_ota.py:404-415 | a log of reads is at most one of confirmed, reverted and timed out |
| `VerifyLoop.PollOnTarget` | station_agent/module_ota.py:423-437 | a trusted target read opens the confirm window or, at its end, confirms |
| `VerifyLoop.PollTimedOut` | station_agent/module_ota.py:438-444 | reaching the extended deadline undecided is a time-out in terms of the log |
| `VerifyLoop.Poller.Verify` | station_agent/module_ota.py:404-454 | terminates; commits only on a target read after settling and another a full window later with no other trusted read, reports exactly one verdict, and with exact time ends within timeout, window and grace |
| `DfuBudget.DfuBackend.SpendRetry` | station_agent/module_ota_dfu.py:229-233 | a retry is persisted before it is used, or not at all |
| `DfuBudget.DfuBackend.DownloadLoop` | station_agent/module_ota_dfu.py:223-254 | terminates inside the budget; the device's answers in order determine the outcome, every one but the last left the module stuck in DFU mode, stuck means the budget is spent, and it raises exactly if a save failed |
| `DfuBudget.DfuBackend.Flash` | station_agent/module_ota_dfu.py:116-139 | sends nothing without port, module or line; else the replies determine the outcome, and stuck means every download of the budget went; the budget holds at every crash point |
| `DfuBudget.DfuBackend.Recover` | station_agent/module_ota_dfu.py:144-176 | does nothing without a module in DFU mode; answers stuck and sends nothing unless the image lies in the firmware directory and its digest matches the marker; otherwise its answer is told by the device's answers |
| `DfuBudget.DfuBackend.Lifetime` | station_agent/module_ota_dfu.py:116-176 | one flash and any number of crashes and restarts send at most one download plus the retries, only ever of the marker's file, and recoveries send only the verified image |
| `FlashCycle.ModuleOta.DownloadAndFlash` | station_agent/module_ota.py:379-402 | calls the backend exactly when the image is there and both saves of the marker worked, and then once under a persisted flashing marker; the result is told by the backend's answer, the verify poll and the server |
| `FlashCycle.ModuleOta.PauseWhenIdle` | station_agent/module_ota.py:557-569 | the slot stays paused exactly when it was found idle |
| `FlashCycle.ModuleOta.Finish` | station_agent/module_ota.py:519-527 | resumes the slot; the marker is gone, or unchanged if its removal failed |
| `FlashCycle.ModuleOta.FlashNow` | station_agent/module_ota.py:359-375 | every exit leaves the pause registry as it was; busy exactly if the slot is not idle, with nothing called or persisted; otherwise the result of the flash, or failed if a step raised |
| `FlashCycle.ModuleOta.FinishFromMarker` | station_agent/module_ota.py:467-517 | recovery never flashes, resumes the slot on every exit and keeps the marker exactly for busy or a failed removal; a downloaded marker calls no backend and succeeds only on the target version, a flashing one has the result that recovery and poll tell |
| `FlashCycle.ModuleOta.RunOnce` | station_agent/module_ota.py:282-375 | a leftover marker is finished before anything new, and no exit leaves a slot paused |
| `FlashCycle.ModuleOta.Lifetime` | station_agent/module_ota.py:379-527 | over any cycles and crashes a downloaded marker on disk proves its image was never handed to the backend |
| `KernelArgs.SkipBlanks` | station_agent/boot_markers.py:131-132 | stops at the first non-blank |
| `KernelArgs.ScanToken` | station_agent/boot_markers.py:134-148 | finds the token's end outside quotes and the first equals sign of its body |
| `KernelArgs.BuildValue` | station_agent/boot_markers.py:154-161 | the index arithmetic is the value text without its quotes, as defined on the text alone and pinned for every form by the `Reads` lemmas below |
| `KernelArgs.BuildArg` | station_agent/boot_markers.py:149-164 | the index arithmetic on the line is the parse of the token's text alone |
| `KernelArgs.Tokenize` | station_agent/boot_markers.py:120-166 | the loop yields what reading every cut of the line yields, with the cuts as `CutsCover` and the texts as the `Reads` lemmas say |
| `KernelArgs.CutsCover` | station_agent/boot_markers.py:139-148 | a position of the line belongs to a token if and only if it is no blank or an odd number of quotes comes before it |
| `KernelArgs.CutsApart` | station_agent/boot_markers.py:165-166 | tokens are in order with at least one position between them that belongs to none |
| `KernelArgs.BlankMeans` | station_agent/boot_markers.py:116-117 | exactly these seven characters separate tokens |
| `KernelArgs.PlainValueReads` | station_agent/boot_markers.py:149-161 | a value without a leading quote is taken as it is, a trailing quote included |
| `KernelArgs.QuotedValueReads` | station_agent/boot_markers.py:155-158 | a value's leading quote goes, and the token's trailing one with it if there is one |
| `KernelArgs.WholeTokenReads` | station_agent/boot_markers.py:134-163 | of a token in quotes the leading quote goes, and the trailing one if there is one, for a flag as for a value |
| `KernelArgs.WholeTokenQuotedValueReads` | station_agent/boot_markers.py:155-161 | a quoted value inside a quoted token loses one pair of quotes only |
| `KernelArgs.ArgsConcat` | station_agent/boot_markers.py:120-166 | with an even number of quotes in `s` the arguments of `s`, a blank and `t` are those of `s` followed by those of `t` |
| `KernelArgs.ConcatIffEvenQuotes` | station_agent/boot_markers.py:141-146 | that law holds of `s` for every continuation if and only if `s` has an even number of quotes |
| `KernelArgs.PrintRoundTrip` | station_agent/boot_markers.py:120-166 | any list of arguments, each bare, with its value in quotes or wholly in quotes, joined by any blank, survives being printed and tokenized |
| `BootMarkers.LastMeans` | station_agent/boot_markers.py:182-186 | the last occurrence is absent if and only if the key is, and else says what its last occurrence says |
| `BootMarkers.FillMarkers` | station_agent/boot_markers.py:179-187 | the two-dictionary loop yields each marker's last kernel-side occurrence, else its last one after `--` |
| `BootMarkers.ParseBootMarkers` | station_agent/boot_markers.py:169-199 | the parse of a line is that of its arguments |
| `BootMarkers.AppendedMarkerWins` | station_agent/boot_markers.py:172-177 | a marker appended in any of these styles to a line with closed quotes wins, unless it lands behind `--` and the kernel side has one; without a value it reads as the empty text |
| `BootMarkers.BareMarkerBlocks` | station_agent/boot_markers.py:169-187 | a bare marker flag appended where it counts blocks the commit |
| `BootMarkers.LegacyIffNoMarker` | station_agent/boot_markers.py:78-81 | the line is legacy if and only if no marker param occurs anywhere on it |
| `BootMarkers.OverlaysRoundTrip` | station_agent/boot_markers.py:52-65 | every non-empty list of valid names survives the `ok:` and `failed:` forms |
| `BootMarkers.OverlaysParseOnlyWritten` | station_agent/boot_markers.py:52-65 | nothing but those forms, `ok` and `ok:` parses, and a failure names at least one overlay |
| `BootMarkers.BlockedIffUnhealthy` | station_agent/boot_markers.py:83-113 | on every line the blocker list is empty if and only if every reported metric is healthy |
| `BootMarkers.BlockerNamesIff` | station_agent/boot_markers.py:91-98 | a blocker names exactly the overlays of a written failure, and malformed is exactly what is neither good nor a written failure |
| `BootMarkers.Stage2BlocksIff` | station_agent/boot_markers.py:86-90 | stage 2 blocks with exactly its own text, known or unknown, unless it is ok |
| `BootMarkers.MetricsMean` | station_agent/boot_markers.py:100-113 | a metric is reported exactly with its marker, and the overlay metric is the number of overlays that failed |
| `BootMarkers.MetricsAgreeIffNamed` | station_agent/boot_markers.py:83-113 | for arbitrary marker values that agreement needs a failure to name an overlay, unless stage 2 blocks anyway |
| `BootMarkers.OpensIff` | station_agent/boot_markers.py:247-259 | the gate opens for exactly the lines whose stage 2 marker is absent or ok and whose overlay marker is absent or a well-formed ok |
| `BootMarkers.Check` | station_agent/boot_markers.py:231-259 | the health check over every reading: a hidden or unreadable command line never passes, a missing one only without procfs, a line exactly when the gate opens for it |
| `Digits.IncrementReads` | station_agent/bootloader.py:255-258 | decimal digits incremented in hexadecimal read in decimal as one more, or, after a 9, as the number without its last digit |
| `BootScript.Bootloader.SetUpgradePending` | station_agent/bootloader.py:206-251 | with a loader and a valid slot exactly one write opens the trial and its outcome is the answer; an invalid slot writes nothing |
| `BootScript.Bootloader.CommitBootLocal` | station_agent/bootloader.py:186-203 | exactly one write closes the trial and clears the counter, and its outcome is the answer |
| `BootScript.Bootloader.ArmTrialRollback` | station_agent/bootloader.py:289-331 | does what the specification of arming does: nothing without a bootloader, a listing and a limit in 1..8; never lowers a counter at or over the limit |
| `BootScript.ArmTrialMeans` | station_agent/bootloader.py:305-331 | arming answers true if and only if there is a loader, a listing and an armable limit and the counter is at it already or the write is done; it makes a lower counter exactly the limit and touches nothing else |
| `BootScript.ArmedRollsBack` | station_agent/bootloader.py:289-304 | arming that succeeds with a counter not over the limit makes both scripts roll back at the next boot |
| `BootScript.UbootRollsBackIff` | station_agent/bootloader.py:318-323 | with a counter at or over the limit the hexadecimal script rolls back if and only if the counter does not end in 9 or its other digits exceed the limit |
| `BootScript.GrubRollsBack` | station_agent/bootloader.py:298-299 | with a counter at or over the limit the saturating script always rolls back |
| `BootScript.BoundIsTight` | station_agent/bootloader.py:255-258 | with the limit itself as the counter the hexadecimal script rolls back if and only if the limit does not end in 9 |
| `BootScript.BoundIsLargest` | station_agent/bootloader.py:255-258 | 8 is the largest bound such that arming with any limit up to it makes the hexadecimal script roll back |
| `BootScript.ArmedPastLimitExample` | station_agent/bootloader.py:318-323 | arming succeeds over counter 9 with limit 3 and the next boot stays on the slot |
| `BootScript.TrialExpires` | station_agent/bootloader.py:292-299 | an unattended trial gets exactly its limit of boots (at most five under the saturating script) and then rolls back |
| `BootScript.NewTrialExpires` | station_agent/bootloader.py:206-251 | a newly opened trial boots its target exactly as often as the limit allows, three times without one, and then the other slot with the trial closed |
| `TrialBoot.VerifyAndCommit` | station_agent/agent.py:470-659 | refuses exactly when version, environment or guard are not trusted; otherwise a failed gate in an open trial arms the rollback as specified, failed checks change nothing, and passed ones commit locally and answer committed exactly if the write and the server took it; takes exactly those steps of the trial boot transition system |
| `TrialBoot.DecisionIsFresh` | station_agent/agent.py:470-659 | in every run each commit and each armed rollback directly follows its own checks and those a trusted read, with no reboot or restart in between |
| `TrialBoot.AcceptsIff` | station_agent/agent.py:562-607 | over every run since a trial was opened the guard accepts if and only if no boot rolled back and no boot followed a local commit |
| `TrialBoot.NoCommitAfterRollback` | station_agent/agent.py:535-607 | between a rollback and any later commit a new trial was opened, whatever versions the slots carry |
| `TrialBoot.RunningSlot` | station_agent/bootloader.py:292-304 | the slot to boot, and after a boot the slot that runs, is the trial's until a rollback and the other one after |
| `TrialBoot.CommitsTrialSlot` | station_agent/agent.py:583-607 | a commit after a boot of the trial commits the trial's slot |
| `TrialBoot.OpenCount` | station_agent/bootloader.py:292-304 | in every run the counter of an open trial is one decimal digit and not over an armable limit |
| `TrialBoot.ArmedBootRollsBack` | station_agent/agent.py:661-688 | in every run an armed rollback is taken by the next boot under either script, and the other slot runs |
| `Debouncer.RetainedIff` | station_agent/control_client.py:72-92 | the kept entry and counter agree with the history: retained with the latest unpaused sighting if and only if not dropped since and no run of misses was too long |
| `Debouncer.ShownIff` | station_agent/control_client.py:93-102 | a slot is shown if and only if it is retained or paused with a snapshot, and as what |
| `Debouncer.SlotInventoryDebouncer.Retain` | station_agent/control_client.py:79-82 | every slot found is kept with its new entry and no misses; no other slot changes |
| `Debouncer.SlotInventoryDebouncer.Age` | station_agent/control_client.py:83-92 | every other slot moves as one miss, or as one pause, says |
| `Debouncer.SlotInventoryDebouncer.Report` | station_agent/control_client.py:93-103 | reports exactly the shown slots, strictly increasing |
| `Debouncer.SlotInventoryDebouncer.Update` | station_agent/control_client.py:77-103 | one call extends the history by one scan and reports what the whole history shows, strictly sorted |
| `Debouncer.SlotInventoryDebouncer.LastGood` | station_agent/control_client.py:105-106 | answers an entry if and only if the history retains it |
| `Debouncer.SlotInventoryDebouncer.Forget` | station_agent/control_client.py:108-116 | extends the history by dropping the slot |
| `Subscriptions.CountIsZeroIff` | apps/audio/subscriptions.py:96-98 | the count of a stream is zero if and only if nobody listens |
| `Subscriptions.SignalIffChange` | apps/audio/subscriptions.py:36-63 | an operation signals start or stop for a stream exactly when it changes whether anyone listens |
| `Subscriptions.SignalsTrackDemand` | apps/audio/subscriptions.py:13-93 | over any calls the signals of a stream strictly alternate, and obeying them means producing exactly what is in demand |
| `Subscriptions.SubscribedIff` | apps/audio/subscriptions.py:13-93 | over any calls a row is in the table if and only if it was there or subscribed and neither an unsubscribe nor a drop of its channel has ended it since |
| `Subscriptions.AudioDemand.Subscribe` | apps/audio/subscriptions.py:13-40 | adds the row, returns the true new count, and first exactly when the start signal is due |
| `Subscriptions.AudioDemand.Unsubscribe` | apps/audio/subscriptions.py:43-63 | removes the row, returns the true new count, and last exactly when the stop signal is due |
| `Subscriptions.AudioDemand.DropChannel` | apps/audio/subscriptions.py:66-93 | removes the channel's rows and returns, each once, exactly the streams whose stop signal is due |
| `OtaStream.Partition.WriteAll` | station_agent/ota.py:37-41 | under any partial writes all bytes arrive in order, or a prefix of them exactly if a write took none |
| `OtaStream.InstallToSlot` | station_agent/ota.py:566-605 | the partition holds a prefix of the image and is untouched behind it; installed means all of it is on the medium, bad image exactly that a read found the archive corrupt, I/O error exactly that a read, write or sync failed; never more than the sync interval plus a chunk less one byte is unsynced |
| `OtaStream.Downloader.Store` | station_agent/ota.py:265-286 | succeeds exactly if no file operation failed, and then appends or replaces exactly the body; an error removes the file if it can; every crash point of a body that continues the image is a prefix of it |
| `OtaStream.Downloader.VerifyChecksum` | station_agent/ota.py:291-329 | with a readable file true exactly for an empty checksum or a matching file; false removes the file if it can |
| `OtaStream.Downloader.Download` | station_agent/ota.py:130-288 | a partial that is a prefix of the image stays one at every crash point; a complete partial is only checked, another is continued from its end by a Range request, and 416 or a wrong Content-Range starts over once; with no file operation failing the answer is exactly the check of the stored file, whatever the partial was |
| `OtaStream.Downloader.Lifetime` | station_agent/ota.py:130-288 | the same over any number of downloads and crashes |

## Left out

Assumed of the environment:

- The boot scripts are modelled as `station_agent/bootloader.py` and `station_agent/agent.py` describe them; `test` reads the leading decimal digits of its operand and `setexpr` its leading hexadecimal digits.
- A write to a block device or terminal that succeeds takes at least one byte, and a server answers 206 only to a Range request and truthfully about its start (section 14.4 of RFC 9110).
- Python's `isdigit` and `strip` are modelled on ASCII; an environment value with other Unicode digits would raise.

Not modelled:

- `on_disconnect` and the broker's shutdown, which delete keys from a snapshot across awaits.
- The `scanning`, `active` and `hang` progress frames and their duplicate suppression; only held and stopped frames are kept.
- `scan_start` with an empty or malformed list, and scan ids of control messages that do not match.
- ConnectionLostIff: does not model a device command or a validation that raises inside `handle_command` and also ends the connection (`station_agent/broker.py:242-264`); it is about the hold before it.
- tx_route moved by an operator's own command to the audio router; `ScanRadio` speaks of the scanner's moves, asked for whether or not they took effect.
- Telemetry subscriptions, virtual modules, preset application and the inventory message of the broker.
- Serial byte I/O and JSON: one device command is one step with an arbitrary result.
- Probe conversations of `slot_discovery`; the pause theorems are about the `SlotControl` path.
- Reports, events and message texts of a flash cycle, and the instruction checks of `run_once` before the pause.
- `Marker.load` accepts a negative retry counter written by something other than the agent; the budget is proved for markers the agent created.
- Image selection, signing, slot labelling and the choice of the inactive slot; whether the old slot can be overwritten after a lost status report.
- `ScanSystem` and `PauseGate` model coroutines on values, event by event, since an await can only be interleaved there; the objects' own updates are the classes in `PttBroker` and `ScanList`.
- The Django server apart from `apps/audio/subscriptions.py`: views, permissions, consumers, audio routing.

# Verification of the cascade, outbox, signing and shutdown protocols

This project models the parts of the repository where several goroutines, several database
writers or an unbounded input meet, and proves what they keep.

* **Cascade broadcast tasks** (`talk_lease`, `broadcast_*`). One broadcast MESSAGE is a row whose
  JSON summary is rewritten by the Notify completion, the device result, the delivery claim, the
  delivery finish and the audio INVITE claim, plus recovery and sweeping. Each writer reads the
  row, plans, and writes only if the row is unchanged. `BroadcastRuns` is the machine of all
  interleavings of those reads and writes, with sends, crashes and arbitrary clock readings;
  `BroadcastTheorems` holds the results over its runs, `BroadcastWriters` says which writer may change which field and
  to what, and `BroadcastProgress` what a goroutine brings about when nobody interferes. `BroadcastStore` is the same
  code as transactions of a class, with the recover and sweep loops, and `BroadcastHandlers` composes them into the two
  message handlers.
* **Audio dialogs** (`audio_sessions`). The registry of audio dialogs and the steps of the clean-up that ends each of
  them, against the business path that may take the end over.
* **Alarm outbox** (`alarm_*`). A queued alarm with its frozen list of dialogs, claimed by any number
  of workers under a lease; every statement carries a clock reading that may be older than the
  moment it runs. `AlarmClose` tells what becomes of the row from the replies that its owner met.
* **Event subscriptions** (`event_*`). Refresh, the session goroutine, event senders, reload and
  termination of the subscriptions opened under one key, with the send lock, the To tag, the generation
  counter and the 32-bit CSeq counter.
* **Request signing** (`openapi_*`). Strict UTF-8, percent coding, the canonical query, the
  validators and the eleven-line canonical string. `OpenApiReference` and `OpenApiLines` state what they accept and
  build in code points, apart from the functions that compute it.
* **JSON validation** (`json_*`). The grammar as syntax trees that keep every blank and spelling,
  the parser as a function, its inverse, the numbers with their decimal value and range, and the parser
  object with its position. `JsonEscapes`, `JsonNumerals` and `JsonCompact` state the accepted strings, numbers, blanks
  and brackets in code points.
* **Shutdown and reload** (`shutdown_*`). Shutdown generations, quiescing, process stop, reload and
  finalisation in every interleaving; `ShutdownProgress` is one stop without interference.
* **Release sequences** (`upgrade_sequence`). Acceptance of manifest sequence numbers with failing writes.

Code that changes state in place is a class whose methods are proved to act as a function on the
state; the theorems are then lemmas about that function over whole runs. Code and documentation
disagree, or a natural expectation fails, at these points; the model follows the code:

* An alarm worker sends the list that its SELECT read, while the UPDATE of the claim checks only the
  attempt counter and the lease. A checkpoint that runs late, with a clock reading from before
  its lease ended, can land between the two. The next worker then may send again to a dialog recorded
  sent, overwrite its status (`AlarmFindings.LateCheckpointIsUndone`), or complete an alarm whose row records a
  refusal (`AlarmFindings.CompletedOverRefusal`). `AlarmExact` says for each of the three, at the claim,
  exactly when it can happen. Checkpoints that take effect at their own clock reading exclude all of them
  (`AlarmTheorems.PunctualCheckpointsPreventStaleClaims`).
* An audio claim can fail because of a concurrent device result (`BroadcastRace.ResultDefeatsClaim`), but only if
  that result commits between the claim's own read and its UPDATE; rows without a local source never pass the
  comparison when the platform has one (`BroadcastTheorems.ClaimSucceedsExactly`).
* The clean-up of an audio dialog reads under the lock whether the business path owns the end, and writes the row
  after it. A device's ERROR that marks the dialog in between finds the row closed, the lease freed and its own
  result refused (`AudioSessions.LateBusinessEndLosesTheRow`); `AudioSessions.BusinessEndOwnsTheRow` and
  `AudioSessions.LeftAloneExactly` say exactly when the row is left alone.
* A renewal accepted while the session waits for its expiry can be followed by the old expiry timer, which ends the
  renewed subscription (`EventFindings.RenewedButTimedOut`, exactly: `EventRenewals.RenewedTimesOutExactly`).
* A subscription that replaces a terminated one numbers its NOTIFYs from 1, also when the upstream
  keeps the To tag, so that one dialog sees numbers again (`EventFindings.SuccessorNumbersFromOne`, exactly:
  `EventDialogs.KeptTagRepeatsExactly` and `EventDialogs.DialogsAscendExactly`).
* The 32-bit CSeq counter wraps, but only for a subscription that is renewed 2^31 - 6 times
  (`EventWrap.FewRenewalsKeepOrder`, `EventWrap.CounterWraps`).
* The canonical query may exceed the limit of the raw query, so canonicalising twice can be
  refused (`Query.CanonicalMayOverflow`, `Query.CanonicalTwice`).
* A comment says that a process stop keeps the control-plane references for a retry when the SIP
  generation failed; finalisation drops them although the control plane was never stopped
  (`ShutdownTheorems.FailingStopDropsControlPlane`, `ShutdownTheorems.ControlPlaneStoppedExactly`).
* Start does not look at the active shutdown run; called during a reload that captured nothing it
  assembles a generation that the end of the reload drops (`ShutdownLost.StartDuringReloadIsLost`). A generation
  can be lost if and only if its Start met an active run (`ShutdownLost.LostExactlyIfStartMeetsRun`).

## Model

| member | source | states |
|---|---|---|
| TalkLease.LeaseHistory | server/app/gb28181/talk/cascade_lease.go:19-79 | Over any run of cascade and browser lease calls a channel has at most one live lease, leases are never forgotten or rebound, and an ended one is frozen |
| TalkLease.EndFreesChannel | server/app/gb28181/talk/repo.go:384-402 | The end of a live lease, browser or cascade, leaves its channel free and every other lease as it was |
| TalkLease.LeaseTable.ReserveCascadeLease | server/app/gb28181/talk/cascade_lease.go:19-33 | A reservation succeeds exactly for a well-formed identity, an unused id and a channel without a live lease; it adds that reserved lease alone, and keeps one live lease per channel |
| TalkLease.LeaseTable.ActivateCascadeLease | server/app/gb28181/talk/cascade_lease.go:50-57 | Exactly a reserved, unexpired cascade lease is activated, with the later expiry that was asked for |
| TalkLease.LeaseTable.RenewCascadeLease | server/app/gb28181/talk/cascade_lease.go:59-67 | Exactly an active, unexpired cascade lease is renewed |
| TalkLease.LeaseTable.ReleaseCascadeLease | server/app/gb28181/talk/cascade_lease.go:69-79 | Release ends a live cascade lease; a second release, or a non-terminal target, changes nothing |
| BroadcastTheorems.NoLostUpdate | server/app/gb28181/cascade_broadcast_lease.go:78-277 | For every interleaving of reads and conditional writes: Notify status, device result and audio transaction are write-once, delivered never reverts, attempts never fall, the state rank never falls and terminal states are closed as a set |
| BroadcastTheorems.RunIsSerial | server/app/gb28181/cascade_broadcast_lease.go:78-277 | Every interleaving leaves exactly the tables of its log, the operations of the transactions that reported success in commit order, run one after the other, and each of them succeeds there too |
| BroadcastWriters.EachFieldHasOneWriter | server/app/gb28181/cascade_broadcast_lease.go:78-277 | Of two successive tables: the Notify status changes only in a Notify completion and to its status, the device result only in its record and to that answer, the attempts only in a grant, delivered only in a finish, the audio transaction only in a claim, the state only as the writer at work says, and everything else never |
| BroadcastWriters.LeasesEndWithTheirTask | server/app/gb28181/cascade_broadcast_lease.go:78-277 | Apart from lease calls and the reservation of a new task, a step changes leases only when it ends a task or records its ERROR, and then it fails the live lease of that task and no other |
| BroadcastWriters.RecordsHaveASource | server/app/gb28181/cascade_broadcast_lease.go:78-277 | In every run a recorded device result was answered by the device, a claimed audio transaction came in an INVITE, and a stored Notify status is 200, 403 or 502 |
| BroadcastWriters.UpdateLeaves | server/app/gb28181/cascade_broadcast_lease.go:78-124 | The Notify completion succeeds exactly on the row that it read, unless the task ended and it does not end it; it leaves that row with the status stored if none was, and ended with its lease freed if it ends it |
| BroadcastWriters.RecordLeaves | server/app/gb28181/cascade_broadcast_lease.go:130-169 | A result is recorded exactly on the open row that was read, without another result, and changes the result alone, with the lease freed on ERROR |
| BroadcastWriters.GrantLeaves | server/app/gb28181/cascade_broadcast_lease.go:225-277 | A grant succeeds exactly on the open row that was read, with a recorded, undelivered result and a due retry clock, and changes time and attempts alone |
| BroadcastWriters.FinishLeaves | server/app/gb28181/cascade_broadcast_lease.go:179-223 | A finish succeeds exactly on the row that was read, with this result undelivered, and sets the flag and the state alone |
| BroadcastWriters.ClaimLeaves | server/app/gb28181/cascade_audio_binding.go:233-291 | An audio claim that succeeds sets the audio transaction alone, on a row without another one |
| BroadcastProgress.MessageIsAnswered | server/app/gb28181/cascade_broadcast.go:203-241 | A new MESSAGE that nobody interferes with is reserved, sent to the device at most once and answered 200, 403 or 502; the row is the drafted one with that status, open only for 200 |
| BroadcastProgress.UpdateIsReplied | server/app/gb28181/cascade_broadcast.go:226-244 | Whatever other writers did, the upstream is answered as decided if the row is as it was read, and open for a 200; otherwise nothing is written and a 200 becomes 503 |
| BroadcastProgress.AnswerIsForwarded | server/app/gb28181/cascade_broadcast.go:304-340 | A device answer for a waiting task whose retry clock allows an attempt is recorded, granted, sent upstream once and, if accepted, delivered |
| BroadcastProgress.ListedExactly | server/app/gb28181/cascade_broadcast_lease.go:342-449 | Recovery and sweep take up exactly the open rows whose recorded result was not delivered |
| BroadcastProgress.TaskIsEnded | server/app/gb28181/cascade_broadcast_lease.go:78-124 | Ending a task changes only the state of an open row and fails its lease |
| BroadcastProgress.ClaimIsPermittedExactly | server/app/gb28181/cascade_audio_binding.go:202-258 | The permission of an audio claim is authorisation together with a live, unexpired lease for the row's own channel, device and target |
| BroadcastProgress.ActivationMovesOn | server/app/gb28181/cascade_broadcast_audio_runtime.go:295-313 | An activation that nobody interferes with takes a provisioning or answered task to active and leaves every other one alone |
| BroadcastTheorems.EndedTaskHoldsNoLease | server/app/gb28181/cascade_broadcast_lease.go:100-119 | In every reachable state a terminal task, or one whose device result is ERROR, owns no live lease, and no channel has two live leases |
| BroadcastTheorems.DeviceNotifiedOnce | server/app/gb28181/cascade_broadcast.go:203-241 | For any number of copies of one MESSAGE and crashes anywhere, at most one Notify is sent for the task, and a stored 200 means the device accepted it |
| BroadcastTheorems.ForeignCopyRefused | server/app/gb28181/cascade_broadcast_lease.go:27-74 | A copy whose content hash differs from the stored one is only ever answered 409, 486 or 503 |
| BroadcastTheorems.SendsAreGrantedAndTrue | server/app/gb28181/cascade_broadcast.go:316-346 | Upstream sends of a task never exceed its recorded attempts, all carry the one recorded result, and delivered implies that a 2xx was received |
| BroadcastTheorems.GrantsFollowRetryClock | server/app/gb28181/cascade_broadcast_lease.go:225-277 | Grant i+1 comes at least the capped exponential delay after grant i, n grants span at least the sum, and the attempt counter is the number of grants |
| BroadcastDelivery.RetryDelayTable | server/app/gb28181/cascade_broadcast_lease.go:246-256 | The delay computed by doubling and capping is 5, 10, 20, 40, 80, 160 and then 300 seconds |
| BroadcastTheorems.RacersGetOneGrant | server/app/gb28181/cascade_broadcast_lease.go:225-277 | Of workers that read the same row at most one gets the delivery grant, however late the others write |
| BroadcastTheorems.ClaimHasOneWinner | server/app/gb28181/cascade_audio_binding.go:233-291 | After a successful claim the row keeps that audio transaction and any recorded result for ever; later successful claims are for the same transaction |
| BroadcastTheorems.ClaimSucceedsExactly | server/app/gb28181/cascade_audio_binding.go:217-291 | A claim commits if and only if it was permitted, read a row that accepts audio with its own local source and no other transaction, and no writer committed since that read |
| BroadcastRace.ResultDefeatsClaim | server/app/gb28181/cascade_audio_binding.go:233-291 | A run in which a permitted claim reads the row, a device result commits, and the UPDATE of the claim misses |
| BroadcastAudio.StableExactly | server/app/gb28181/cascade_audio_binding.go:35-82 | Whatever other writers commit after the INVITE was resolved, the stable comparison holds exactly when the row has a local source or the platform has none |
| BroadcastStore.Store.UpdateBroadcast | server/app/gb28181/cascade_broadcast_lease.go:78-124 | As one transaction it is the conditional commit of the Notify-completion plan, or nothing on a store fault; BroadcastWriters.UpdateLeaves has the row that it leaves |
| BroadcastStore.Store.RecordBroadcastResult | server/app/gb28181/cascade_broadcast_lease.go:130-169 | As one transaction it is the commit of the result plan, with the lease release on ERROR |
| BroadcastStore.Store.ClaimBroadcastResultDelivery | server/app/gb28181/cascade_broadcast_lease.go:225-277 | As one transaction it is the commit of the delivery-grant plan |
| BroadcastStore.Store.FinishBroadcastResult | server/app/gb28181/cascade_broadcast_lease.go:179-223 | As one transaction it is the commit of the delivery-finish plan |
| BroadcastStore.Store.ReserveBroadcast | server/app/gb28181/cascade_broadcast_lease.go:27-74 | Task row and channel lease are inserted together or not at all, exactly for a new key, an authorised peer and a free channel; an existing row decides by kind, CSeq and hash |
| BroadcastStore.Store.Recover | server/app/gb28181/cascade_broadcast_lease.go:342-385 | Whether or not failures are reported, ended rows are untouched, a row waiting for its result is not ended unless it was delivered or is not authorised, and what else ends is Aborted; without a failure every task still open waits for a recorded, undelivered result and no cascade-audio lease is live; a failure has a fault of the environment or an undecodable row as its cause |
| BroadcastStore.Store.Sweep | server/app/gb28181/cascade_broadcast_lease.go:399-449 | An open row without a waiting result that is authorised, holds a live lease expiring after now and is claimed or younger than thirty seconds keeps its row and lease; what ends without a waiting result is Aborted exactly if not authorised and Failed otherwise; ended rows are untouched; without a failure every task still open was pending at the start or is such a row, and every pending one was delivered, unless its retry clock allowed no attempt or it ended for want of authorisation; a failure has a fault, an undecodable row or an attempted delivery as its cause |
| BroadcastHandlers.HandleMessage | server/app/gb28181/cascade_broadcast.go:203-245 | Without interference: a task is created exactly if its key is new, the peer is authorised and the channel is free, and the row is the drafted one with only the Notify status and perhaps its end set; a 200 means that the device accepted the Notify and authorisation still held; 403 and 502 mean that the row ended with that status and a free lease unless the update failed; an existing row sends nothing and is answered by its status, 491 or 409 |
| BroadcastHandlers.RouteResult | server/app/gb28181/cascade_broadcast.go:304-342 | Without interference: the grant is given exactly for an open, undelivered row with no other result whose retry clock is due, unless the store fails or the audio dialog of a refused task does not end; it records the result and adds one attempt, finishing needs a grant and an accepted answer and sets the delivered flag and the state, and no other row changes |
| BroadcastGate.DrainedForEver | server/app/gb28181/cascade_broadcast.go:368-402 | done is closed once, exactly when closed and idle, and nothing runs afterwards |
| BroadcastGate.Runtime.Release | server/app/gb28181/cascade_broadcast.go:368-402 | Leaving the last admitted call after closing closes done |
| AudioSessions.RunKeepsOnePerKey | server/app/gb28181/cascade_broadcast_audio_runtime.go:145-189 | Over any run of registrations, hang-ups, clean-up steps and removals a task has at most one audio dialog |
| AudioSessions.BusinessEndOwnsTheRow | server/app/gb28181/cascade_broadcast_audio_runtime.go:392-504 | Once the business path has marked a dialog, its clean-up can still write the row or free the lease if and only if it had read the flag before and is not done |
| AudioSessions.LeftAloneExactly | server/app/gb28181/cascade_broadcast_audio_runtime.go:470-508 | A dialog that was cleaned up and removed left its row and lease alone if and only if the business path ended its task before the clean-up read the flag |
| AudioSessions.LateBusinessEndLosesTheRow | server/app/gb28181/cascade_broadcast_audio_runtime.go:496-504 | The run in which the mark comes after the flag was read: the row is closed, the lease freed and the device's ERROR refused |
| AudioSessions.QuietWithoutWrite | server/app/gb28181/cascade_broadcast_audio_runtime.go:470-508 | Apart from those two writes no step of a clean-up changes the tables |
| AudioSessions.AudioRuntime.RegisterDialog | server/app/gb28181/cascade_broadcast_audio_runtime.go:157-166 | A second dialog for a task is refused and changes nothing |
| AudioSessions.AudioRuntime.StopForBusinessEnd | server/app/gb28181/cascade_broadcast_audio_runtime.go:392-415 | Exactly the dialog of the task is marked and cancelled |
| AudioSessions.AudioRuntime.HangUp | server/app/gb28181/cascade_broadcast_audio_runtime.go:335-360 | A BYE makes the dialog remember its side and cancels it |
| AudioSessions.AudioRuntime.ByesOf | server/app/gb28181/cascade_broadcast_audio_runtime.go:470-485 | A side that hung up gets no BYE, and the other one does exactly if its dialog stands |
| AudioSessions.AudioRuntime.ReadBusinessEnd | server/app/gb28181/cascade_broadcast_audio_runtime.go:494-499 | The flag is read under the lock and decides what the clean-up may still do |
| AudioSessions.AudioRuntime.CloseRow | server/app/gb28181/cascade_broadcast_audio_runtime.go:500-502 | The row is closed by the conditional commit of the plan made from the row that was read |
| AudioSessions.AudioRuntime.ReleaseLease | server/app/gb28181/cascade_broadcast_audio_runtime.go:503-504 | The lease is freed whatever became of the row |
| AlarmQueue.SelectTargets | server/app/gb28181/cascade_alarm_delivery.go:96-116 | The targets are exactly the ids of the eligible dialogs, each once and unsent; other dialogs are untouched |
| AlarmQueue.SelectionIsFrozen | server/app/gb28181/cascade/repository/repository.go:99-113 | Queuing the same alarm again never changes the first selection |
| AlarmTheorems.AtMostEightSends | server/app/gb28181/cascade_alarm_delivery.go:144-179 | In any run a dialog gets at most eight NOTIFYs, one per claim number |
| AlarmClose.ClosesExactly | server/app/gb28181/cascade_alarm_delivery.go:144-179 | In every run a row is decided exactly when the current owner closes its delivery; judged by the replies, refusals and lost checkpoints that the claim met, it is Sent if there was no trouble and no refusal, Pending after the doubled delay if there was trouble before the eighth attempt, and Failed otherwise |
| AlarmTheorems.CompletedWasAccepted | server/app/gb28181/cascade_alarm_delivery.go:245-302 | Crashes, lost leases and stale claims included, a completed alarm was accepted on every dialog |
| AlarmTheorems.EndedIsFinal | server/app/gb28181/cascade/repository/repository.go:115-168 | A row that was completed or given up never changes again, whatever workers do |
| AlarmStore.DeliveryRow.ClaimDelivery | server/app/gb28181/cascade/repository/repository.go:131-144 | The UPDATE claims exactly a row whose attempt counter is the selected one and that is pending with its time come or leased with its lease over, for fifteen seconds and under the next number |
| AlarmStore.DeliveryRow.CheckpointDelivery | server/app/gb28181/cascade/repository/repository.go:153-158 | The list is written exactly for the current, unexpired owner |
| AlarmStore.DeliveryRow.CompleteDelivery | server/app/gb28181/cascade/repository/repository.go:146-151 | The row is completed exactly for the current, unexpired owner |
| AlarmStore.DeliveryRow.RetryDelivery | server/app/gb28181/cascade/repository/repository.go:160-168 | For the current owner the row fails when its attempts are used up and waits again otherwise |
| AlarmStore.DeliveryRow.RetryAt | server/app/gb28181/cascade_alarm_delivery.go:163-170 | The retry delay is 1, 2, 4 and so on up to 1024 seconds, by the number of the attempt |
| AlarmTheorems.CompletedIsRecorded | server/app/gb28181/cascade/repository/repository.go:146-151 | In a run without a stale claim a completed alarm has every target recorded sent |
| AlarmExact.CompletesUnrecordedExactly | server/app/gb28181/cascade/repository/repository.go:115-151 | A claimed worker can complete the row with a target not recorded sent if and only if the list it selected is non-empty and all sent while the row's is not |
| AlarmFindings.CompletedOverRefusal | server/app/gb28181/cascade/repository/repository.go:115-158 | A run that ends completed with its only dialog recorded refused |
| AlarmTheorems.RecordedStatusIsFinal | server/app/gb28181/cascade_alarm_delivery.go:252-297 | In a run without a stale claim a recorded status never changes and no later claim sends to that dialog again |
| AlarmExact.StatusChangesExactly | server/app/gb28181/cascade/repository/repository.go:115-158 | A claimed worker can change a status settled in the row if and only if the list it selected has some unsettled target and differs from the row at a settled one |
| AlarmTheorems.PunctualCheckpointsPreventStaleClaims | server/app/gb28181/cascade/repository/repository.go:115-158 | If every checkpoint takes effect at its own clock reading, no claim is ever stale |
| AlarmFindings.LateCheckpointIsUndone | server/app/gb28181/cascade/repository/repository.go:115-158 | A run in which a recorded Sent becomes Revoked after a second send |
| AlarmExact.ResendExactly | server/app/gb28181/cascade/repository/repository.go:115-144 | The claimed worker can send to a dialog settled in the row if and only if the list it selected has that dialog unsettled |
| AlarmNotifies.DeliverAlarm | server/app/gb28181/cascade_alarm_delivery.go:245-302 | The in-place loop ends as the worker of the state machine does; up to the first lost checkpoint every unsent target takes its dialog's final answer, and no other target changes |
| AlarmNotifies.FinishesExactly | server/app/gb28181/cascade_alarm_delivery.go:245-302 | The delivery ends in completion if and only if every target was recorded sent before or is accepted and checkpointed now |
| EventTheorems.NotifiesInOrder | server/app/gb28181/cascade_event_subscriptions.go:400-541 | CSeq ascends within a subscription for its first 2^31 sends, after a terminated NOTIFY only its digest retry follows, and subscriptions of one key never overlap on the wire |
| EventWrap.FewRenewalsKeepOrder | server/app/gb28181/cascade_event_subscriptions.go:446-541 | However many it sends, a subscription with fewer than 2^31 - 6 SUBSCRIBEs numbers its NOTIFYs in ascending order |
| EventWrap.CounterWraps | server/app/gb28181/cascade_event_subscriptions.go:446-541 | A run with renewals during 2^31 sends in which one subscription numbers a second NOTIFY 1 |
| EventTheorems.AtMostOneRetry | server/app/gb28181/cascade/sipclient/notify.go:81-104 | One send puts at most two requests on the wire, so a subscription is terminated by one request and at most its retry |
| EventTheorems.TimerEndsLiveOnlyBeforeWakeUp | server/app/gb28181/cascade_event_subscriptions.go:429-442 | In every reachable state the expiry timer ends a live subscription exactly if its loop waits for a passed deadline, and then a renewal's wake-up is pending |
| EventRenewals.RenewedTimesOutExactly | server/app/gb28181/cascade_event_subscriptions.go:337-444 | After an accepted renewal some continuation without another one times the subscription out before its new expiry if and only if the renewal met the loop waiting for an earlier deadline |
| EventFindings.RenewedButTimedOut | server/app/gb28181/cascade_event_subscriptions.go:337-444 | A run in which a renewal by an hour is accepted and the old timer still times the subscription out |
| EventFindings.SuccessorNumbersFromOne | server/app/gb28181/cascade_event_subscriptions.go:173-233 | A run in which the next subscription of the key keeps the To tag and restarts at CSeq 1 |
| EventDialogs.SessionsNumberFromOne | server/app/gb28181/cascade_event_subscriptions.go:215-541 | In every run the first request of every session carries the number of that session's own call, counted from 1 |
| EventDialogs.KeptTagRepeatsExactly | server/app/gb28181/cascade_event_subscriptions.go:173-233 | A newly accepted session can repeat a number within its dialog if and only if a NOTIFY was already sent under its tag, and then the upstream kept the tag |
| EventDialogs.DialogsAscendExactly | server/app/gb28181/cascade_event_subscriptions.go:173-541 | The numbers of every dialog ascend if and only if each session that takes a dialog over starts above it; if first calls are never lost, if and only if none takes a dialog over |
| EventSession.Subscription.RefreshDialog | server/app/gb28181/cascade_event_subscriptions.go:337-383 | Refresh answers 481 for another tag or unless live, 500 unless the CSeq rises, and otherwise sets the new expiry and generation, makes a placeholder due and wakes the loop |
| EventSession.Subscription.EndActive | server/app/gb28181/cascade_event_subscriptions.go:463-503 | After the placeholder the counter is at the last number used; the result counts only for an unchanged generation, a rejection stops the placeholder, a deadline or the third failure ends the subscription, and another failure repeats the placeholder |
| EventSession.Subscription.EndEvent | server/app/gb28181/cascade_event_subscriptions.go:641-675 | After an event NOTIFY the counter is at the last number used, and for an unchanged generation a rejection, a deadline or the third failure ends the subscription |
| EventSession.Subscription.EndTerminated | server/app/gb28181/cascade_event_subscriptions.go:524-541 | After the terminated NOTIFY the session is done, with its reason as it was |
| EventSession.Subscription.RecordPlaceholderNotifyResult | server/app/gb28181/cascade_event_subscriptions.go:473-503 | A 4xx to the placeholder stops the placeholder and leaves the subscription's reason alone |
| EventSession.Subscription.RecordNotifyResult | server/app/gb28181/cascade_event_subscriptions.go:505-522 | Exactly a rejection, a deadline or the third failure in a row sets noresource and wakes the loop; a success clears the failures, anything else counts one |
| EventRejections.RejectedSendsNoMore | server/app/gb28181/cascade_event_subscriptions.go:505-522 | After a data NOTIFY of an unchanged generation was rejected, timed out or failed the third time, the session sends nothing but its terminated NOTIFY in every continuation |
| EventLifetime.SubscribeExactly | server/app/gb28181/cascade_event_subscriptions.go:173-233 | A SUBSCRIBE opens a session exactly for a positive expiry and a CSeq from 1 to 2^32 - 1, before shutdown, when the key's last session is done |
| EventLifetime.SubscriptionRunsOut | server/app/gb28181/cascade_event_subscriptions.go:400-541 | A subscription that is neither renewed nor used sends its placeholder as number 1 and, after its expiry, the terminated NOTIFY as number 2, and ends for timeout |
| EventSession.Subscription.BeginEvent | server/app/gb28181/cascade_event_subscriptions.go:641-675 | An event is sent exactly when the subscription is live, under the next CSeq |
| EventSession.Subscription.BeginActive | server/app/gb28181/cascade_event_subscriptions.go:446-462 | The placeholder is sent exactly when it is due and the subscription is live |
| EventSession.Subscription.BeginTerminated | server/app/gb28181/cascade_event_subscriptions.go:524-541 | The terminated NOTIFY takes the next CSeq under the send lock |
| EventSession.Subscription.TransmitOnce | server/app/gb28181/cascade/sipclient/notify.go:27-104 | A send transmits its number once and its digest retry under the next one, and nothing for a number outside 1 to 2^31 - 1 |
| EventSession.Subscription.TimerFired | server/app/gb28181/cascade_event_subscriptions.go:429-442 | The expiry timer gives a subscription without a reason the reason timeout |
| EventSession.Subscription.Revoke | server/app/gb28181/cascade_event_subscriptions.go:854-860 | Reload leaves a revoked subscription live at no time |
| Utf8.CodecsAgree | examples/openapi-java/OpenAPISignExample.java:415-437 | A text encodes to these bytes if and only if strict decoding of the bytes gives the text |
| Utf8.EncodeOneExactly | examples/openapi-java/OpenAPISignExample.java:415-437 | A code point is encoded to one, two, three or four bytes by its size, with these lead bytes and payload bits |
| Percent.DecodeEncodeComponent | examples/openapi-java/OpenAPISignExample.java:348-402 | Decoding inverts encoding on every string that has a UTF-8 form |
| OpenApiReference.EncodesExactly | examples/openapi-java/OpenAPISignExample.java:388-402 | The code of a byte string keeps letters, digits and -._~ and writes every other byte as a percent sign and two upper-case hexadecimal digits |
| OpenApiReference.DecodesExactly | examples/openapi-java/OpenAPISignExample.java:348-365 | Decoding gives these bytes if and only if the source spells them one by one, with digits of either case |
| Percent.DecodeComponent | examples/openapi-java/OpenAPISignExample.java:348-365 | The buffer-filling loop computes the percent decoding |
| Percent.EncodeComponent | examples/openapi-java/OpenAPISignExample.java:388-402 | The loop computes the percent encoding |
| Query.CanonicalIsComplete | examples/openapi-java/OpenAPISignExample.java:300-336 | Two accepted queries have the same canonical form if and only if they decode to the same key-to-value map |
| OpenApiReference.ReadExactly | examples/openapi-java/OpenAPISignExample.java:300-336 | A query reads as these pairs if and only if it is within 8192 bytes and its parts between ampersands are key=value with distinct decoded keys, without semicolons and plus signs |
| OpenApiReference.CanonicalExactly | examples/openapi-java/OpenAPISignExample.java:300-336 | A query has a canonical form exactly if it reads as pairs; the form writes the codes of those pairs in ascending order of the coded keys by code point |
| Query.CanonicalTwice | examples/openapi-java/OpenAPISignExample.java:300-336 | The canonical form is its own canonical form exactly when it is within the length limit, and is refused otherwise |
| Query.CanonicalMayOverflow | examples/openapi-java/OpenAPISignExample.java:300-336 | There is an accepted query whose canonical form is refused |
| Query.CanonicalQuery | examples/openapi-java/OpenAPISignExample.java:300-336 | The loop with its seen-set, sort and builder computes the canonical form or refuses |
| OpenApiCanonical.SplitsIntoElevenLines | examples/openapi-java/OpenAPISignExample.java:114-139 | The canonical string splits at line feeds into exactly its eleven lines |
| OpenApiLines.EachLine | examples/openapi-java/OpenAPISignExample.java:114-139 | Each of the eleven lines in its place: scheme, key, timestamp, nonce, upper-case method, path, query, content type, lower-case body hash, idempotency key and audience |
| OpenApiLines.AcceptsExactly | examples/openapi-java/OpenAPISignExample.java:114-139 | A request has a canonical string exactly if every field meets its format, stated on code points and lengths |
| OpenApiCanonical.CanonicalBindsContent | examples/openapi-java/OpenAPISignExample.java:114-139 | Two accepted requests have the same canonical string if and only if key, timestamp, nonce, upper-cased method, path, query map, content type, body hash, idempotency key and audience agree |
| OpenApiSigner.Canonical | examples/openapi-java/OpenAPISignExample.java:114-139 | The code builds the canonical string for exactly the acceptable requests |
| OpenApiSigner.IsPath | examples/openapi-java/OpenAPISignExample.java:275-298 | Accepts exactly absolute paths of allowed characters without empty, dot or trailing segments |
| OpenApiSigner.IsTimestamp | examples/openapi-java/OpenAPISignExample.java:199-214 | Accepts exactly canonical decimals that fit a signed 64-bit integer |
| OpenApiSigner.IsLineField | examples/openapi-java/OpenAPISignExample.java:220-236 | Accepts exactly encodable non-empty strings without CR, LF, NUL or DEL |
| JsonGrammar.ReadsExactly | examples/openapi-java/OpenAPISignExample.java:486-560 | A document is accepted with a syntax tree if and only if it is that tree's text and trailing blanks, with nesting at most 64, distinct keys, paired surrogate escapes, and numbers whose exponent and scale fit 32 bits |
| JsonGrammar.TreeSound | examples/openapi-java/OpenAPISignExample.java:493-520 | What the parser reads is well formed and spells the text it consumed |
| JsonGrammar.TreeComplete | examples/openapi-java/OpenAPISignExample.java:493-520 | Every well-formed value is read back from its text |
| JsonText.ReadSpellAll | examples/openapi-java/OpenAPISignExample.java:562-628 | Every spelling of a string is read back up to its closing quote |
| JsonEscapes.StringsExactly | examples/openapi-java/OpenAPISignExample.java:562-628 | A quoted text parses to a string if and only if it spells it code point by code point: itself, one of the eight two-character escapes, four hexadecimal digits, or a surrogate pair with its value |
| JsonNumbers.ReadsNumber | examples/openapi-java/OpenAPISignExample.java:630-660 | Maximal munch reads back every number whose exponent and scale fit, before a text that cannot extend it |
| JsonNumbers.ValueIsSpelled | examples/openapi-java/OpenAPISignExample.java:630-660 | The unscaled value and scale that are kept denote the number that the digits, fraction and exponent spell |
| JsonNumbers.PowersInRange | examples/openapi-java/OpenAPISignExample.java:659-660 | The number 1e+n is accepted exactly up to n = 2147483647, and 1e-n too |
| JsonNumerals.NumbersExactly | examples/openapi-java/OpenAPISignExample.java:630-660 | A document parses to a number if and only if it is a numeral of that value between blanks, in code points: optional minus, no leading zero, fraction, exponent with either letter and sign, exponent and scale within 32 bits |
| JsonNumerals.BlanksAround | examples/openapi-java/OpenAPISignExample.java:486-520 | Blanks around a document do not change its value, and exactly space, tab, line feed and carriage return are blanks |
| JsonValues.ParsePrint | examples/openapi-java/OpenAPISignExample.java:478-679 | The parser inverts a printer on every value with distinct keys, nesting at most 64 and decimals of a reachable scale |
| JsonCompact.ParseCompact | examples/openapi-java/OpenAPISignExample.java:478-679 | Every such value is read from its compact text, whose brackets, separators and literals are given as code points |
| JsonCompact.DepthLimit | examples/openapi-java/OpenAPISignExample.java:493-495 | Sixty-five arrays within each other are read, and no text starting with sixty-six opening brackets is |
| JsonValues.ParsedFits | examples/openapi-java/OpenAPISignExample.java:478-679 | The parser builds no other value |
| JsonParsing.JsonParser.ParseDocument | examples/openapi-java/OpenAPISignExample.java:486-491 | The parser object returns the value of the document, or refuses |
| JsonParsing.JsonParser.ParseValue | examples/openapi-java/OpenAPISignExample.java:493-520 | It returns the value at the front and moves the position to the rest |
| JsonParsing.JsonParser.ParseObject | examples/openapi-java/OpenAPISignExample.java:522-543 | It returns the members in order and refuses a repeated key |
| JsonParsing.JsonParser.ParseString | examples/openapi-java/OpenAPISignExample.java:562-617 | It returns the meaning of the spelled characters up to the closing quote; JsonEscapes.StringsExactly has the meanings |
| JsonParsing.JsonParser.ParseUnicodeEscape | examples/openapi-java/OpenAPISignExample.java:619-628 | It reads four hexadecimal digits, or refuses |
| JsonParsing.JsonParser.ParseNumber | examples/openapi-java/OpenAPISignExample.java:630-660 | It returns the value of the longest number at the front, or refuses its spelling or range |
| ShutdownTheorems.RunsAreOrdered | server/app/gb28181/bootstrap_shutdown.go:211-297 | In every interleaving dependencies are detached only after the drain of the run's own server returned, the control plane is stopped only after its SIP generation succeeded, and finalisation follows both generations |
| ShutdownTheorems.OneShutdownAtATime | server/app/gb28181/bootstrap_shutdown.go:716-795 | Only the active run can be unfinished, failed or a process stop; finalisation happens at most once and no SIP generation is shut down by two runs |
| ShutdownTheorems.StoppingIsFinal | server/app/gb28181/bootstrap.go:628-646 | Once stopping, for ever stopping, and no SIP generation is assembled again |
| ShutdownTheorems.ReloadAssembles | server/app/gb28181/bootstrap_shutdown.go:756-795 | A reload that succeeded while nothing stops the process assembles the next generation |
| ShutdownTheorems.QuiesceStops | server/app/gb28181/bootstrap_shutdown.go:302-346 | Quiescing sets stopping in every reachable state and has the drain of the current or captured server asked for |
| ShutdownTheorems.CoordinatorSteps | server/app/gb28181/bootstrap_shutdown.go:211-297 | The coordinator waits for its own drain twice, and its generation fails exactly if the drain had failed when first seen or the detaching fails |
| ShutdownProgress.ProcessStopFinishes | server/app/gb28181/bootstrap_shutdown.go:211-297 | A process stop of a running generation drains and detaches it, fails exactly if one of the two failed, stops the control plane exactly otherwise, and drops every reference once |
| ShutdownProgress.StartExactly | server/app/gb28181/bootstrap.go:628-646 | Start runs exactly before any stop, without a current generation and when enabled; the control plane then runs whether or not a generation was assembled |
| ShutdownProgress.ReloaderLeaves | server/app/gb28181/bootstrap_shutdown.go:756-795 | A reload that gives up waiting changes nothing else, and one whose generation succeeded assembles one exactly if nothing stops the process |
| ShutdownTheorems.FailedGenerationStays | server/app/gb28181/bootstrap_shutdown.go:756-795 | A failed reload generation stays active with its pointers until a process stop has finalised it |
| ShutdownTheorems.ControlPlaneStoppedExactly | server/app/gb28181/bootstrap_shutdown.go:211-231 | When a process stop is finalised its control plane was stopped if and only if its SIP generation succeeded |
| ShutdownTheorems.FailingStopDropsControlPlane | server/app/gb28181/bootstrap_shutdown.go:691-712 | A run in which the control-plane references are dropped without a stop |
| ShutdownLost.NoGenerationIsLost | server/app/gb28181/bootstrap.go:1710-1770 | If Start is not called during a shutdown run, every SIP generation ever assembled is current or was shut down to the end |
| ShutdownLost.LostExactlyIfStartMeetsRun | server/app/gb28181/bootstrap.go:628-646 | A generation that Start assembles in a reachable state is lost in some continuation if and only if a shutdown run is active at that Start |
| ShutdownLost.StartDuringReloadIsLost | server/app/gb28181/bootstrap.go:628-646 | A run in which Start during an empty reload loses its generation |
| ShutdownLifecycle.Lifecycle.BeginStop | server/app/gb28181/bootstrap_shutdown.go:716-745 | The locked section of process stop joins, promotes or opens the run to wait for |
| ShutdownLifecycle.Lifecycle.BeginReload | server/app/gb28181/bootstrap_shutdown.go:756-776 | The locked section of reload is refused exactly while stopping or after a failed generation |
| ShutdownLifecycle.Lifecycle.EndReload | server/app/gb28181/bootstrap_shutdown.go:778-795 | A failed generation keeps pointers and active marker |
| ShutdownLifecycle.Lifecycle.BeginQuiesce | server/app/gb28181/bootstrap_shutdown.go:302-346 | Stopping is set and the one drain of the current or captured server is started |
| ShutdownLifecycle.Lifecycle.FinalizeProcess | server/app/gb28181/bootstrap_shutdown.go:691-712 | It tears down once, after both generations are done |
| UpgradeSequence.NeverRollsBack | server/app/controllers/service_upgrade.go:1445-1491 | Of two accepted calls for a channel the later has no lower sequence number, and the same number means the same digest |
| UpgradeSequence.OthersUntouched | server/app/controllers/service_upgrade.go:1445-1491 | A channel that no accepted call names keeps its entry |
| UpgradeSequence.SequenceStore.AcceptSequence | server/app/controllers/service_upgrade.go:1445-1491 | It accepts exactly a channel's first release, a higher number, or the same number with the same digest; it records the advance alone, and leaves the file as it was on refusal or failure |

## Left out

- Authorisation, peer and platform matching, Subject and callee spellings: a boolean argument that may change from one event to the next.
- SIP transport, dialogs, XML and SDP bodies, the RTP bridge and media nodes: a send is an outcome chosen by the environment.
- Summary columns that only report (failure codes and texts, audit times, last-notify fields): they take no part in any decision.
- Rows that a broadcast writer did not create are present as foreign rows with an undecodable summary.
- A database error of a broadcast transaction counts as rolled back; a lost commit acknowledgement is modelled as the death of the goroutine after the commit. For an alarm checkpoint the lost answer is modelled directly.
- Alarms without a NOTIFY dialog, which are sent as one MESSAGE, and the hashing of the delivery key.
- The start-of-process lookups of an alarm worker (platform, profile, binding fingerprint) are one nondeterministic refusal before its first dialog.
- Subscription filters (kind, target, publication) are part of the environment's choice of when a sender begins; one system is one key of platform, Call-ID, remote tag and kind, and a To tag drawn for a response is never one drawn before.
- EventTheorems.NotifiesInOrder: stated for the first 2^31 sends of one subscription, because the 32-bit counter wraps; EventWrap.FewRenewalsKeepOrder has no bound on sends, and EventWrap.CounterWraps is the run that breaks the order.
- EventDialogs.DialogsAscendExactly: stated while no session has 2^31 - 6 SUBSCRIBEs, because the 32-bit counter of such a session wraps.
- AlarmTheorems.CompletedIsRecorded: runs with a stale claim are excluded because the property fails in them; AlarmExact.CompletesUnrecordedExactly has the exact condition at the claim.
- AlarmTheorems.RecordedStatusIsFinal: runs with a stale claim are excluded because the property fails in them; AlarmExact.StatusChangesExactly and AlarmExact.ResendExactly have the exact conditions at the claim.
- BroadcastStore.Store.Recover: states the tables of a recovery that no other writer interrupts, as after a shutdown has drained; what holds under interference is BroadcastTheorems, whose runs contain each of its transactions.
- BroadcastStore.Store.Sweep: states the tables of a sweep that no other writer interrupts; each row is validated once, when its turn comes, and that answer is a function of the row.
- BroadcastHandlers.HandleMessage: states the outcome without concurrent writers; the guarantees under interference are those of BroadcastTheorems.
- BroadcastHandlers.RouteResult: states the outcome without concurrent writers; the guarantees under interference are those of BroadcastTheorems.
- How an audio dialog is established and bridged, and the six seconds for which the business path waits for its clean-up.
- The generation counter of a subscription (64 bits) is unbounded.
- The limit of java.math.BigInteger on the number of digits, which lies beyond hundreds of millions, is not modelled.
- Java strings are sequences of code points; an unpaired surrogate is a code point without UTF-8 form. Null references are left out.
- SHA-256 is a function argument; HMAC, base64 and header validation are left out.
- The runtime pointers of a SIP generation are one pointer; what its dependency stop does inside is one step with an outcome. A failed assembly leaves either all of them or none.
- A shutdown generation runs its steps in order because its stop context never expires; the concurrent start of later steps after a deadline is not reachable from these callers.
- The state file of release sequences is replaced atomically by the rename; the JSON text of the file is not modelled.
- Liveness: that deliveries, drains or stops eventually happen.

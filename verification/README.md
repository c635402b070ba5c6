# A Dafny model of the Cove relay client

Cove shows terminals that run on a remote relay server. This project models the parts of its client
that have to be right under every interleaving: who holds control of a terminal, how the view is kept
equal to the server's log across lost events and recoveries, how typed input is delivered, the one
ordered send path, the mirror of business records, RPC settlement, previews, observer delivery, the
native transport client written in Go, and the codecs and transfer checks.

Objects of the source that update their fields are classes here (`Control.TerminalControl`,
`Delivery.TerminalLane`, `MirrorObject.BusinessMirror`, `Ledger.OperationLedger`,
`PreviewObject.TerminalPreview`, `Notifier.ObserverQueue`, `NativeClient.Client`). Each method is proved
to take the step of a value-level specification, and what the source promises is proved of every run of
that specification. The terminal controller's protocols are state machines whose steps are the stretches
between two awaits or two calls to foreign code, so that every interleaving is a run.

| file | what it models |
|---|---|
| `Control`, `ControlRuns` | control of a terminal: focus, grants, facts, recoveries |
| `Downlink`, `DownlinkRuns`, `DownlinkGap`, `DownlinkWitness` | attach and recover, baseline or replay into an asynchronous view, the gap fence |
| `Acks` | serialized acknowledgements and the fence before granted work |
| `Inputs`, `InputRuns` | the input queue, hold generations and prefix closure |
| `Lane`, `LaneRuns`, `Delivery` | the ordered lane: admission, scheduling, settlement |
| `Mirror`, `MirrorFacts`, `MirrorRuns`, `MirrorObject`, `Reader` | the business mirror and the reader that feeds it |
| `Rpc`, `Ledger` | settlement of one RPC, and the session's ledger of writes |
| `Preview`, `PreviewRuns`, `PreviewObject` | preview transfers, fences and the recent window |
| `Notifier` | delivery to observers in rounds |
| `Native`, `NativeClient` | the native client's critical sections |
| `Transfer`, `Base64`, `Utf8` | baseline transfer checks and codecs |

## What does not hold as one might expect

Seven promises turn out to need a condition. It is stated in the lemmas named here, with the case in which the
promise fails.

- A command reported with `sent = false` can still be passed to the socket afterwards, exactly when it was
  settled between being taken and entering the socket, as by its own `beforeSend` check, which then returned true
  (`LaneRuns.UnsentExactly`, `LaneRuns.SelfCancelled`).
- A write whose request was posted is resolved as not sent exactly if the dispositions it was told outside the
  cancellation of its request, and there was one, all said not-sent. What is reported while `cancel()` runs is
  overwritten, because the disposition merged with its result is read before it is called. A write reported as
  handed off in that window is resolved as not sent if the cancellation then returns not-sent
  (`Rpc.NotSentExactly`, `Rpc.DroppedExactly`, `Rpc.NotSentIsKnown`, `Rpc.LateReportIsLost`).
- An operation ID is dispatched at most once while tracked in every run in which no call is entered while an
  earlier call of its ID is still with the injected codec. A call looks for the ID before it asks the codec for
  the size of its intent and not again after, so a codec that calls back with the ID it is working on gets two
  writes dispatched under it, whenever there is room for both (`Ledger.DispatchedOnce`, `Ledger.ReplacedExactly`,
  `Ledger.NestedIsTwice`, `Ledger.NestingIsReached`).
- The gap fence of a ready subscription is exact in every run in which no subscription became ready over a
  hole in its queue, and input passes exactly while there is none. An event that goes missing before readiness
  is not noticed until the parser reaches it, and a run shows an input passing then (`DownlinkGap.FenceIsExact`,
  `DownlinkGap.InputPassesInSequence`, `DownlinkGap.CommitJudgesExactly`, `DownlinkWitness.HoleIsReached`).
- A ready view is exact in every run that takes no stray start: one of the promised sequence, taken from the
  queue after the end of a baseline and before the handoff of its ACK. The condition is the guard of the branch
  that lets such a start through. Taking one is the only way to lose the invariant; the subscription can then
  turn ready on a blank view, and a run shows a stream that gets there (`DownlinkRuns.StrayStartExactly`,
  `DownlinkRuns.StrayStartBlanksReadyView`, `DownlinkWitness.StrayStartIsReached`).
- What is known of a mirrored resource that is not deleted never gets older, exactly as long as every change
  frame spares it from pruning. Frames always spare repositories, tasks, tabs and configurations. They spare an
  operation unless they finish it, and after that frame, and only then, an older state is taken as new
  (`MirrorFacts.RevisionsNeverDrop`, `MirrorFacts.RevisionDropsExactly`, `MirrorRuns.RevisionsInRuns`).
- Decoding UTF-8 undoes encoding exactly for texts without a lone surrogate that do not start with U+FEFF
  (`Utf8.RoundTripExactly`), and encoding undoes decoding exactly for bytes without a leading byte order mark
  (`Utf8.ReencodesExactly`).

Where a comment in the source and its code differ, the model follows the code. The lane's comment that only a
command that never entered `send` is proven unsent is an example: see the first point. Another is the demand in
`docs/tasks/m0-client-calls-correction-plan.md` that a handed-off or unknown disposition is not downgraded by a
later not-sent: see the second.

## Model

| member | source | states |
|---|---|---|
| `ControlRuns.ContradictsIsExact` | packages/client/src/terminal-control.ts:29-46 | on every legal history, a true fact contradicts a grant if and only if it is at or after the grant and the grant has ended by then |
| `ControlRuns.HeldSinceGrant` | packages/client/src/terminal-control.ts:242-258 | holding a granted epoch at some point of a legal history proves it was held without a break since the grant |
| `ControlRuns.StepKeepsInv` | packages/client/src/terminal-control.ts:76-365 | every focus, fact, target change, recovery and baseline keeps the link between the controller's grant and the server's history |
| `ControlRuns.RunKeepsInv` | packages/client/src/terminal-control.ts:76-365 | so does every run |
| `ControlRuns.ReadyMeansHeld` | packages/client/src/terminal-control.ts:242-262 | in every run `ready` implies that the server granted this epoch to this subscription and that it is held continuously up to all that was applied and observed |
| `ControlRuns.CarriedGrantVerdict` | packages/client/src/terminal-control.ts:287-328 | a grant carried over a recovery is reinstated if and only if it is still wanted and neither the baseline nor a later observed fact shows it has ended |
| `ControlRuns.NothingKeptAcrossTargetLoss` | packages/client/src/terminal-control.ts:76-83 | no grant, live or carried, survives the loss of the input target, over any number of recoveries |
| `Control.TerminalControl.constructor` | packages/client/src/terminal-control.ts:48-74 | starts without target, focus or grant |
| `Control.TerminalControl.Invalidate` | packages/client/src/terminal-control.ts:264-271 | the object takes the specified step and changes nothing else |
| `Control.TerminalControl.SetTarget` | packages/client/src/terminal-control.ts:76-83 | losing the target invalidates and moves the target version |
| `Control.TerminalControl.BeginFocus` | packages/client/src/terminal-control.ts:166-176 | a new intent supersedes the one before, or nothing happens once the counter is exhausted |
| `Control.TerminalControl.AcceptFocus` | packages/client/src/terminal-control.ts:178-200 | a focus result becomes a grant only for the current intent and if no observed fact contradicts it |
| `Control.TerminalControl.FailFocus` | packages/client/src/terminal-control.ts:202-205 | only the current intent is dropped |
| `Control.TerminalControl.Observe` | packages/client/src/terminal-control.ts:207-231 | the newest fact is kept and ends a grant it contradicts |
| `Control.TerminalControl.Apply` | packages/client/src/terminal-control.ts:233-240 | an observed fact is applied in the order it was queued |
| `Control.TerminalControl.SuspendForRecovery` | packages/client/src/terminal-control.ts:276-284 | a live grant is carried into the recovery |
| `Control.TerminalControl.Restore` | packages/client/src/terminal-control.ts:287-328 | the baseline's authority replaces what was observed and judges the carried grant |
| `Control.TerminalControl.FinishRecovery` | packages/client/src/terminal-control.ts:331-336 | what was not reinstated by the end of the recovery is dropped |
| `Control.TerminalControl.ResetForRecovery` | packages/client/src/terminal-control.ts:338-342 | a recovery without a carried grant starts from no authority |
| `Control.TerminalControl.ConnectionLost` | packages/client/src/terminal-control.ts:344-347 | remembers that control was held when the connection went |
| `Control.TerminalControl.TakeReconnectFocus` | packages/client/src/terminal-control.ts:349-353 | that memory is read once |
| `Control.TerminalControl.ReplaceView` | packages/client/src/terminal-control.ts:355-360 | a new view inherits no authority |
| `Control.TerminalControl.Exit` | packages/client/src/terminal-control.ts:362-365 | an exited run grants nothing any more |
| `DownlinkRuns.StepKeepsInv` | packages/client/src/terminal-controller.ts:2156-2651 | every attach, recover, marker, event, view call, input and failure, except taking a stray start, keeps: one call in flight per view and it fits the view's contents, one item applied at a time, left-over parses known to the operation, the view exact or loading as the controller believes |
| `DownlinkRuns.RunKeepsInv` | packages/client/src/terminal-controller.ts:2156-2651 | so does every run that takes no stray start, whatever events the stream loses, repeats or reorders and however late view calls land |
| `DownlinkRuns.EventExtendsView` | packages/client/src/terminal-controller.ts:2571-2595 | in every such run a run event lands only in a view that holds exactly the events before it, and one of the current token is event applied + 1: none is skipped or applied twice |
| `DownlinkRuns.ReplayContinuesExactView` | packages/client/src/terminal-controller.ts:2364-2382 | whenever a replay is accepted the view holds exactly the log up to the applied sequence and no parse is unfinished on it |
| `DownlinkRuns.NoOldWriteAfterStart` | packages/client/src/terminal-controller.ts:2441-2488 | once a baseline has begun and while it loads, nothing from an earlier operation can write to the view |
| `DownlinkRuns.InitializeKeepsInv` | packages/client/src/terminal-controller.ts:2441-2487 | beginning a baseline, once the parses unfinished at the start of the operation are over, keeps every view consistent |
| `DownlinkRuns.ReadyViewIsExact` | packages/client/src/terminal-controller.ts:2615-2651 | a ready subscription's view holds the log up to the applied sequence, or up to the one event being applied |
| `DownlinkRuns.NeverGoesBack` | packages/client/src/terminal-controller.ts:2364-2369 | what a ready terminal has applied is in its view at every later point at which it is ready, across attaches, recoveries and replaced views |
| `DownlinkRuns.BeginKeepsInv` | packages/client/src/terminal-controller.ts:2234-2313 | a new operation fences everything in flight by its token and by the parses it must wait for |
| `DownlinkRuns.RecoverKeepsInv` | packages/client/src/terminal-controller.ts:520-608 | a recovery offers a resume point only for an intact model with nothing in flight, and keeps the invariant |
| `DownlinkRuns.MarkerKeepsInv` | packages/client/src/terminal-controller.ts:2315-2389 | the correlated result keeps the invariant, whichever mode and sequence it names |
| `DownlinkRuns.DrainKeepsInv` | packages/client/src/terminal-controller.ts:2391-2433 | taking the next event of the queue keeps the invariant, whatever event it is but a stray start |
| `DownlinkRuns.ContinueKeepsInv` | packages/client/src/terminal-controller.ts:2435-2613 | so does going on after any awaited parse or view call, under a current or an old token |
| `DownlinkRuns.ReplaceKeepsInv` | packages/client/src/terminal-controller.ts:667-709 | replacing the view, even by one with writes in flight, keeps the invariant |
| `DownlinkRuns.StrayStartExactly` | packages/client/src/terminal-controller.ts:2435-2488 | taking the next event keeps the invariant if and only if it is not a stray start, and if and only if it is one the subscription then turns ready on a blank view when the baseline begins before the handoff |
| `DownlinkRuns.StrayStartBlanksReadyView` | packages/client/src/terminal-controller.ts:2441-2488 | every run that meets a stray start has a continuation that is ready on a blank view |
| `DownlinkRuns.RefusedKeepsInv` | packages/client/src/terminal-controller.ts:2441-2461 | a start taken in that window that its operation does not want ends the subscription once it goes on, before or after readiness, and keeps the invariant |
| `DownlinkWitness.StrayStartIsReached` | packages/client/src/terminal-controller.ts:2156-2232 | a run from the beginning, one baseline of one chunk and a second start, that meets a stray start |
| `DownlinkWitness.HoleIsReached` | packages/client/src/terminal-controller.ts:2213-2230 | a run from the beginning in which an event is lost while the view finishes the baseline and an input is then handed off over the hole |
| `DownlinkGap.FenceIsExact` | packages/client/src/terminal-controller.ts:2213-2230 | in every run that takes no stray start and in which no subscription became ready over a hole, the gap fence is up if and only if the queue has a hole |
| `DownlinkGap.InputPassesInSequence` | packages/client/src/terminal-controller.ts:1765-1793 | in every such run an input is handed off if and only if the subscription is ready and its queue has no hole: none after an out-of-sequence event has arrived, and none is held back without one |
| `DownlinkGap.CommitJudgesExactly` | packages/client/src/terminal-controller.ts:2615-2651 | becoming ready leaves the fence right if and only if the queue has no hole then |
| `DownlinkGap.HoleBeforeReady` | packages/client/src/terminal-controller.ts:2218-2221 | an event that arrives out of sequence before readiness leaves the fence down |
| `DownlinkGap.ReceiveJudged` | packages/client/src/terminal-controller.ts:2156-2232 | while ready, receiving any event keeps the fence exact |
| `Acks.StepKeepsInv` | packages/client/src/terminal-controller.ts:2653-2710 | every step keeps: one ACK in flight, strictly growing per token, the newest applied event acknowledged, folded or about to be sent, work in the uplink behind the ACK it needs |
| `Acks.RunKeepsInv` | packages/client/src/terminal-controller.ts:2653-2710 | so does every run |
| `Acks.AcksIncrease` | packages/client/src/terminal-controller.ts:2653-2710 | the ACKs of one operation token enter the uplink strictly increasing |
| `Acks.AllAcknowledged` | packages/client/src/terminal-controller.ts:2656-2688 | folding loses nothing: with nothing in flight or folded, the last ACK is the applied sequence |
| `Acks.WorkFollowsAck` | packages/client/src/terminal-controller.ts:1917-1927 | input, resize and appearance enter the uplink only after an ACK at or past the grant, every control or resize fact applied and every granted result received so far |
| `InputRuns.StepKeepsInv` | packages/client/src/terminal-controller.ts:1474-1914 | every step of the input path keeps acceptance order, hold membership, closure points, totals and byte positions |
| `InputRuns.RunKeepsInv` | packages/client/src/terminal-controller.ts:1474-1914 | so does every run |
| `InputRuns.PrefixClosure` | packages/client/src/terminal-controller.ts:1574-1695 | of two inputs of one hold generation the later reaches the socket only if the earlier was written completely, under any mix of failures |
| `InputRuns.GateMeansPrefix` | packages/client/src/terminal-controller.ts:1767-1807 | the gate opens for an input only if no earlier input of its hold has failed |
| `InputRuns.SweepExactly` | packages/client/src/terminal-controller.ts:1612-1618 | closing a hold fails exactly the unsent inputs behind the point, with the cause, and changes nothing else of any input |
| `InputRuns.CloseSuffixExactly` | packages/client/src/terminal-controller.ts:1601-1622 | a capacity or renderer rejection leaves alone what was accepted before it, started inputs and inputs of no hold |
| `InputRuns.FailKeepsInv` | packages/client/src/terminal-controller.ts:1657-1672 | a failing input closes its hold at its own position and keeps the invariant |
| `InputRuns.AdmitKeepsInv` | packages/client/src/terminal-controller.ts:1474-1560 | admission, rejection and opening a hold keep the invariant |
| `InputRuns.LaneResultKeepsInv` | packages/client/src/terminal-controller.ts:1887-1912 | full, partial and excessive write results keep the invariant |
| `InputRuns.LaneFailedKeepsInv` | packages/client/src/terminal-controller.ts:1874-1886 | so do failures of the lane, retried or not |
| `InputRuns.SentOnce` | packages/client/src/terminal-controller.ts:1809-1914 | no byte of an accepted input is passed to socket.send twice |
| `InputRuns.ReceiptsAddUp` | packages/client/src/terminal-controller.ts:266-296 | written, unknown and not-sent bytes of a receipt add up to the total, and a byte never passed to the socket is reported as not sent |
| `InputRuns.TotalsAreExact` | packages/client/src/terminal-controller.ts:1518-1552 | retained bytes and pending inputs are the sums over unsettled inputs, within the byte cap and 224 slots |
| `InputRuns.OutcomesInOrder` | packages/client/src/terminal-controller.ts:1674-1685 | an outcome is queued for observers if and only if it and every earlier input have theirs |
| `LaneRuns.StepKeepsInv` | packages/client/src/terminal-delivery.ts:218-736 | every admission, push, flush step, reply, timer and cancellation keeps: exact accounts, limits, one settlement, route order |
| `LaneRuns.RunKeepsInv` | packages/client/src/terminal-delivery.ts:218-736 | so does every run |
| `LaneRuns.RouteOrder` | packages/client/src/terminal-delivery.ts:603-684 | commands of one subscription enter the socket in the order they were queued, each once, despite alternation, control-first choice and cancellation |
| `LaneRuns.OutcomesAreFinal` | packages/client/src/terminal-delivery.ts:691-725 | over every run a command settles exactly once and its outcome never changes |
| `LaneRuns.UnsentExactly` | packages/client/src/terminal-delivery.ts:603-725 | a command reported unsent enters the socket afterwards if and only if it was settled between being taken and entering the socket and its check let it go |
| `LaneRuns.FreshReportIsTrue` | packages/client/src/terminal-delivery.ts:691-697 | a report of unsent is true when it is made |
| `LaneRuns.SelfCancelled` | packages/client/src/terminal-delivery.ts:611-636 | every command whose check cancels it and returns true is reported unsent and sent |
| `LaneRuns.SomeCommandIsChecked` | packages/client/src/terminal-delivery.ts:603-620 | such a point is reached by a run |
| `LaneRuns.ControlAdmitted` | packages/client/src/terminal-delivery.ts:242-288 | a control command is always admitted while fewer than 32 are pending and their bytes and its own fit the reserve |
| `LaneRuns.SettleKeepsAccounts` | packages/client/src/terminal-delivery.ts:691-706 | settlement keeps pending commands, slots, held previews and retained bytes exact and bounded |
| `LaneRuns.TakenKeepsOrder` | packages/client/src/terminal-delivery.ts:665-684 | taking the first of a route from anywhere in the queue keeps every route's order |
| `Lane.NextIsSendable` | packages/client/src/terminal-delivery.ts:665-684 | a settled command is taken only when nothing sendable is first of its route |
| `Lane.NextIsEarliest` | packages/client/src/terminal-delivery.ts:665-684 | control goes before ordinary work of the pool, and among equals the earliest |
| `Delivery.TerminalLane.constructor` | packages/client/src/terminal-delivery.ts:93-130 | starts empty |
| `Delivery.TerminalLane.OrdinaryPending` | packages/client/src/terminal-delivery.ts:250-258 | counts the pending inputs and previews |
| `Delivery.TerminalLane.Register` | packages/client/src/terminal-delivery.ts:241-299 | takes a command if and only if identity, slots and bytes allow it |
| `Delivery.TerminalLane.Enqueue` | packages/client/src/terminal-delivery.ts:321-324 | queues it last unless it has settled |
| `Delivery.TerminalLane.FirstByRoute` | packages/client/src/terminal-delivery.ts:665-674 | one pass lists exactly the first command of every route |
| `Delivery.TerminalLane.ChooseOutbound` | packages/client/src/terminal-delivery.ts:675-683 | the filters choose the command the specification says |
| `Delivery.TerminalLane.TakeNextOutbound` | packages/client/src/terminal-delivery.ts:609-611 | takes it off the queue |
| `Delivery.TerminalLane.Finish` | packages/client/src/terminal-delivery.ts:691-706 | settles once, deciding `sent` and releasing slot and bytes |
| `Delivery.TerminalLane.EnterSocket` | packages/client/src/terminal-delivery.ts:612-639 | settles as never sent, or marks the attempt and enters the socket |
| `Delivery.TerminalLane.LeaveSocket` | packages/client/src/terminal-delivery.ts:643-660 | a handoff is recorded, anything else is uncertain |
| `Delivery.TerminalLane.Receive` | packages/client/src/terminal-delivery.ts:515-561 | a reply settles the pending command it names |
| `Delivery.TerminalLane.CancelUnsentOf` | packages/client/src/terminal-delivery.ts:352-394 | settles exactly the unsent commands of the subscription and kinds, keeping the invariant |
| `Delivery.TerminalLane.FailPending` | packages/client/src/terminal-delivery.ts:577-590 | fails what is pending, uncertain exactly where it entered the socket |
| `Delivery.TerminalLane.Close` | packages/client/src/terminal-delivery.ts:568-593 | every command is settled, every slot and byte given back, the queue dropped |
| `MirrorRuns.RunKeepsInv` | packages/client/src/business-mirror.ts:113-252 | every begin, stale and frame keeps records, stage and cursor in step with the accepted frames |
| `MirrorRuns.RecordsAreTheFold` | packages/client/src/business-mirror.ts:150-252 | in every run the records are the reference fold of the last complete snapshot and the accepted changes, each key once, with an exact byte count |
| `MirrorRuns.RevisionsInRuns` | packages/client/src/business-mirror.ts:150-252 | in every run a resource that no accepted change deletes and no new snapshot replaces stays throughout if and only if every accepted frame spares it, and then what is known of it only gets newer |
| `MirrorRuns.PageTaken` | packages/client/src/business-mirror.ts:163-182 | a page is taken whole, and the running byte count is that of the encoding |
| `MirrorRuns.RejectedChangesNothing` | packages/client/src/business-mirror.ts:316-319 | a rejected frame leaves the confirmed records alone and costs the cursor |
| `MirrorRuns.ResumeIsSeamless` | packages/client/src/business-mirror.ts:113-148 | disconnecting and resuming at the retained cursor gives, for every stream of changes, the verdicts, records and bytes of no interruption |
| `MirrorFacts.PruneIsIdempotent` | packages/client/src/business-mirror.ts:288-314 | pruning again removes nothing more |
| `MirrorFacts.NewestIsNewest` | packages/client/src/business-mirror.ts:290-301 | the newest run of a tab is one of its runs and none started later |
| `MirrorFacts.LatestSurvives` | packages/client/src/business-mirror.ts:288-314 | pruning does not change which run is the latest of a tab |
| `MirrorFacts.RevisionRises` | packages/client/src/business-mirror.ts:204-225 | within a frame what is known of a resource only gets newer unless the frame deletes it |
| `MirrorFacts.FoldRises` | packages/client/src/business-mirror.ts:195-235 | after one frame that does not delete it a resource is there if and only if the frame spares it, an operation if and only if it is not left finished, and it is no older |
| `MirrorFacts.RevisionsNeverDrop` | packages/client/src/business-mirror.ts:195-235 | over any number of frames that do not delete it, a resource of any kind stays throughout if and only if every frame spares it, and then its revision never drops; repositories, tasks, tabs and configurations are always spared |
| `MirrorFacts.LateStateTakenExactly` | packages/client/src/business-mirror.ts:204-225 | an unfinished state of an operation becomes its row if and only if no newer row is there |
| `MirrorFacts.RevisionDropsExactly` | packages/client/src/business-mirror.ts:288-314 | the frame after which a state older than the first row is taken is exactly the one that does not spare the operation |
| `MirrorFacts.FinishedOperationForgotten` | packages/client/src/business-mirror.ts:303 | a finished operation is pruned, and an older unfinished state sent later is taken as new |
| `MirrorObject.Scan` | packages/client/src/business-mirror.ts:288-301 | one pass finds what each tab's row names and each tab's newest run |
| `MirrorObject.PruneHistory` | packages/client/src/business-mirror.ts:288-314 | the two-pass pruning equals the row-by-row definition |
| `MirrorObject.BusinessMirror.constructor` | packages/client/src/business-mirror.ts:74-95 | starts idle and empty |
| `MirrorObject.BusinessMirror.BecomeStale` | packages/client/src/business-mirror.ts:140-148 | drops the stage, and the cursor when told to |
| `MirrorObject.BusinessMirror.BeginAt` | packages/client/src/business-mirror.ts:120-138 | resumes only at its own cursor for the same instance |
| `MirrorObject.BusinessMirror.ReceivePage` | packages/client/src/business-mirror.ts:163-182 | adds a page record by record up to the first that does not fit |
| `MirrorObject.BusinessMirror.ApplyChanges` | packages/client/src/business-mirror.ts:204-225 | applies the changes in order on a copy and stops at the first bad one |
| `MirrorObject.BusinessMirror.ReceiveChanges` | packages/client/src/business-mirror.ts:195-235 | takes a change frame if and only if it follows the cursor, is valid and fits |
| `MirrorObject.BusinessMirror.Take` | packages/client/src/business-mirror.ts:157-247 | a rejected frame changes at most the stage |
| `MirrorObject.BusinessMirror.Receive` | packages/client/src/business-mirror.ts:150-252 | the object takes the mirror's step and gives its verdict |
| `Reader.ForwardedKeepsLockStep` | packages/client/src/business-events.ts:148-234 | a forwarded frame keeps reader and mirror together, or is refused for a record, filter or capacity reason only the mirror can see |
| `Reader.StreamKeepsLockStep` | packages/client/src/business-events.ts:148-234 | from a common start they agree after every frame of every stream |
| `Reader.PageLockStep` | packages/client/src/business-events.ts:189-202 | items and bytes of a page are counted alike, and what fits the reader fits the mirror |
| `Reader.RefusedByBoth` | packages/client/src/business-events.ts:185-225 | whatever the reader refuses, out of place or too large a page, the mirror would have refused too |
| `Reader.OpenIsLockStep` | packages/client/src/business-events.ts:111-112 | a connection opened where the mirror stands starts in lock-step |
| `Rpc.StepKeepsInv` | packages/client/src/client.ts:1211-1485 | with timers, cancellation and post reentering each other at will, exactly one thing in progress owes the settlement, nothing is called from within a cancellation, and the disposition that counts is the merge of the reports made outside it |
| `Rpc.RunKeepsInv` | packages/client/src/client.ts:1211-1485 | so in every run |
| `Rpc.ResolvedOnce` | packages/client/src/client.ts:1255-1324 | an RPC is never resolved twice, and with no call in progress one that began to settle has been resolved |
| `Rpc.UncertainResolves` | packages/client/src/client.ts:1294-1312 | the verdict of an unanswered RPC is reached and given without another foreign call in between |
| `Rpc.NotSentExactly` | packages/client/src/client.ts:1294-1312 | in every run a write is resolved as not sent if and only if post was never entered, or the dispositions reported outside the cancellation, and there was one, were all not-sent |
| `Rpc.DroppedExactly` | packages/client/src/client.ts:1264-1270 | a report is left out of account if and only if it is made while the cancellation is in progress |
| `Rpc.NotSentIsKnown` | packages/client/src/client.ts:1294-1312 | a posted write resolved as not sent was told nothing else if and only if it was told nothing else during its cancellation |
| `Rpc.LateReportIsLost` | packages/client/src/client.ts:1264-1270 | a run for every disposition: reported during a cancellation that returns not-sent, it is lost and the write is resolved as not sent |
| `Rpc.AllNotSent` | packages/client/src/client.ts:524-532 | merged dispositions are not-sent if and only if all of them are and there is one |
| `Ledger.RunKeepsInv` | packages/client/src/server-session.ts:225-365 | in every run the table's entries are tracked writes of their ID, intent bytes are the sum of all tracked, within 256 entries and 64 KiB, and a call with the codec finds its ID tracked only if another one of that ID was entered since it looked |
| `Ledger.DispatchedOnce` | packages/client/src/server-session.ts:235-271 | in every run in which no call is entered while an earlier one of its ID is with the codec, two writes tracked at once never share an ID, and an ID a call has found unused stays so until it is entered |
| `Ledger.ReplacedExactly` | packages/client/src/server-session.ts:239-269 | a step makes two tracked writes share an ID if and only if it enters a write over an entry of its ID, and the call entered was then overtaken while it was with the codec |
| `Ledger.OvertakenExactly` | packages/client/src/server-session.ts:239-269 | a call with the codec is overtaken exactly when another one of its ID and attempt is entered |
| `Ledger.NestedIsTwice` | packages/client/src/server-session.ts:239-269 | every run that enters a write while an earlier call of its ID and attempt is with the codec, with room for one more, has a continuation in which two tracked writes share the ID |
| `Ledger.NestingIsReached` | packages/client/src/server-session.ts:239-269 | such a run: two calls of one ID both find it unused, and the one entered last replaces the other's entry |
| `Ledger.ForgottenOnlyWhenSafe` | packages/client/src/server-session.ts:349-365 | a write is forgotten only if its call proved it not sent or not accepted, or its record is final |
| `Ledger.RecordsNeverDrop` | packages/client/src/server-session.ts:513-528 | over every run a write's record never gets an older revision |
| `Ledger.OperationLedger.constructor` | packages/client/src/server-session.ts:118-142 | starts empty |
| `Ledger.OperationLedger.LookUp` | packages/client/src/server-session.ts:229-239 | a call goes on to the codec if and only if the session is current and the ID is not tracked |
| `Ledger.OperationLedger.Track` | packages/client/src/server-session.ts:251-271 | tracks a write before it is dispatched, if there is room and its attempt is the current one; the ID is not looked at again |
| `Ledger.OperationLedger.UpdateOperation` | packages/client/src/server-session.ts:513-528 | confirmed with a record stays confirmed, and no older record replaces a newer |
| `Ledger.OperationLedger.ReceiveFacts` | packages/client/src/server-session.ts:469-480 | the facts of a frame update the tracked writes in order |
| `Ledger.OperationLedger.ForgetOperation` | packages/client/src/server-session.ts:349-365 | forgets exactly the forgettable |
| `Ledger.OperationLedger.RetireAttempt` | packages/client/src/server-session.ts:546-556 | what was still being dispatched becomes unknown |
| `Preview.CompletesOnlyIfDelivered` | packages/client/src/terminal-preview.ts:255-380 | a preview completes with a transfer only if its own result named that preview and version and exactly the declared bytes arrived once |
| `Preview.DeliveredCompletes` | packages/client/src/terminal-preview.ts:255-380 | and if its log delivers a transfer, wherever the result comes among the events, it completes |
| `PreviewRuns.CompletedAsNamed` | packages/client/src/terminal-preview.ts:255-380 | in every run, with any number of previews in flight, a preview completes with a transfer if and only if it has itself heard its one result naming it and its start, one chunk and end, each once and in order |
| `PreviewRuns.RunKeepsInv` | packages/client/src/terminal-preview.ts:117-422 | in every run reserved bytes are those of the open transfers, pending, provisional and quarantined runs are apart and at most 256, and the transfer set is the exact index of the window |
| `PreviewRuns.StepKeepsInv` | packages/client/src/terminal-preview.ts:117-422 | every step keeps that |
| `PreviewRuns.RememberIndexed` | packages/client/src/terminal-preview.ts:411-422 | remembering and evicting keep the index exact within 256 entries |
| `PreviewRuns.FencedUntilClose` | packages/client/src/terminal-preview.ts:313-324 | an uncertain run stays fenced until close: no new preview, and every event of it obsolete |
| `PreviewRuns.UncertainFailureFences` | packages/client/src/terminal-preview.ts:385-393 | in every run a preview that an event, a reply or a failure of its command ends as failed, uncertain or with a transfer begun, has its run fenced at every later point before a close |
| `PreviewObject.TerminalPreview.constructor` | packages/client/src/terminal-preview.ts:89-115 | starts without fences |
| `PreviewObject.TerminalPreview.Claim` | packages/client/src/terminal-preview.ts:138-151 | claims a run if and only if it has no fence and there is room |
| `PreviewObject.TerminalPreview.RememberSettled` | packages/client/src/terminal-preview.ts:411-422 | the eviction loop takes the specified step |
| `PreviewObject.TerminalPreview.FinishPreview` | packages/client/src/terminal-preview.ts:385-409 | settles a preview, fences or remembers it and releases its bytes |
| `PreviewObject.TerminalPreview.FailOpen` | packages/client/src/terminal-preview.ts:313-319 | every open preview fails, uncertain exactly where it was sent |
| `PreviewObject.TerminalPreview.Close` | packages/client/src/terminal-preview.ts:313-324 | afterwards nothing is pending, fenced, remembered or reserved |
| `Notifier.RunKeepsInv` | packages/client/src/notifier.ts:95-201 | in every run: FIFO order, one marker at most, no adjacent aggregates, reservations in order, slots within their limits |
| `Notifier.StepKeepsInv` | packages/client/src/notifier.ts:95-201 | every producer and delivery step keeps that |
| `Notifier.QueueIsBounded` | packages/client/src/terminal-controller.ts:1508-1552 | with 224 input slots taken at admission and 32 rejection slots the queue never exceeds 515 entries |
| `Notifier.SettledIsQueued` | packages/client/src/terminal-controller.ts:1674-1686 | in every run the outcome of an admitted input is queued for the observers when it settles: no close comes before it and no bound drops it |
| `Notifier.RoundTakesEarlierEntries` | packages/client/src/notifier.ts:170-201 | a round takes only entries queued before it began, in order |
| `Notifier.ReservationsReleasedOnce` | packages/client/src/notifier.ts:104-113 | every reservation is waiting, in hand or released, one of the three, and in order |
| `Notifier.AggregatesAreSparse` | packages/client/src/notifier.ts:115-126 | aggregates are at most one more than the other entries |
| `Notifier.ObserverQueue.constructor` | packages/client/src/notifier.ts:65-75 | starts empty |
| `Notifier.ObserverQueue.Mark` | packages/client/src/notifier.ts:95-102 | queues a marker unless one waits |
| `Notifier.ObserverQueue.Push` | packages/client/src/notifier.ts:106-113 | queues a notice, or releases it at once when closed |
| `Notifier.ObserverQueue.TailAggregate` | packages/client/src/notifier.ts:117-126 | opens an aggregate only behind another kind of entry |
| `Notifier.ObserverQueue.Shift` | packages/client/src/notifier.ts:179-199 | takes the oldest entry of the round |
| `Native.RunKeepsInv` | native/tailscale/mobile/mobile.go:321-505 | in every interleaving the table, the events and the byte count of the queue are exact, within 32 operations, 64 events and 4 MiB |
| `Native.StepKeepsInv` | native/tailscale/mobile/mobile.go:321-505 | every critical section keeps that |
| `Native.CancelledNotSent` | native/tailscale/mobile/mobile.go:347-375 | if Cancel of an operation still in the table reports not-sent, no Write on its connection was or ever will be permitted |
| `Native.FinishedNotSent` | native/tailscale/mobile/mobile.go:387-397 | a terminal event that says not-sent is as final |
| `Native.OneTerminalEvent` | native/tailscale/mobile/mobile.go:387-433 | in every run at most one terminal event of an operation is ever made, and the host is never given a second one, over all it has pulled and all that is queued |
| `Native.DispositionsAdvance` | native/tailscale/mobile/mobile.go:339-359 | over every run dispositions only go from not-sent to unknown to handed-off |
| `Native.ReleasedReportsNotSent` | native/tailscale/mobile/mobile.go:363-385 | why the table matters: after its release any operation is reported not-sent |
| `NativeClient.Client.constructor` | native/tailscale/mobile/mobile.go:208-211 | starts open and empty |
| `NativeClient.Client.AdmitOperation` | native/tailscale/mobile/mobile.go:321-337 | admits if and only if the ID is new, the entry is current and there is room |
| `NativeClient.Client.MarkHandedOff` | native/tailscale/mobile/mobile.go:339-345 | a response proves the handoff unless the operation is done |
| `NativeClient.Client.BeforeWrite` | native/tailscale/mobile/mobile.go:347-359 | permits a Write if and only if nothing has closed the client, cancelled, finished or outdated the operation, and its context has not ended |
| `NativeClient.Client.CancelOperation` | native/tailscale/mobile/mobile.go:361-375 | marks and reports in one section |
| `NativeClient.Client.ReleaseOperation` | native/tailscale/mobile/mobile.go:377-385 | drops only a finished operation |
| `NativeClient.Client.FinishOperation` | native/tailscale/mobile/mobile.go:387-397 | the first to finish decides the event |
| `NativeClient.Client.TryEmit` | native/tailscale/mobile/mobile.go:407-433 | queues the event if there is room, drops it when closed or too large |
| `NativeClient.Client.Pull` | native/tailscale/mobile/mobile.go:453-467 | takes the oldest event and its bytes |
| `NativeClient.Client.CancelUnfinished` | native/tailscale/mobile/mobile.go:478-491 | cancels exactly the unfinished operations of the table, of one entry or of all |
| `NativeClient.Client.CloseEntryAt` | native/tailscale/mobile/mobile.go:542-557 | closes the entry and cancels its operations |
| `NativeClient.Client.StopAll` | native/tailscale/mobile/mobile.go:510-521 | closes once and empties the queue |
| `Transfer.CountFitsExactly` | packages/protocol/src/terminal-recovery.ts:114-115 | a chunk count passes if and only if some split into that many chunks of 1 to 65536 bytes exists |
| `Transfer.Split` | packages/protocol/src/terminal-recovery.ts:114-115 | gives such a split |
| `Transfer.BudgetsSuffice` | packages/protocol/src/budgets.ts:64-78 | every byte total within valid budgets has an acceptable count within the chunk budget |
| `Transfer.ValidateTransfer` | packages/protocol/src/terminal-recovery.ts:119-157 | the batch validator accepts exactly the complete transfers |
| `Transfer.StreamingIsBatch` | packages/client/src/terminal-controller.ts:2515-2546 | chunk by chunk a routed transfer is accepted if and only if the batch validator accepts it |
| `Transfer.TakenExactly` | packages/client/src/terminal-controller.ts:2515-2533 | the running ordinal and byte checks pass exactly for matching chunks within the declared total |
| `Base64.EncodeBase64` | apps/mobile/src/codec.ts:7-21 | encodes by groups of three as section 4 of RFC 4648 defines |
| `Base64.DecodeBase64` | apps/mobile/src/codec.ts:23-45 | returns the bytes if and only if the text is exactly their encoding and they are within the maximum |
| `Base64.EncodedInjective` | apps/mobile/src/codec.ts:7-21 | two byte strings of any lengths with one encoding are equal, padded or not |
| `Base64.EncodedLength` | apps/mobile/src/codec.ts:7-21 | four characters for every group of three bytes |
| `Base64.GroupRoundTrip` | apps/mobile/src/codec.ts:33-44 | a group of one to three bytes decodes back to itself |
| `Base64.CanonicalGroup` | apps/mobile/src/codec.ts:33-44 | an accepted group re-encodes to itself, so stray bits are refused (section 3.5 of RFC 4648) |
| `Base64.DecodeQuads` | apps/mobile/src/codec.ts:33-44 | the decoding loop fills the output exactly |
| `Base64.PutOctets` | apps/mobile/src/codec.ts:33-44 | writes the octets of one group in place |
| `Base64.EncodeUrl` | packages/protocol/src/auth.ts:322-335 | encodes without padding in the alphabet of section 5 of RFC 4648 |
| `Base64.DecodeUrl` | packages/protocol/src/auth.ts:337-350 | returns a text if and only if it is ASCII and its encoding is the input |
| `Base64.DecodeChunk` | packages/protocol/src/auth.ts:340-348 | returns the bytes of one group if and only if every character is of the alphabet and they are ASCII |
| `Utf8.Encode` | apps/mobile/src/codec.ts:48-66 | encodes the scalar values of the text, a lone surrogate as U+FFFD |
| `Utf8.DecodeFatal` | apps/mobile/src/codec.ts:67-100 | decodes exactly the well-formed byte sequences and drops one leading U+FEFF |
| `Utf8.DecodeFirst` | apps/mobile/src/codec.ts:67-100 | the first scalar value of well-formed bytes, or a refusal |
| `Utf8.DecodedIsExact` | apps/mobile/src/codec.ts:67-100 | bytes decode to a sequence of scalar values if and only if they are its encoding |
| `Utf8.AcceptsRfc3629` | apps/mobile/src/codec.ts:67-100 | the accepted byte sequences are exactly those of the grammar in section 4 of RFC 3629 |
| `Utf8.RoundTripExactly` | apps/mobile/src/codec.ts:48-100 | decoding undoes encoding if and only if the text has no lone surrogate and does not start with U+FEFF |
| `Utf8.ReencodesExactly` | apps/mobile/src/codec.ts:48-100 | what was decoded re-encodes to the same bytes if and only if they carry no leading byte order mark |
| `Utf8.TextOfPoints` | apps/mobile/src/codec.ts:48-66 | every text, lone surrogates included, is the UTF-16 form of its code points |
| `Utf8.PointsOfText` | apps/mobile/src/codec.ts:48-66 | and scalar values survive their UTF-16 form |

## Left out

- Zod schemas, the RPC method table, error texts and JSON: values are already typed, sizes of encodings are fields.
- Real promises, timers, clocks and sockets: they are steps that may happen at any time.
- Geometry, appearance, execution status, worker health and view generations of the controller: they decide nothing in the properties above beyond the flag for an unchanged grid.
- Credit accounting of the controller's receive queue: a full queue appears as a failure that may happen at any time.
- The focus and control log of the controller (registerFocus, drainControl): its results enter as steps of `Control` and `Inputs`.
- Reentrancy of the request-ID supplier inside sendAck and deliverItem: the source re-checks its token or gate, and the model sends in one step.
- Acks: the follow-up send runs before another ACK result is handled, because the lane runs follow-up work before it leaves the entry that registered it.
- Lane.Reply: the handoff callback of a result is its own step, so a callback that settles its own command is covered, but other commands sent from callbacks appear as separate steps.
- Lane.Admit: takes the tests of request ID and slots, the encoding of the frame and the entry as one step; a codec that sends from within the encoding could pass the limits the tests look at.
- The ingress leases, focus and input counters and the retired-reference window of the lane: each would add only small bookkeeping members.
- Downlink, Inputs, Acks and Rpc: modelled as state machines on values, not as objects, since their operations span awaits; what is not captured is that the controller is one object whose parts share fields.
- Native contexts and wait groups: whether a context has ended is a parameter of the section that asks, and routines that wait for each other are steps in any order.
- Inputs: a chunk the lane reports with `sent = false` is taken as not sent. The exception in `LaneRuns.UnsentExactly` needs a check that settles its own command, and the input gate settles none.
- Acks: the count of granted controls in flight, which holds granted work back further than the fence does.
- BusinessMirror disposal and the status strings of its snapshot: they add no property.
- Screens, entry management, ssh and tsnet processes, bootstrap and pairing: input and output plumbing.

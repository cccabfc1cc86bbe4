# Verified model of the money and upload orchestrators

The web application moves money and pictures through React hooks that are hand-written concurrent state machines:
busy latches, generation and epoch counters, idempotency keys and timers, running against a backend whose answers
come late, out of order or never. This project models those hooks and proves what they promise, over every run.

How a hook is modelled:

- The code between two awaits is one atomic step. A step function on a `Machine` value says what it does; a class over
  the hook's refs has one method per step, which keeps the invariant of the machine (`Valid`), and whose `ensures` says
  what the caller may count on besides which step was taken. Replies still to come are a list of pending continuations
  that resolve in any order with any result; user calls, timers, visibility changes and unmounting interleave anywhere.
  `Reaches` is the set of machines some sequence of steps leads to, and the theorems hold for every one of them. Calls
  to the backend go into a log, so that a statement can speak about history.
- The two drivers that are loops over awaits, the wallet rotation and the trustline signer, are imperative: methods with
  loops and invariants, a class per hook. Every await is a method that lets the chain settle, the wizard be reset and the
  component be unmounted, by havoc. What they meet is on record: every question to the server and its answer, every
  answer of the passkey, every reading of the clock, every reset, every wallet gesture and poll. So a contract can say
  that a method reports what it met, and that it gave up only for a reason.
- `formatStroops` is functional, as in the source; the key minter fills and masks an array in place.

| file | models |
|---|---|
| Settlement.dfy, RotationServer.dfy, WalletRotation.dfy | the non-atomic transfer of N items: rounds, batches, polling, rebuilding, resuming |
| SubmitCodes.dfy, Ceremony.dfy, CeremonyFlow.dfy | the two-gesture accept and bid ceremonies, as two instances of one machine |
| Avatar.dfy, AvatarUpload.dfy | the avatar pipeline with superseding generations |
| Timeline.dfy, TimelineComponent.dfy | the timeline reducer and its commit-ordered lock |
| Polling.dfy, PollingHook.dfy | the bid and trade pollers |
| KeyedRequest.dfy | the quote and RFQ requests under an idempotency key |
| KycSubmission.dfy | the KYC wizard's key and payload |
| WalletTrustline.dfy | the trustline signer |
| Digits.dfy, Amount.dfy | the amount printer |
| IdempotencyKey.dfy | the fallback key minter |

Claims that the code does not keep are stated with the condition under which it does:

- The rotation signs no item twice in a drive that begins `Ready()`: nothing in flight and no item of the begin set in
  flight or confirmed. A fresh initiate answer meets that if and only if nothing is in flight
  (`UnsentWhenNothingInFlight`). A review that a cancel went back to offers its old begin set
  (`apps/web/hooks/useWalletRotation.ts:291`), so the next confirm can sign sent items again
  (`CancelledReviewReoffersSent`); that set is still safe if and only if nothing sent from it has landed
  (`UnsentUnlessLanded`, carried by the contracts of `SubmitRound` and `Drive`).
- The rotation state type calls the confirmed count monotone (`apps/web/lib/types/api.ts:680`); `pollToRest` restarts it
  at 0. It falls if and only if a poll reads no answer and a positive count was on show (`PollToRest`, `FinishRound`,
  `CountCanRestart`).
- Every submit whose outcome is open is reconciled by one read in the accept flow; in the bid flow if and only if the
  code is not SERVER_ERROR (`BidReadsUnlessServerError`), which also reports an accepted answer with an unreadable body;
  the retry it offers submits again under a fresh key with no read in between (`BidSubmitsTwice`).
- The missing-refs guard of `sign` can be reached from readyToSign, exactly with an empty subject id (`LatchAndGuard`).
- A bid reset keeps the ceremony sound if and only if no reply is outstanding (`ResetKeeps`, `BidResetMixesKeys`).
- An avatar retry is sound if and only if it is not one from timedOut during a pre-flight (`RetryKeeps`); one that is
  can be reached and can set an older picture (`UnsafeRetryIsReachable`, `UnsafeRetryActivatesOldImage`).
- The timeline lock is released on every answer except one case (`ReleaseIsExact`); there it sticks (`LockCanStick`).
- A poller with a null or terminal seed is set going by an un-hide as well as by a refresh, and by nothing else
  (`OneChain`, `UnhidePollsAnySeed`).

Verify with `dafny verify dfyconfig.toml`.

## Model

| member | source | states |
|---|---|---|
| Settlement.OutcomeByCount | apps/web/lib/wallet/settlementOutcome.ts:17-31 | The outcome class is decided by the confirmed count alone once no item is pending or submitted: complete at N, failed at 0, partial strictly between; an empty list is in flight |
| Settlement.CountExtremes | apps/web/lib/wallet/settlementOutcome.ts:34-36 | The confirmed count lies between 0 and N, is N exactly when every item is confirmed and 0 exactly when none is |
| Settlement.CountMonotone | apps/web/lib/wallet/settlementOutcome.ts:33-36 | If confirmed items stay confirmed the count never falls |
| RotationServer.Advance | apps/web/hooks/useWalletRotation.ts:442-443 | The backend contract the driver relies on: confirmed is absorbing and only a submitted id can leave the wallet; every proposal is cut back to such a move |
| RotationServer.EveryAdvanceIsReachable | apps/web/hooks/useWalletRotation.ts:442-443 | The nondeterministic backend can make every move the contract permits, so proofs cover every settlement schedule |
| RotationServer.AdvancesCompose | apps/web/hooks/useWalletRotation.ts:206-245 | Moves between two observations compose into one move with both sets of sent ids |
| RotationServer.UnsentWhenNothingInFlight | apps/web/hooks/useWalletRotation.ts:442-443 | Of a fresh initiate answer, which lists exactly the unconfirmed items: it is safe to sign (none confirmed, none in flight, no repeats) if and only if nothing is in flight |
| RotationServer.UnsentUnlessLanded | apps/web/hooks/useWalletRotation.ts:283-292 | For every begin set that was safe to sign and every part of it sent since: it may be signed again if and only if none of the sent items is in flight or confirmed |
| RotationServer.Server.Submit | apps/web/hooks/useWalletRotation.ts:234-242 | A submit may land whatever it answers; it is recorded with the true statuses at its arrival |
| RotationServer.Server.Initiate | apps/web/hooks/useWalletRotation.ts:442-443 | A successful initiate lists every unconfirmed item once and no confirmed one; the question and its answer are on record |
| WalletRotation.Chunk | apps/web/hooks/useWalletRotation.ts:63-67 | The chunks put end to end are the input in order; each is non-empty and at most the size, and all but the last are full |
| WalletRotation.FlattenPrefix | apps/web/hooks/useWalletRotation.ts:63-67 | The batches submitted so far are a prefix of the begin set |
| WalletRotation.EnrichByItemId | apps/web/hooks/useWalletRotation.ts:72-81 | Enriching keeps the ids, statuses and error codes, item by item |
| WalletRotation.LookUpFindsById | apps/web/hooks/useWalletRotation.ts:72-81 | Display fields come from a begin item with the same id, and are missing exactly when there is none |
| WalletRotation.EnrichKeepsVerdict | apps/web/hooks/useWalletRotation.ts:72-81 | Enriching changes neither the confirmed count nor the outcome class |
| WalletRotation.TruthPersists | apps/web/hooks/useWalletRotation.ts:294-361 | A published state that is true of the chain stays true while the chain settles further |
| WalletRotation.RestIsFinal | apps/web/hooks/useWalletRotation.ts:175-182 | An answer with no undecided item stays the final word: nothing is in flight later and the count is unchanged |
| WalletRotation.LaterBatchUnsent | apps/web/hooks/useWalletRotation.ts:206-245 | What earlier batches of the round sent cannot make an item of a later batch confirmed or in flight |
| WalletRotation.ExtendRound | apps/web/hooks/useWalletRotation.ts:279-307 | After one more batch the ids sent are the next prefix of the begin set and the submission is clean |
| WalletRotation.CancelledReviewReoffersSent | apps/web/hooks/useWalletRotation.ts:283-292 | The failed property: for every begin set of more than one batch, once the first batch is sent and a later one dismissed with nothing confirmed, the review offers the whole set again, which is not safe to sign while the first batch is in flight, nor after it has confirmed and nothing is in flight any more |
| WalletRotation.FiveItemsReoffered | apps/web/hooks/useWalletRotation.ts:283-292 | A concrete instance: five pending items, four sent, the review offers all five |
| WalletRotation.StretchesJoin | apps/web/hooks/useWalletRotation.ts:248-372 | A stretch without a refusal followed by a safe stretch is a safe stretch |
| WalletRotation.UndecidedSpendsBudget | apps/web/hooks/useWalletRotation.ts:184-193 | Observing an undecided answer always lowers the read budget, whether or not the count rose |
| WalletRotation.UndecidedLeavesRoom | apps/web/hooks/useWalletRotation.ts:175-182 | An undecided answer leaves at least one item unconfirmed |
| WalletRotation.ReadsToRest | apps/web/hooks/useWalletRotation.ts:146-203 | For every sequence of answers over at most N items, even with falling counts and no wall-clock ceiling, polling makes at most 6N+1 status reads |
| WalletRotation.RotationHook.constructor | apps/web/hooks/useWalletRotation.ts:91-118 | A fresh hook is idle; it starts loading exactly when a rotation is already active |
| WalletRotation.RotationHook.Await | apps/web/hooks/useWalletRotation.ts:113-126 | While the hook waits the chain may settle, the wizard may be reset and the component unmounted, and nothing else: without a reset the state and the begin set are as before, and only a reset or an unmount aborts a poll; no published claim becomes false |
| WalletRotation.RotationHook.Reset | apps/web/hooks/useWalletRotation.ts:121-126 | A reset frees the latch, aborts the poll, drops the begin set and is counted |
| WalletRotation.RotationHook.Publish | apps/web/hooks/useWalletRotation.ts:175-182 | The progress published is the confirmed count of the answer over its item count, and the verdict is the outcome class of the answer |
| WalletRotation.RotationHook.PollOnce | apps/web/hooks/useWalletRotation.ts:156-184 | One poll turn reads the status exactly unless the poll was aborted, shows what it read, and ends at rest only with a non-empty, settled answer that is final on chain; an answer never counts less than was confirmed when the turn began; without an answer the read failed or the poll was aborted |
| WalletRotation.CeilingKept | apps/web/hooks/useWalletRotation.ts:152-191 | Before each further read the clock was asked and the ceiling of ten minutes had not passed |
| WalletRotation.AnotherAnswer | apps/web/hooks/useWalletRotation.ts:184-193 | One more undecided answer keeps the poll going exactly while the stall rule is not exhausted |
| WalletRotation.PollStep | apps/web/hooks/useWalletRotation.ts:157-200 | One turn of the loop keeps the read count within the budget and the result that of the last answer |
| WalletRotation.RotationHook.PollPass | apps/web/hooks/useWalletRotation.ts:157-200 | The pass as the code runs it: read, apply the stall rule and the ceiling, wait; it goes on only for an undecided answer within the stall rule and the ceiling, and stops after one only when stalled, past the ceiling or aborted |
| WalletRotation.RotationHook.PollFurther | apps/web/hooks/useWalletRotation.ts:157-200 | One pass through the loop: it goes on only if the answer is undecided and the rules allow, and gives up only for a reason; with an answer the count never falls below what was shown before the poll |
| WalletRotation.RotationHook.PollToRest | apps/web/hooks/useWalletRotation.ts:146-203 | Settled if and only if the last answer is; it reads on while answers are undecided, and gives up only when reset or unmounted since, stalled, past the wall-clock ceiling, or after a failed read; its answers are those of the status reads it made, in order, each but the first after a reading of the clock within the ceiling; at most 6N+1 reads under any answers; a settled result is final on chain with true counts, an unknown one never overstates; the count falls below the one on show if and only if no answer was read and that count was positive, and is then 0 |
| WalletRotation.PollStaysMet | apps/web/hooks/useWalletRotation.ts:309-361 | What a poll reports stays true of what was asked when more is asked after it |
| WalletRotation.RotationHook.PollRound | apps/web/hooks/useWalletRotation.ts:309-309 | The poll of a round, reported with the questions, resets and clock readings it began after |
| WalletRotation.CountCanRestart | apps/web/hooks/useWalletRotation.ts:152-176 | The failed property "the count is monotone": four of nine confirmed, the first status read of a poll fails, and 0 of 9 is published |
| WalletRotation.RotationHook.RotateSubmit | apps/web/hooks/useWalletRotation.ts:234-242 | One submit call with the given ids, made only while the state claims nothing final |
| WalletRotation.RotationHook.SignBatch | apps/web/hooks/useWalletRotation.ts:206-232 | A completed signing loop holds one signature per item of the batch, in order, each given by the passkey; it is cut short only by a dismissal, an error or an unmount |
| WalletRotation.RotationHook.SignAndSubmitBatch | apps/web/hooks/useWalletRotation.ts:206-245 | At most one submit, with exactly the ids of the batch, after the passkey signed every item; sent means accepted; a batch that was not submitted was dismissed or failed at the passkey |
| WalletRotation.RotationHook.RefreshExpired | apps/web/hooks/useWalletRotation.ts:257-273 | Asks the ledger, and asks for a new begin set if and only if the ledger is known and a challenge of the current one has expired; a set that is given replaces the old, a refusal or a ledger that is not known keeps it; the set stays safe to sign |
| WalletRotation.RotationHook.StopAfterCancel | apps/web/hooks/useWalletRotation.ts:283-292 | After a dismissed passkey one status read: paused with its counts when anything moved, else the review of the same set; when the read fails, the counts shown before |
| WalletRotation.RotationHook.StopRound | apps/web/hooks/useWalletRotation.ts:281-306 | A submit or passkey error ends in settlementUnknown with the counts shown, a dismissal in one status read and what it calls for |
| WalletRotation.RotationHook.SendBatch | apps/web/hooks/useWalletRotation.ts:279-282 | Sending one batch extends the round by a clean submission of exactly that batch, or by nothing, and then the passkey said why |
| WalletRotation.RotationHook.SubmitBatch | apps/web/hooks/useWalletRotation.ts:279-307 | One batch of a round keeps the round a clean, ordered prefix of its begin set; a round that stops says why: dismissed, failed at the passkey, or refused |
| WalletRotation.RotationHook.RoundDone | apps/web/hooks/useWalletRotation.ts:275-307 | Where a round ends: whole, or cut short, with what its review may still offer |
| WalletRotation.RotationHook.SubmitBatches | apps/web/hooks/useWalletRotation.ts:279-307 | The batch loop submits the begin set once, in order, or stops on a prefix of it |
| WalletRotation.RotationHook.SubmitRound | apps/web/hooks/useWalletRotation.ts:275-307 | A finished round has submitted every item of its begin set exactly once, in order, all accepted, and a round cut short a prefix of it, with the reason it stopped; if the set was unsent on entry every batch was clean; a refusal is the last submit and ends in settlementUnknown; a review it goes back to offers that set again, which is still safe to sign if and only if nothing sent has landed |
| WalletRotation.RotationHook.ConcludeRound | apps/web/hooks/useWalletRotation.ts:321-361 | It asks for a rebuild if and only if something is retryable and the rounds make progress, and goes on if and only if it is given one, with that begin set, safe to sign; otherwise complete exactly when every item of the poll is confirmed, partial with the counts of the poll when anything moved, and error, with the code of the refusal if there was one, only when nothing moved and nothing is in flight |
| WalletRotation.RotationHook.Rebuild | apps/web/hooks/useWalletRotation.ts:349-361 | Asks for an offer; goes on with it exactly when it is given, safe to sign; when it is refused the drive ends partial with its counts, or in error with the code of the refusal, only when nothing moved and nothing is in flight |
| WalletRotation.RotationHook.EndRound | apps/web/hooks/useWalletRotation.ts:310-361 | After the poll: an unknown result is published with its counts, a settled one concludes the round; mounted, it asks for a rebuild if and only if the poll calls for one |
| WalletRotation.RotationHook.FinishRound | apps/web/hooks/useWalletRotation.ts:309-361 | It polls to rest, then ends or goes on as the poll and the offer call for; the confirmed count of the poll decides whether the round made progress; it falls below the count before the round if and only if the poll read no answer and that count was positive; the report is what was asked and answered |
| WalletRotation.RotationHook.RunRound | apps/web/hooks/useWalletRotation.ts:275-361 | A round with something to sign: its submits, then, if they all went out, its poll and its end; cut short, what stopped it |
| WalletRotation.RotationHook.SignRound | apps/web/hooks/useWalletRotation.ts:250-361 | The same round, seen from before its refresh |
| WalletRotation.RotationHook.BeginRound | apps/web/hooks/useWalletRotation.ts:256-275 | A round begins with the refresh, and goes on if and only if there is something to sign; there is nothing only if it found or was given nothing, or the wizard was reset meanwhile |
| WalletRotation.RotationHook.DriveRound | apps/web/hooks/useWalletRotation.ts:250-361 | One round is safe, submits its begin set or a prefix of it and nothing after its poll; it signs what it found or was given in its place; mounted, a round whose poll left something worth retrying is rebuilt unless the rebuild is refused, and it ends otherwise exactly as its poll, its stop or the refusal calls for; each answer it reports is on record |
| WalletRotation.IdsOfBatches | apps/web/hooks/useWalletRotation.ts:279-281 | The ids of the first j+1 batches are those of the first j followed by the next batch, a prefix of all |
| WalletRotation.SentIdsJoin | apps/web/hooks/useWalletRotation.ts:248-372 | What two stretches sent, one after the other, is what they sent together |
| WalletRotation.ReportsGrow | apps/web/hooks/useWalletRotation.ts:256-361 | What a drive has sent is what its rounds report, round after round |
| WalletRotation.HistoryGrows | apps/web/hooks/useWalletRotation.ts:256-361 | One more round keeps the history of the drive safe and in order |
| WalletRotation.ChainGrows | apps/web/hooks/useWalletRotation.ts:256-361 | Each round goes on from the one before: with its count, its rounds without progress and its begin set, and the one way the count can fall |
| WalletRotation.RotationHook.UnderwayGrows | apps/web/hooks/useWalletRotation.ts:256-361 | One more round, found as the one before left it, extends the chain |
| WalletRotation.RotationHook.RoundJoins | apps/web/hooks/useWalletRotation.ts:256-361 | A round that keeps its guarantees extends the drive so far with its own |
| WalletRotation.RotationHook.DriveOn | apps/web/hooks/useWalletRotation.ts:256-361 | One more round of a drive keeps all that holds of the drive so far |
| WalletRotation.RotationHook.DriveLoop | apps/web/hooks/useWalletRotation.ts:256-361 | Round after round, until one ends the drive or the round limit is reached |
| WalletRotation.RotationHook.LeaveOpen | apps/web/hooks/useWalletRotation.ts:363-369 | With nothing left to sign or no round left the drive ends in settlementUnknown with the last counts, exactly |
| WalletRotation.RotationHook.Drive | apps/web/hooks/useWalletRotation.ts:248-372 | If nothing is in flight and the begin set is unsent on entry (Ready), no submitted batch in any round holds an item already confirmed or in flight; everything submitted is exactly what the rounds report, each round its begin set or a prefix, in order, so nothing follows a refusal or a poll that ends the drive; an uncancelled round whose poll left something worth retrying, while rounds make progress, is followed by another unless its rebuild is refused or the round limit is reached; otherwise the published end is the one the last round calls for: complete means all N confirmed with movedCount N, partial 0 < confirmed < N, error nothing confirmed and nothing in flight; never error when an item was confirmed on entry; each round goes on with the count, the progress and the begin set the one before left, and the count falls only where a poll read nothing; a review it goes back to is safe to sign if and only if nothing the last round sent has landed |
| WalletRotation.RotationHook.ChooseDestination | apps/web/hooks/useWalletRotation.ts:376-428 | An idle hook makes the destination primary and, only then, asks for an offer; the two answers decide the surface: error, blocked review or review of the offered items; a fresh review is safe to sign when nothing is in flight; a busy hook is left alone |
| WalletRotation.RotationHook.ConfirmAndTransfer | apps/web/hooks/useWalletRotation.ts:430-440 | Drives if and only if the hook is idle on an unblocked, non-empty review, with every guarantee of a drive; otherwise nothing changes |
| WalletRotation.RotationHook.Resume | apps/web/hooks/useWalletRotation.ts:444-509 | An idle hook asks for the status, a busy one does nothing; a failed read from paused, partial or settlementUnknown keeps the counts; nothing to rotate or everything moved is shown at once; otherwise it asks for an offer and drives with it, with every guarantee of a drive, unless it is refused; once a status read has shown a confirmed item no continuation ends in error; with nothing in flight on entry no item is signed twice |
| WalletRotation.RotationHook.ResumeFrom | apps/web/hooks/useWalletRotation.ts:469-506 | With the status in hand: nothing to rotate or everything moved is shown at once, anything else asks for an offer; a confirmed item excludes error |
| WalletRotation.RotationHook.ResumeRest | apps/web/hooks/useWalletRotation.ts:493-506 | The re-initiate and drive of a resume keep those guarantees; a refused offer is shown with the counts of the status, or as its error only when nothing is confirmed; with nothing in flight on entry the drive is safe |
| WalletRotation.RotationHook.Cancel | apps/web/hooks/useWalletRotation.ts:511-533 | A cancel that is refused resumes, with the guarantees of a resume; any other answer leaves the flow and asks and submits nothing; a busy hook does nothing |
| Ceremony.EveryRun | apps/web/hooks/useAcceptFlow.ts:94-382 | The invariant holds in every run of accept, and of bid without a reset during a pending call: one reply outstanding exactly while busy, armed data backed by a gated prepare under the current key, key not yet spent |
| Ceremony.StepKeepsInv | apps/web/hooks/useAcceptFlow.ts:119-379 | Every step, by user or reply, keeps the invariant |
| Ceremony.BeginKeeps | apps/web/hooks/useAcceptFlow.ts:242-251 | Beginning freezes the subject and terms, mints a key larger than any before and keeps the invariant |
| Ceremony.PrepareReplyKeeps | apps/web/hooks/useAcceptFlow.ts:202-276 | Every prepare reply, logged with its code, keeps the invariant; only one that passes the gate arms the passkey |
| Ceremony.PasskeyReplyKeeps | apps/web/hooks/useAcceptFlow.ts:300-339 | Every passkey reply keeps the invariant; only a signed one submits, and it spends the key |
| Ceremony.SubmitReplyKeeps | apps/web/hooks/useAcceptFlow.ts:136-200 | Every submit reply, logged with its code, keeps the invariant: a read follows at once where one is owed, and nowhere else |
| Ceremony.SubmitRouteMeans | apps/web/hooks/useAcceptFlow.ts:136-200 | Of a failed submit that is not reconciled: which surface its code leads to, in both flows, whether a new prepare is offered, and that the key is dropped exactly when it or its challenge is spent |
| Ceremony.PrepareRouteMeans | apps/web/hooks/useAcceptFlow.ts:202-240 | The same of a failed prepare |
| Ceremony.ReconcileKeeps | apps/web/hooks/useAcceptFlow.ts:347-359 | A reconcile by hand makes exactly one read and keeps the invariant |
| Ceremony.ReadReplyKeeps | apps/web/hooks/useAcceptFlow.ts:119-134 | The reply to a read sends nothing and keeps the invariant |
| Ceremony.SignKeeps | apps/web/hooks/useAcceptFlow.ts:280-311 | Asking for the passkey keeps the invariant |
| Ceremony.RetryKeeps | apps/web/hooks/useBidFlow.ts:337-354 | A retry arms the passkey only with data still backed and unspent |
| Ceremony.ResetKeeps | apps/web/hooks/useBidFlow.ts:356-361 | A bid reset keeps the invariant if and only if no reply is outstanding |
| Ceremony.SubmitEchoesGatedPrepare | apps/web/hooks/useAcceptFlow.ts:280-344 | Every submit in every run echoes the entry of an earlier successful prepare of the same subject, terms and key, whose gross is price times count of the frozen terms |
| Ceremony.SubmitsNeedFreshPrepare | apps/web/hooks/useAcceptFlow.ts:242-278 | Of two submits the later has a larger key and a prepare under that key lies between them, so each key is submitted at most once |
| Ceremony.PrepareOfSubmit | apps/web/hooks/useAcceptFlow.ts:242-344 | A submit uses the newest key prepared so far, and that key was not submitted before |
| Ceremony.SuccessEndsTheCeremony | apps/web/hooks/useAcceptFlow.ts:136-141 | From every run with a submit out: its success, answered while mounted, hands off that trade with the terms accepted, and whatever follows short of a new begin, nothing is prepared, submitted or read again |
| SubmitCodes.OpenCodesAreExact | apps/web/lib/services/accept.ts:429-470 | Over every backend answer: the service reports an open code if and only if the backend may hold a trade from the write (no response, an accepted body that fails the schema, a key or trade still in flight, an unknown failure) |
| Ceremony.ReadsExactlyOpen | apps/web/hooks/useAcceptFlow.ts:136-200 | The submit routes read exactly on the open codes, except SERVER_ERROR in the bid flow |
| Ceremony.AcceptReadsEveryOpenOutcome | apps/web/hooks/useAcceptFlow.ts:136-200 | In every accept run each submit answered while mounted with an open code is followed at once, before any other backend call, by exactly one read for it |
| Ceremony.BidReadsUnlessServerError | apps/web/hooks/useBidFlow.ts:122-180 | In every bid run that holds if and only if the code is not SERVER_ERROR |
| Ceremony.NoOtherRead | apps/web/hooks/useAcceptFlow.ts:119-200 | Every read has its reason just before it: an open submit, a prepare that met a trade in flight, or the user |
| Ceremony.BidResubmitsUnread | apps/web/lib/services/offerings.ts:391-430 | From every bid run with a submit out, an accepted answer whose body fails the schema leads, by retry, to a second submit under a fresh key with no read in between |
| Ceremony.BidSubmitsTwice | apps/web/hooks/useBidFlow.ts:171-177 | Such runs from a fresh hook: two submits under two keys and never a read |
| Ceremony.LatchAndGuard | apps/web/hooks/useAcceptFlow.ts:280-297 | The latch is held exactly while one reply is outstanding; from readyToSign the missing-refs guard fires exactly when the subject id is empty |
| Ceremony.BidResetMixesKeys | apps/web/hooks/useBidFlow.ts:356-361 | A run with a reset during a pending prepare ends in a submit whose entry was never prepared under its key |
| CeremonyFlow.CeremonyHook.constructor | apps/web/hooks/useAcceptFlow.ts:94-117 | A fresh hook is idle and mounted, has nothing out and has called nothing |
| CeremonyFlow.CeremonyHook.Begin | apps/web/hooks/useAcceptFlow.ts:242-251 | A begin on an idle hook freezes its subject and terms and makes one prepare call, of these terms under a key no call has used, and submits nothing; a busy hook is left alone |
| CeremonyFlow.CeremonyHook.ResolvePrepare | apps/web/hooks/useAcceptFlow.ts:252-276 | A prepare reply never submits; mounted, it arms the passkey exactly when the server gross is price times count, else drops the key and asks for a fresh start; a trade in flight is read at once in accept; any other failure shows what its code stands for; an armed hook is backed by a gated, unspent prepare |
| CeremonyFlow.PrepareReplyMeans | apps/web/hooks/useAcceptFlow.ts:202-276 | What the answer to a prepare brings, from every sound machine |
| CeremonyFlow.CeremonyHook.Sign | apps/web/hooks/useAcceptFlow.ts:280-311 | Sends nothing; from an armed hook the passkey prompt opens for the data on show, with the latch held and one reply outstanding, unless the subject id is empty, which is shown as an error; from any other nothing happens |
| CeremonyFlow.CeremonyHook.ResolvePasskey | apps/web/hooks/useAcceptFlow.ts:312-340 | Submits once, exactly on a signed assertion while mounted, and only the entry of a gated prepare of the same subject, terms and key, under a key never submitted before; a dismissal leaves the hook armed, a failure offers to sign again |
| CeremonyFlow.CeremonyHook.ResolveSubmit | apps/web/hooks/useAcceptFlow.ts:136-200 | Mounted, a success hands off the trade it names, with the terms accepted, and keeps the key; an open outcome is followed at once by one read with the latch held and the key kept, in bid unless the code is SERVER_ERROR; any other failure sends nothing, frees the latch, shows what its code stands for and drops the key exactly when it is spent |
| CeremonyFlow.SubmitReplyMeans | apps/web/hooks/useAcceptFlow.ts:136-200 | What the answer to a submit brings, from every sound machine |
| CeremonyFlow.CeremonyHook.ResolveRead | apps/web/hooks/useAcceptFlow.ts:119-134 | The read frees the latch, sends nothing and hands off the trade it found exactly when it found one; otherwise an expired session asks for re-authentication and anything else lands in recheck |
| CeremonyFlow.CeremonyHook.ReconcileByHand | apps/web/hooks/useAcceptFlow.ts:347-359 | One more read, exactly from an idle recheck with a subject; the key is kept; elsewhere nothing happens |
| CeremonyFlow.CeremonyHook.Retry | apps/web/hooks/useAcceptFlow.ts:363-379 | Sends nothing; where a new prepare is offered it goes back to idle and drops the key, where the passkey failed it arms again with data that is still backed and unspent, and elsewhere nothing happens |
| CeremonyFlow.CeremonyHook.Reset | apps/web/hooks/useBidFlow.ts:356-361 | Sends nothing and leaves pending replies outstanding; the hook stays valid if and only if it was not busy |
| Avatar.EveryRun | apps/web/hooks/useAvatarUpload.ts:42-363 | The invariant holds in every run whose retries are safe: at most one continuation of the current generation, the latch and the timer belong to it, reads within budget |
| Avatar.StepKeepsInv | apps/web/hooks/useAvatarUpload.ts:80-342 | Every step, user call, timer or reply of any generation, keeps the invariant |
| Avatar.SelectFileKeeps | apps/web/hooks/useAvatarUpload.ts:266-299 | A new pick supersedes every pending continuation |
| Avatar.RemoveKeeps | apps/web/hooks/useAvatarUpload.ts:323-342 | A removal supersedes every pending continuation |
| Avatar.RetryKeeps | apps/web/hooks/useAvatarUpload.ts:303-320 | A retry keeps the invariant if and only if it is not a retry from timedOut during a running pre-flight |
| Avatar.TimerKeeps | apps/web/hooks/useAvatarUpload.ts:98-106 | A firing timer starts exactly one status poll of the current generation |
| Avatar.ResolveKeeps | apps/web/hooks/useAvatarUpload.ts:108-264 | Every reply of every generation keeps the invariant |
| Avatar.SupersededKeeps | apps/web/hooks/useAvatarUpload.ts:135-143 | Dropping a superseded reply keeps the current one and the latch |
| Avatar.PolledKeeps | apps/web/hooks/useAvatarUpload.ts:144-186 | A status answer re-arms, activates, fails or times out within the read budget |
| Avatar.AvatarOnlyForNewest | apps/web/hooks/useAvatarUpload.ts:108-133 | setAvatarAction with an image id is only called for the image granted to the newest attempt at that moment |
| Avatar.NeverWedges | apps/web/hooks/useAvatarUpload.ts:98-190 | inFlight holds exactly while a poll of this generation runs; an armed timer carries this generation and its firing reads; processing implies a timer, a poll, a pre-flight or a reported session expiry; one arming makes at most MAX_ATTEMPTS times MAX_FAILURES reads |
| Avatar.GenerationsOnlyGrow | apps/web/hooks/useAvatarUpload.ts:80-97 | Over any steps the generation never falls and an unmount is final |
| Avatar.SupersededIsInert | apps/web/hooks/useAvatarUpload.ts:80-89 | Once an attempt is superseded or the hook unmounted, then after any further steps its replies change no state, preview, active image or timer and call nothing |
| Avatar.UnsafeRetryActivatesOldImage | apps/web/hooks/useAvatarUpload.ts:303-320 | The failed property: every unsafe retry polls, under the new generation, an image granted to an older one, and once that is ready sets it as the avatar |
| Avatar.UnsafeRetryIsReachable | apps/web/hooks/useAvatarUpload.ts:144-186 | A run to such a retry: a pick whose polls all fail, then a second pick still in its pre-flight |
| Avatar.ReplyMeans | apps/web/hooks/useAvatarUpload.ts:108-264 | What any reply may do: set the avatar only to a ready image granted to the newest attempt, change the active image only when the backend has taken it, and nothing when stale |
| Avatar.UploadReplyMeans | apps/web/hooks/useAvatarUpload.ts:194-231 | What a current reply of the upload brings: the next call of the pipeline and its surface, or the failure of this phase |
| Avatar.CommitReplyMeans | apps/web/hooks/useAvatarUpload.ts:231-261 | A current commit: ready is activated, failed ends the attempt with no preview, processing arms the poll with fresh counters |
| Avatar.PollReplyMeans | apps/web/hooks/useAvatarUpload.ts:142-183 | A current poll times out if and only if its answer is the twentieth that is still waiting or the fourth failure in a row; a waiting answer below the cap counts a tick, shows it and re-arms the timer, a failure below the cap re-arms it, ready activates, failed ends the attempt with no preview, an expired session is reported |
| Avatar.AvatarReplyMeans | apps/web/hooks/useAvatarUpload.ts:108-133 | A current answer to an activation or a removal: the avatar it sets or clears, or the failure |
| Avatar.EveryRunCounts | apps/web/hooks/useAvatarUpload.ts:142-183 | In every run the counters count the waiting answers, and the failures in a row, since the poll was last armed |
| Avatar.TimeoutIsEarned | apps/web/hooks/useAvatarUpload.ts:150-176 | In every run a picture that shows as timed out has had MAX_ATTEMPTS waiting answers, or MAX_FAILURES failures in a row, since the poll was last armed |
| AvatarUpload.AvatarHook.SelectFile | apps/web/hooks/useAvatarUpload.ts:266-283 | A pick supersedes every reply still to come, lets go of latch and timer and mints a key of its own; a well-formed file goes into its pre-flight, any other is an error |
| AvatarUpload.AvatarHook.RemoveAvatar | apps/web/hooks/useAvatarUpload.ts:323-342 | A removal supersedes every reply still to come and leaves the avatar on show until the backend has removed it |
| AvatarUpload.AvatarHook.Retry | apps/web/hooks/useAvatarUpload.ts:303-320 | From timedOut the same image is polled again with fresh counters and nothing else is called; from a failure everything older is superseded; elsewhere nothing happens; the hook stays valid if and only if it is not a retry from timedOut during a pre-flight |
| AvatarUpload.AvatarHook.Poll | apps/web/hooks/useAvatarUpload.ts:135-142 | A firing timer makes exactly one read, of the image granted to this attempt, and takes the latch |
| AvatarUpload.AvatarHook.ResolvePreflight | apps/web/hooks/useAvatarUpload.ts:283-296 | A current pre-flight shows its preview and requests a target under the key of this attempt, or fails; a stale one changes nothing |
| AvatarUpload.AvatarHook.ResolveRequest | apps/web/hooks/useAvatarUpload.ts:198-218 | A granted target is the image of this attempt from then on, on record, and the file is uploaded to it; a refusal is shown; a stale grant changes nothing |
| AvatarUpload.AvatarHook.ResolveUpload | apps/web/hooks/useAvatarUpload.ts:218-231 | A stored file is committed under the key of this attempt, any other ends it in an error; nothing else is called |
| AvatarUpload.AvatarHook.ResolveCommit | apps/web/hooks/useAvatarUpload.ts:231-261 | An image ready at once is activated, one still processing arms the poll of this attempt from zero, a failed one or a failed call ends it; a stale commit changes nothing |
| AvatarUpload.AvatarHook.ResolveStatus | apps/web/hooks/useAvatarUpload.ts:142-183 | A current poll goes on as PollReplyMeans says: it times out exactly on the last straw, and otherwise re-arms, activates, ends or reports; the reads of one arming stay within MAX_ATTEMPTS times MAX_FAILURES; a stale poll changes nothing but the latch |
| AvatarUpload.AvatarHook.ResolveActivate | apps/web/hooks/useAvatarUpload.ts:108-133 | The avatar on show becomes what the backend has set if and only if it did so for the newest attempt; a failure is shown |
| AvatarUpload.AvatarHook.ResolveRemove | apps/web/hooks/useAvatarUpload.ts:323-342 | The avatar on show is cleared if and only if the backend has removed it and nothing newer was started |
| Timeline.OneMorePage | apps/web/components/artwork/ArtworkTimeline.tsx:84-130 | Appending the page at the shown cursor turns a walk of k pages into one of k+1, with the empty-tail cut-off and the dropped sum |
| Timeline.FirstPage | apps/web/components/artwork/ArtworkTimeline.tsx:84-130 | Replacing from the first page gives a walk of one page in the target mode |
| Timeline.ReduceShows | apps/web/components/artwork/ArtworkTimeline.tsx:84-130 | Every action that fits the shown state leaves a plain cursor walk |
| Timeline.ReduceTells | apps/web/components/artwork/ArtworkTimeline.tsx:84-130 | What each fitting action makes of a walk of k pages: an appended page one of k+1 in the same mode, a replace the first page of its mode, a start or an error the same walk with its tail loading or in error |
| Timeline.InitialShows | apps/web/components/artwork/ArtworkTimeline.tsx:58-82 | The server-rendered first page is a walk of one page, its failure one of none with the tail in error |
| Timeline.CommitKeeps | apps/web/components/artwork/ArtworkTimeline.tsx:273-285 | Committing any prefix of the dispatched actions keeps the invariant |
| Timeline.CommitTells | apps/web/components/artwork/ArtworkTimeline.tsx:273-285 | However the actions were batched, a commit of all of them shows what the last one brings |
| Timeline.AnswerKeeps | apps/web/components/artwork/ArtworkTimeline.tsx:207-267 | Whatever answer arrives, it is the answer to the state still shown and nothing else is out |
| Timeline.AnswerMeans | apps/web/components/artwork/ArtworkTimeline.tsx:207-267 | An answer to a mounted timeline dispatches exactly the page that was asked for, or the error of that request, after what was there before |
| Timeline.StepKeepsInv | apps/web/components/artwork/ArtworkTimeline.tsx:192-285 | Every step keeps the invariant |
| Timeline.EveryRun | apps/web/components/artwork/ArtworkTimeline.tsx:192-285 | The invariant holds in every run, under any batching of commits |
| Timeline.ShownIsAWalk | apps/web/components/artwork/ArtworkTimeline.tsx:192-269 | In every run the events shown, the cursor and the dropped count are those of a plain cursor walk of the shown mode; at most one request is out, built from the committed cursor and mode |
| Timeline.LoadMoreBringsNextPage | apps/web/components/artwork/ArtworkTimeline.tsx:192-220 | Progress: from a walk of k pages with more to come and nothing on its way, a load that is answered and committed shows k+1 pages of the same mode and frees the lock; one that fails shows the same k pages with the tail in error |
| Timeline.ReplaceBringsFirstPage | apps/web/components/artwork/ArtworkTimeline.tsx:235-267 | A replace that is answered and committed shows the first page of the target mode; one that fails shows what was there, with the tail in error |
| Timeline.ReleaseIsExact | apps/web/components/artwork/ArtworkTimeline.tsx:283-285 | A commit frees the lock if and only if it commits an answer, except an error committed with its own start over a shown error |
| Timeline.LockNeverSticks | apps/web/components/artwork/ArtworkTimeline.tsx:192-285 | When every start commits before its answer, a mounted timeline holds its lock exactly while a request is out or an answer awaits commit |
| Timeline.LockCanStick | apps/web/components/artwork/ArtworkTimeline.tsx:235-285 | Without that there is a run after which no step ever frees the lock |
| Timeline.StuckStays | apps/web/components/artwork/ArtworkTimeline.tsx:283-285 | A lock held with nothing on its way is freed by no step |
| TimelineComponent.TimelineView.LoadMore | apps/web/components/artwork/ArtworkTimeline.tsx:192-207 | Sends one request, for the page at the shown cursor and mode, exactly when nothing is on its way and there are more pages |
| TimelineComponent.TimelineView.ReplaceFromFirstPage | apps/web/components/artwork/ArtworkTimeline.tsx:235-246 | Sends one request, for the first page of the target mode, exactly when nothing is on its way |
| TimelineComponent.TimelineView.ResolveRequest | apps/web/components/artwork/ArtworkTimeline.tsx:207-267 | Afterwards no request is out; mounted, what is dispatched is exactly the page asked for, or the error of that request, and it fits what is still shown; unmounted, nothing |
| TimelineComponent.TimelineView.Commit | apps/web/components/artwork/ArtworkTimeline.tsx:276-285 | After a commit of any prefix the list shown is a plain cursor walk; after a commit of everything it shows what the last action brings: one page more, the first page of the target mode, or the same walk; an answer committed alone frees the lock |
| Polling.StepKeepsInv | apps/web/hooks/useMyBidPolling.ts:87-213 | Every step of either poller keeps the invariant |
| Polling.EveryRun | apps/web/hooks/useTradePolling.ts:125-244 | The invariant holds in every run of either poller |
| Polling.OneChain | apps/web/hooks/useMyBidPolling.ts:87-202 | At most one timer and one read in flight, no timer while hidden; a visible, unstopped, mounted poller has a timer or a read in flight if and only if its seed was waiting or the run holds an un-hide or a refresh, and one that was not never reads |
| Polling.UnhidePollsAnySeed | apps/web/hooks/useMyBidPolling.ts:172-189 | The failed property "a null or terminal seed never polls": from any such seed, hide, wait five seconds and un-hide, and a read is in flight |
| Polling.StopsUntilRefresh | apps/web/hooks/useMyBidPolling.ts:99-151 | After a stop no step but a refresh makes a read or ends the stop |
| Polling.ReadTimesOut | apps/web/hooks/useMyBidPolling.ts:141-147 | A reply times the bid poller out exactly when it is a successful non-terminal read at visible time at or past the cap |
| Polling.ReadStops | apps/web/hooks/useMyBidPolling.ts:108-147 | A reply stops a mounted poller if and only if it is a terminal item, an expired session, one failure too many, or for a bid a read past the cap |
| Polling.ReadTells | apps/web/hooks/useMyBidPolling.ts:106-151 | What an answer tells a mounted poller: the item and surface shown, settled and failed kept apart, the failures in a row, and the last item kept through a failure |
| Polling.TimeoutIsVisibleTime | apps/web/hooks/useMyBidPolling.ts:68-85 | While not stopped the banked plus current segment is exactly the visible time since mount or refresh; timeout is reached exactly on a non-terminal successful read at or past the cap, and never by the trade poller |
| PollingHook.PollHook.constructor | apps/web/hooks/useTradePolling.ts:189-205 | Mounting arms a timer if and only if the seed is waiting and the page visible, and shows what the seed stands for |
| PollingHook.PollHook.ActiveElapsedMs | apps/web/hooks/useMyBidPolling.ts:80-85 | While not stopped, exactly the visible time since mount or refresh |
| PollingHook.PollHook.TimerFires | apps/web/hooks/useMyBidPolling.ts:99-104 | A firing timer starts a read unless one is running or polling has stopped, never two at once |
| PollingHook.PollHook.ResolveRead | apps/web/hooks/useTradePolling.ts:136-183 | An answer starts no read itself; mounted, it shows the item and surface it stands for, it stops polling exactly when it calls for a stop, and otherwise a visible poller has its timer armed; unmounted it changes nothing shown |
| PollingHook.PollHook.OnVisibility | apps/web/hooks/useMyBidPolling.ts:172-189 | Hiding stops the timer and keeps the elapsed time; showing sets a mounted, unstopped poller going whatever its seed, with a read at once unless one is running or has just ended |
| PollingHook.PollHook.Refresh | apps/web/hooks/useMyBidPolling.ts:204-213 | Mounted, a read is in flight afterwards, polling is not stopped and the failures and the budget of visible time start anew unless a read was already out, when nothing changes |
| KeyedRequest.StartKeeps | apps/web/hooks/useSubmitQuote.ts:82-99 | A start keeps body and key together |
| KeyedRequest.ResolveKeeps | apps/web/hooks/useSubmitQuote.ts:62-78 | A reply of any epoch keeps the latch exact |
| KeyedRequest.StepKeepsInv | apps/web/hooks/useSubmitQuote.ts:62-119 | Every step keeps the invariant |
| KeyedRequest.EveryRun | apps/web/hooks/useCreateRfq.ts:60-121 | The invariant holds in every run |
| KeyedRequest.OneBodyPerKey | apps/web/hooks/useCreateRfq.ts:60-121 | In every run all requests under one key carry the same body; while mounted the latch is held exactly while a current-epoch request is out; a superseded reply changes nothing |
| KeyedRequest.StartMeans | apps/web/hooks/useSubmitQuote.ts:82-99 | A start sends one request of a newer epoch than any other, and everything sent before under its key carried the same body |
| KeyedRequest.RequestHook.Submit | apps/web/hooks/useCreateRfq.ts:103-103 | An idle hook sends the body under a key no request has used; a busy one is left alone |
| KeyedRequest.RequestHook.Retry | apps/web/hooks/useSubmitQuote.ts:104-108 | From an error with a frozen body the same body goes out again, under the same key except after a mismatch, when it takes a key no request has used; otherwise nothing happens |
| KeyedRequest.RequestHook.StartOver | apps/web/hooks/useCreateRfq.ts:115-121 | Sends nothing, forgets body and key, frees the latch and supersedes every reply still to come |
| KeyedRequest.RequestHook.ResolveAction | apps/web/hooks/useSubmitQuote.ts:66-78 | A reply of the current epoch to a mounted hook is shown and frees the latch; any other changes neither |
| KycSubmission.EditKeeps | apps/web/hooks/useKycSubmission.ts:70-149 | A step that sends nothing drops the key or leaves the payload alone |
| KycSubmission.SubmitKeeps | apps/web/hooks/useKycSubmission.ts:195-242 | A submit sends the payload on screen under its key |
| KycSubmission.StepKeepsInv | apps/web/hooks/useKycSubmission.ts:70-260 | Every step keeps the invariant |
| KycSubmission.EveryRun | apps/web/hooks/useKycSubmission.ts:24-275 | The invariant holds in every run |
| KycSubmission.OnePayloadPerKey | apps/web/hooks/useKycSubmission.ts:70-260 | In every run, with edits, file checks and resets landing while submits are out, equal keys mean equal payloads, and a minted key stands for the payload on screen |
| KycSubmission.SubmitMeans | apps/web/hooks/useKycSubmission.ts:195-242 | A submit sends exactly when it may, the payload on screen, under a key that no other payload has been sent with; when it may not, the surface says why |
| KycSubmission.ResolveMeans | apps/web/hooks/useKycSubmission.ts:151-193 | A reply frees the latch and sends nothing; a failure shows what its code stands for; a key it keeps still stands for the payload on screen |
| KycSubmission.KycHook.SelectJurisdiction | apps/web/hooks/useKycSubmission.ts:70-78 | The chosen jurisdiction is on screen and saved, the files are kept, and the next submit takes a key no request has used |
| KycSubmission.KycHook.SetDocument | apps/web/hooks/useKycSubmission.ts:80-90 | A well-formed file goes into its check and any other is refused; neither changes key or payload |
| KycSubmission.KycHook.ResolveCheck | apps/web/hooks/useKycSubmission.ts:91-105 | A check that passes while mounted, whatever was submitted meanwhile, stores its file and drops the key; any other changes neither |
| KycSubmission.KycHook.RemoveDocument | apps/web/hooks/useKycSubmission.ts:107-117 | That file is gone and the others are kept, and the next submit takes a key no request has used |
| KycSubmission.KycHook.SubmitKyc | apps/web/hooks/useKycSubmission.ts:195-236 | Sends the payload on screen if and only if it may, under a key that no other payload has been sent with |
| KycSubmission.KycHook.ResolveSubmit | apps/web/hooks/useKycSubmission.ts:236-242 | Frees the latch and sends nothing; a success is confirmed and drops key and saved progress; a failure shows what its code stands for, and a key that is kept still stands for the payload on screen |
| KycSubmission.KycHook.ResetWizard | apps/web/hooks/useKycSubmission.ts:251-260 | Sends nothing, frees the latch and goes back to the first page without key, payload, files or saved progress |
| WalletTrustline.TraceExtends | apps/web/hooks/useWalletTrustline.ts:276-345 | A trace of rebuilds is extended by a submit on the sequence of an account read made after the last rebuild |
| WalletTrustline.TraceOutlivesReads | apps/web/hooks/useWalletTrustline.ts:337-345 | Further account reads leave the trace valid |
| WalletTrustline.TrustlineHook.PinnedAsset | apps/web/hooks/useWalletTrustline.ts:137-156 | The pinned asset is the configured one, given if and only if an issuer is configured and the asset matches it |
| WalletTrustline.TrustlineHook.RunPrecheck | apps/web/hooks/useWalletTrustline.ts:160-193 | One account read decides the surface; ready to sign only when funded, untrusted and without shortfall, with the sequence of that read |
| WalletTrustline.TrustlineHook.Start | apps/web/hooks/useWalletTrustline.ts:196-236 | With no issuer or another asset the wallet is never asked and nothing is read; otherwise it is asked, and for the bound account one account read decides the surface; any other account is blocked unread; a refusal is shown |
| WalletTrustline.TrustlineHook.Gate | apps/web/hooks/useWalletTrustline.ts:207-230 | The wallet is asked for its account, and the account is read only when it is the bound one |
| WalletTrustline.TrustlineHook.RunPoll | apps/web/hooks/useWalletTrustline.ts:239-259 | One to ten reads of that transaction, all but the last pending; the last decides: success exactly on a confirmed record, SUBMIT_FAILED on a failed one, CONFIRMATION_PENDING when the tenth is still pending |
| WalletTrustline.TrustlineHook.SubmitSigned | apps/web/hooks/useWalletTrustline.ts:305-306 | One submit, recorded with whether it was applied: always when confirmed, possibly when pending, never otherwise |
| WalletTrustline.TrustlineHook.Conclude | apps/web/hooks/useWalletTrustline.ts:308-333 | Each outcome other than rebuild leads to its surface: confirmed is a success, pending is polled and shows what the last poll says, a low reserve is one more account read and what it calls for; a success naming a transaction was confirmed by the submit or by the last poll |
| WalletTrustline.TrustlineHook.BuildSignSubmit | apps/web/hooks/useWalletTrustline.ts:276-306 | One attempt makes at most one submit, of the pinned asset, with the given sequence, after it was built and signed; without one it was unmounted, not built or not signed, and the surface says which |
| WalletTrustline.TrustlineHook.FreshSequence | apps/web/hooks/useWalletTrustline.ts:334-345 | After a rebuild one fresh account read gives the next sequence, or shows why it cannot; after three attempts it is exhausted, with no read |
| WalletTrustline.TrustlineHook.AfterAttempt | apps/web/hooks/useWalletTrustline.ts:306-345 | Another attempt follows only a rebuild outcome and its fresh account read; anything else ends the call with its polls and surface |
| WalletTrustline.TrustlineHook.Attempt | apps/web/hooks/useWalletTrustline.ts:276-345 | One attempt and what follows it extend the trace, or end the call with its reason |
| WalletTrustline.TrustlineHook.SignLoop | apps/web/hooks/useWalletTrustline.ts:275-345 | The attempts of a call: a trace, and why it ended |
| WalletTrustline.TrustlineHook.Sign | apps/web/hooks/useWalletTrustline.ts:263-350 | From a hook past its precheck the wallet is asked to sign; at most three submits, each after the first on a sequence read after the previous rebuild; every one but the last ended in rebuild and was not applied; it ends unmounted, without a submit, exhausted after the third rebuild, on an account it cannot use, or with what the last outcome calls for; a success naming a transaction names the last submit, which came back confirmed, or pending and was then confirmed by a poll; every built transaction trusts the pinned asset; a busy hook or one before its precheck does nothing |
| WalletTrustline.TrustlineHook.RecheckFunding | apps/web/hooks/useWalletTrustline.ts:354-364 | One account read, and the surface it calls for; no wallet or a busy hook: nothing happens; another asset or no issuer: a blocked gate and no read |
| WalletTrustline.TrustlineHook.Retry | apps/web/hooks/useWalletTrustline.ts:369-376 | Past the precheck it signs again, with the guarantees of a sign; otherwise it starts over with the last wallet, with those of a start, and submits nothing; with no wallet or a busy hook nothing happens |
| WalletTrustline.TrustlineHook.Reset | apps/web/hooks/useWalletTrustline.ts:378-386 | A reset forgets the provider, the sequence and the anchor |
| Amount.FormatStroops | apps/backoffice/src/lib/amount.ts:38-77 | Fails exactly on text that is not an optional minus and digits, or when a negative digit count is asked for |
| Amount.ExactReadBack | apps/backoffice/src/lib/amount.ts:38-77 | Ungrouped at full precision, the text read back and scaled by ten to the decimals is the input, and it is canonical |
| Amount.CanonicalIsUnique | apps/backoffice/src/lib/amount.ts:63-76 | A number has one canonical text |
| Amount.LayoutInjective | apps/backoffice/src/lib/amount.ts:73-75 | A text can be taken apart into sign, whole part and fraction in one way only |
| Amount.ReadsOnce | apps/backoffice/src/lib/amount.ts:73-75 | A text reads as at most one number |
| Amount.SameTextSameValue | apps/backoffice/src/lib/amount.ts:38-77 | Two inputs print the same at full precision if and only if they are the same number |
| Amount.RoundedValue | apps/backoffice/src/lib/amount.ts:53-60 | With fewer display digits, exactly that many are shown, the sign is kept, zero has no minus; half-up is within half a unit with ties away from zero, trunc below by less than a unit in magnitude |
| Amount.PaddedValue | apps/backoffice/src/lib/amount.ts:62-71 | With at least as many display digits as decimals, exactly that many are shown and the value is exact |
| Amount.ShiftedValueIsTimes | apps/backoffice/src/lib/amount.ts:62-71 | The padded value is the input times a power of ten |
| Amount.DecorationOnly | apps/backoffice/src/lib/amount.ts:73-76 | Grouping and the symbol change no digit: removing the commas gives the plain whole part, commas stand exactly at every fourth place from the right, the symbol follows one space |
| Amount.ReduceRounds | apps/backoffice/src/lib/amount.ts:53-59 | Integer rounding lands within its bound |
| Amount.PartsDenote | apps/backoffice/src/lib/amount.ts:62-71 | The printed parts of a magnitude at a scale denote that magnitude |
| Digits.DivideIsDivision | apps/backoffice/src/lib/amount.ts:55-57 | The digit-by-digit quotient and remainder are division and remainder by a power of ten |
| Digits.ParsePrint | apps/backoffice/src/lib/amount.ts:65-73 | Reading a printed number gives the number |
| Digits.PrintParse | apps/backoffice/src/lib/amount.ts:65-73 | A numeral without leading zeros is the printed form of its number |
| Digits.UngroupGroup | apps/backoffice/src/lib/amount.ts:73-73 | Grouping inserts commas and changes nothing else |
| Digits.GroupPositions | apps/backoffice/src/lib/amount.ts:73-73 | Exactly every fourth character from the right of a grouped number is a comma |
| IdempotencyKey.KeyMinter.FillFromCounter | apps/web/lib/idempotency.ts:17-18 | The loop fills the array with the counter bytes and moves the counter on by one |
| IdempotencyKey.KeyMinter.MintIdempotencyKey | apps/web/lib/idempotency.ts:9-27 | The platform UUID if there is one, else a key shaped from random or counter bytes; the counter moves only when used |
| IdempotencyKey.KeyIsVersion4 | apps/web/lib/idempotency.ts:20-25 | For any 16 bytes the key is 8-4-4-4-12 lower-case hex with version nibble 4 and variant bits 10 (RFC 9562, section 5.4) |
| IdempotencyKey.KeyTextAt | apps/web/lib/idempotency.ts:22-25 | Every byte stands in the key as its two hex digits at a fixed place |
| IdempotencyKey.KeyDeterminesBytes | apps/web/lib/idempotency.ts:20-25 | Two keys are equal if and only if the bytes agree outside the six overwritten bits |
| IdempotencyKey.CounterKeysRepeat | apps/web/lib/idempotency.ts:7-18 | Two counter-made keys are equal if and only if the counters agree modulo 256 |

## Left out

- React rendering, focus, announcements and copy: user interface only; error messages appear as codes.
- Timer lengths, backoff, jitter and staged intervals: a timer may fire at any later moment, so the theorems do not depend on them.
- The clock of the rotation poll gives any reading at any time; the read bound holds without its ceiling.
- Server actions, services, fetch, WebAuthn, Freighter, Albedo, Horizon and image decoding: each answers with any result its type allows. Only the rotation backend is held to a contract (RotationServer), and of the services only the codes of a submit answer are modelled (SubmitCodes).
- The trustline network is assumed to apply only transactions it answers confirmed or pending, as its submit function classifies them; the reserve shortfall is an arbitrary amount.
- Amounts in the ceremonies are natural numbers; the checks on decimal strings at the wire are not modelled.
- Minted keys are fresh in every machine; the fallback minter, which is only fresh modulo 256, is modelled on its own.
- The gap of one microtask between the last state change and a `finally` block is one atomic step, except in the requests of KeyedRequest, where it is harmless.
- WalletRotation.RotationHook.Drive: one driver at a time; `resume` and `reset` free the latch, so the single-flight of two overlapping drives is not claimed.
- WalletTrustline.TrustlineHook.Sign: one sign call at a time; a reset during a sign frees the latch, and two overlapping signs are not modelled.
- RotationServer.Server.Submit: a submit lands before it answers or never; a lost submit that is still travelling when it has been reported lost, and lands after a later status read, is not modelled.
- Ceremony.EveryRun: a bid reset during a pending call is excluded, since the invariant then fails (BidResetMixesKeys).
- Avatar.EveryRun: unsafe retries are excluded, since the invariant then fails (UnsafeRetryActivatesOldImage).
- Timeline.ShownIsAWalk: the server answers from one snapshot; an append answer is a function of mode and cursor.
- KeyedRequest.OneBodyPerKey: a component that is unmounted does not mount again; the same holds of the avatar, KYC, polling and rotation models. The ceremonies mount and unmount freely.
- Avatar image ids are natural numbers, so an empty id, which the source treats as missing, does not occur.
- Amount.FormatStroops: digit counts are integers; a fractional count, on which the source throws, is not modelled. Padding, quotient and remainder by powers of ten are written digit by digit, with DivideIsDivision as the link.
- IdempotencyKey.KeyMinter.FillFromCounter: the counter is unbounded; the source's loses precision past 2 to the 53.
- The read of the locale formatter for grouping is modelled as commas every three digits, its en-US behaviour.
- useWalletExport, useWhitelistStatusPolling, useHandlePicker, useWalletAdd, usePasskeyEnroll, useWalletConnect, the form hooks and the countdowns: weaker forms of the machines above, or user interface.
- The NestJS configuration, the backoffice proxy, cookies and session refresh: plumbing without an algorithm.

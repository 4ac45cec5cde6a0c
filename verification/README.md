# Verification of the practice-management app

Dafny models of the parts of the application that hold real state, with proofs about
every run of them. `dafny verify dfyconfig.toml` checks everything.

Code that changes things step by step is modelled twice: as a value and a function on
it, about which the properties are proved, and as a class or a method with loops, whose
contract says that it reaches exactly the value the function gives. So every property of
the function is one of the object.

## What is modelled

**Video calls** (`CallPermissions`, `CallProtocol`, `CallLog`, `CallInvariants`,
`CallRequests`, `CallClaims`, `CallRouter`). One call with its legs, invitations, event
log and lazy timeout, stepped by requests in any order; each request reads the clock
once and time never goes back. Events carry that same reading; in the database they are
stamped by the server's own clock (`backend/app/models.py:1370`), so the log rebuilds
timestamps only as far as the two clocks agree, and everything else regardless. Profiles
and client ownership are fixed over a run, and the ringing timeout is a parameter. A
request that fails rolls its whole transaction back (`backend/app/db.py:74-81`), so a
rejected late accept leaves the call ringing although the docstring at
`backend/app/routers/calls.py:134-141` says that touching it expires it;
`CallClaims.OverdueCallIsMissedExactly` says which requests do. A call whose token
cannot be minted is not joined. The comment at `backend/app/routers/calls.py:492-493`
speaks of everybody having declined; the code counts open legs, so removed invitees
count as gone too. Reading calls is a `Touch`, and so is a token request, accept or
decline that succeeds on another call, for it also expires this one.

Three claims one might make are false, each with its exact condition and a run that
breaks it: one pending invitation per person (a removal leaves the invitation pending, a
new invitation adds another), a connected call has a callee in it (the initiator's own
leg may accept), and one company per call (an invitation does not repeat the check made
at creation).

**Backup sync** (`Envelope`, `SyncProtocol`, `SyncEffects`, `SyncSafety`,
`SyncPublication`, `SyncReports`, `SyncRunner`). The disk, the state file and the
server's acknowledgements, under a schedule that lets every step complete, throw, or be
the last before a crash; steps that are not atomic may stop half way. Runs do not
overlap, the process may stop but the disk keeps what it was given, and rename is
atomic. The password may change from run to run: a directory is complete under some one
password. The comment at `desktop/src/sync.js:14-20` says that a published directory is
only ever written once and never half finished. The code removes it first when it
fetches an unrecorded snapshot again, and `SyncPublication.PublicationIsCompleteExactly`
says exactly when that can hurt; `SyncPublication.RetryCanBreakAnAckedSnapshot` is how
it comes about. An acknowledgement is always sound when it is sent. If the last save
throws, the error path saves a state that records the snapshot with status "failed"; the
record is still true. An error noted by one run stays in the state file when the next
finds its snapshot already recorded (`desktop/src/sync.js:54-60`). The envelope is a
printer and a parser over any cipher that meets sections 7.1 and 7.2 of NIST SP 800-38D.

**Invoices** (`Ledger`, `LedgerActions`, `LedgerTotals`, `InvoiceRouter`). Cents,
quantities in hundredths, rates in hundredths of a percent, exact rounding half to even.
A void invoice is not final: lowering the total of a part-paid invoice does not settle
it, and deleting a payment after voiding can then make it paid
(`Ledger.VoidIsFinalExactly`).

**Bulk import** (`BulkImport`, `YearEnd`). The client importer's counters are right for
every firm exactly when no row that passes the first checks carries a `created_by`
column: for a new client that value is passed twice, and the exception comes before the
counters move while the handler takes them back all the same
(`backend/app/routers/imports.py:434-444`). The year-end parser reads each spelling
back; an accepted row can still move an existing client to a day that does not exist,
when it has a day above 29 and no month, because the check fills the month in with
December and the update does not.

**Migrations** (`Migrations`, `MigrationCommands`). Any number of apply and baseline
runs at once, interleaved at their commits.

**Task timers** (`Timers`). Besides the totals: reassigning a task whose timer runs
leaves the old assignee unable to stop it or to start another.

**Deadlines** (`Deadlines`). Generation over an arbitrary planner.

**Redirect guard** (`RedirectGuard`). Where every visitor comes to rest.

## Model

| member | source | states |
|---|---|---|
| CallPermissions.CanCallIsTheMatrix | backend/app/permissions.py:285-323 | The chain of early returns allows a call exactly when the target is active, is somebody else, and the documented matrix has an edge between the two, in either direction. |
| CallPermissions.CanCallIsSymmetric | backend/app/permissions.py:285-323 | Between active profiles, whoever may be called may call back. |
| CallPermissions.EdgeStaysInFirm | backend/app/permissions.py:306-323 | An edge without a platform superadmin at either end stays inside one tenant. |
| CallLog.LogRebuildsTheCall | backend/app/routers/calls.py:237-258 | Folding the append-only event log from nothing rebuilds every field of the call, of every leg and of every invitation, after any run of requests on any created call; the point where a decline closes the whole call included. |
| CallLog.StepIsFaithful | backend/app/routers/calls.py:393-671 | Every request, accepted or rejected, keeps the log a complete record. |
| CallLog.CreatedIsFaithful | backend/app/routers/calls.py:222-258 | The events written at creation already determine the new rows. |
| CallLog.JoinIsFaithful | backend/app/routers/calls.py:393-420 | Joining while the call rings writes two events whose replay answers the invitations only once. |
| CallLog.EndIsFaithful | backend/app/routers/calls.py:542-559 | Leaving and ending in one request replay to the same leg, status, end and duration. |
| CallLog.StepAppends | backend/app/routers/calls.py:397-671 | A request only ever appends to the log, at most two events. |
| CallLog.RunAppends | backend/app/routers/calls.py:397-671 | No later run rewrites what the log already says. |
| CallInvariants.EveryReachableCallIsGood | backend/app/routers/calls.py:134-671 | In every reachable call: the lifecycle and its timestamps, one initiator, the fit of legs and invitations, no invitee ever in an unanswered call, and a chain of permitted edges from the initiator to everybody; without the platform in it, all are of the call's tenant. |
| CallInvariants.StepKeepsLifecycle | backend/app/routers/calls.py:386-559 | `ended_at` is set exactly in terminal statuses, `connected_at` exactly when an acceptance is on the log and only in accepted or ended calls, within the ringing timeout of the start although expiry is lazy; the duration is the whole seconds between them. |
| CallInvariants.StepKeepsInvitations | backend/app/routers/calls.py:393-671 | A ringing leg has a pending invitation, and a pending invitation belongs to a leg that is ringing or removed. |
| CallInvariants.StepKeepsUnanswered | backend/app/routers/calls.py:393-504 | Until somebody accepts, no leg but the initiator's has ever joined. |
| CallInvariants.StepKeepsLinks | backend/app/permissions.py:326-341 | Every participant stays linked to the initiator by permitted calls between participants. |
| CallInvariants.OneCompanyWithoutPlatform | backend/app/routers/calls.py:200-220 | A good call without platform participants lies within the initiator's tenant. |
| CallInvariants.CreatedIsGood | backend/app/routers/calls.py:188-270 | A created call starts ringing with exactly the requested invitees beside the caller, and satisfies every invariant. |
| CallInvariants.TerminalIsForever | backend/app/routers/calls.py:54-54 | Once a call is over, no run of requests changes its status, connection, end or duration. |
| CallRequests.CreatesExactly | backend/app/routers/calls.py:192-218 | A call is created if and only if somebody else is asked for, everybody asked for is known and may be called, and all outside the platform are of one company. |
| CallRequests.TokenTakesEffect | backend/app/routers/calls.py:384-420 | Accepted if and only if the caller's leg is neither declined nor removed, the call is live and tokens are configured; then the leg is joined, its invitations accepted, the call connected when a callee answers, and nothing about anybody else changes. |
| CallRequests.AcceptTakesEffect | backend/app/routers/calls.py:443-466 | Accepted if and only if the leg is invited or ringing and the call live; then the leg is joined and the call accepted, connected now if it was ringing, and nothing about anybody else changes. |
| CallRequests.DeclineTakesEffect | backend/app/routers/calls.py:473-504 | Accepted if and only if the leg is invited or ringing; the leg is declined, and the call becomes missed when overdue, declined when nobody else is there or expected, and stays as it was otherwise. |
| CallRequests.CancelTakesEffect | backend/app/routers/calls.py:513-521 | Accepted if and only if the initiator asks while the call rings; only the status and the end change. |
| CallRequests.EndTakesEffect | backend/app/routers/calls.py:539-559 | Leaving ends a call that is not over if and only if the initiator leaves or nobody else is in it; otherwise only the leaver's leg changes. |
| CallRequests.InviteTakesEffect | backend/app/routers/calls.py:591-618 | Accepted if and only if the inviter is in the call, may call the invitee and the invitee has no open leg; then that leg rings from now and one pending invitation is added. |
| CallRequests.RemoveTakesEffect | backend/app/routers/calls.py:647-663 | Accepted if and only if the initiator asks for somebody else in the call; then only that leg changes. |
| CallRequests.TouchTakesEffect | backend/app/routers/calls.py:142-157 | Reading records a miss if and only if the reader is in an overdue ringing call, and changes nothing else. |
| CallRequests.RefusalChangesNothing | backend/app/db.py:74-81 | A refused request changes nothing at all. |
| CallClaims.DeclineClosesExactly | backend/app/routers/calls.py:492-504 | A decline closes the call exactly when it is still ringing in time and no other invitee's leg is open; then no invitee was ever in it. |
| CallClaims.OverdueCallIsMissedExactly | backend/app/routers/calls.py:134-159 | An overdue ringing call becomes missed if and only if a participant reads it, or declines it with a leg that can still decline; accepting, fetching a token, cancelling, ending, inviting and removing never record the miss. |
| CallClaims.LateAnswerIsRolledBack | backend/app/routers/calls.py:384-449 | A late accept or token request is refused, and its expiry is rolled back with it: the call is as it was. |
| CallClaims.LateAnswerLeavesTheCallRinging | backend/app/routers/calls.py:442-449 | A created call that is accepted a second past its timeout is refused and goes on ringing. |
| CallClaims.ConnectionHasACallee | backend/app/routers/calls.py:441-468 | A request that connects the call brings in a callee if and only if it is not the initiator's own. |
| CallClaims.InviteKeepsOnePending | backend/app/routers/calls.py:597-619 | An invitation keeps one pending invitation per person if and only if the invitee had not been removed with one still unanswered. |
| CallClaims.OtherStepsKeepOnePending | backend/app/routers/calls.py:411-671 | No other request can duplicate a pending invitation. |
| CallClaims.InviteKeepsOneTenant | backend/app/routers/calls.py:591-611 | An invitation keeps the call within one tenant if and only if the inviter is not the platform or the invitee is of the call's tenant. |
| CallClaims.OtherStepsKeepOneTenant | backend/app/routers/calls.py:372-673 | No other request brings anybody in, so it keeps one tenant. |
| CallClaims.CreatedInOneTenant | backend/app/routers/calls.py:78-92 | Every created call starts out within the tenant it is stored under. |
| CallClaims.RemovalThenReinvitationLeavesTwoPending | backend/app/routers/calls.py:605-671 | A four-request run after which one person has two pending invitations. |
| CallClaims.InitiatorCanAnswerTheirOwnCall | backend/app/routers/calls.py:446-457 | An initiator accepts their own call: it is connected and the callee has not joined. |
| CallClaims.PlatformCanMixCompanies | backend/app/routers/calls.py:591-611 | A run in which the platform, joined to one company's call, invites another company's owner. |
| CallRouter.CallSession.constructor | backend/app/routers/calls.py:222-258 | The rows of a new call are those the protocol opens with. |
| CallRouter.CallSession.ExpireStaleRinging | backend/app/routers/calls.py:134-159 | Marks the call missed exactly when the protocol's lazy expiry does. |
| CallRouter.CallSession.AnswerInvitations | backend/app/routers/calls.py:411-419 | The bulk update answers exactly the caller's pending invitations. |
| CallRouter.CallSession.CreateCallToken | backend/app/routers/calls.py:372-438 | Joining by fetching a token: the new rows, or the right refusal. |
| CallRouter.CallSession.AcceptCall | backend/app/routers/calls.py:442-468 | Accepting: the new rows, or the right refusal. |
| CallRouter.CallSession.DeclineCall | backend/app/routers/calls.py:472-506 | Declining, with the count of open invitees: the new rows, or the right refusal. |
| CallRouter.CallSession.CancelCall | backend/app/routers/calls.py:510-531 | Cancelling: the new rows, or the right refusal. |
| CallRouter.CallSession.EndCall | backend/app/routers/calls.py:535-561 | Leaving and perhaps ending: the new rows, or the right refusal. |
| CallRouter.CallSession.InviteParticipant | backend/app/routers/calls.py:584-640 | Inviting: the new rows, or the right refusal. |
| CallRouter.CallSession.RemoveParticipant | backend/app/routers/calls.py:644-673 | Removing: the new rows, or the right refusal. |
| CallRouter.CallSession.Serve | backend/app/db.py:74-81 | One request in its own transaction: the rows reach the protocol's next state, and an error leaves every row as it was. |
| CallRouter.CreateCall | backend/app/routers/calls.py:188-270 | Creates the call the protocol creates, or refuses with the same error. |
| Envelope.DecryptInvertsEncrypt | desktop/src/crypto-envelope.js:51-134 | Decrypting an encrypted file gives the plaintext back, the empty one included, for any lawful cipher. |
| Envelope.AcceptsExactlyEnvelopes | desktop/src/crypto-envelope.js:80-134 | A file decrypts to a plaintext if and only if it is the envelope of that plaintext under the salt and iv of its own header. |
| Envelope.PrintedRanges | desktop/src/crypto-envelope.js:88-113 | The offsets the reader uses cut a written file into exactly the parts it was written from. |
| Envelope.LayoutIs | desktop/src/crypto-envelope.js:28-71 | A file is the bytes 53 4E 42 4B 01 01, the salt, the iv, then ciphertext and tag under the key of password and salt. |
| Envelope.RangesPartition | desktop/src/crypto-envelope.js:28-34 | Header, body and tag ranges partition any file of at least 50 bytes. |
| Envelope.RefusesForeignFiles | desktop/src/crypto-envelope.js:80-97 | A file under 50 bytes, or with another magic, version or kdf byte, is refused before any decryption, and is no envelope of anything. |
| Envelope.TamperingIsNoticed | desktop/src/crypto-envelope.js:73-79 | A file changed behind its header never decrypts to the same plaintext. |
| Envelope.ChangedTagIsRefused | desktop/src/crypto-envelope.js:101-106 | With a counter-mode cipher, a file whose tag alone was changed is refused. |
| Envelope.LawsAreConsistent | desktop/src/crypto-envelope.js:42-55 | The laws asked of the cipher can be met. |
| Envelope.EncryptFile | desktop/src/crypto-envelope.js:51-71 | Written in order: header, ciphertext, tag. |
| Envelope.DecryptFile | desktop/src/crypto-envelope.js:80-134 | Read at offsets: the plaintext, or the refusal the parser gives. |
| Envelope.File.Read | desktop/src/crypto-envelope.js:88-102 | A read fills the buffer with the file's bytes from its position. |
| SyncReports.RecordedDigestsHold | desktop/src/sync.js:83-90 | After any runs, every component of a recorded snapshot that the manifest gives a digest decrypts to bytes of that digest. |
| SyncReports.RecordedFilesAreFour | desktop/src/sync.js:34-34 | And its directory holds the four named files and nothing else, each at the path on record. |
| SyncReports.OneWrongDownloadIsEnough | desktop/src/backup-client.js:160-167 | One download with the wrong digest, and the run publishes, acknowledges and records nothing, whatever else happens, and does not finish. |
| SyncReports.QuietRunReports | desktop/src/sync.js:42-135 | What every field of the state file says after a run without faults: nothing ready, already recorded, fetched, or failed. |
| SyncEffects.AcceptedDownloadsMatch | desktop/src/backup-client.js:161-161 | Every download passes exactly when each has the digest the manifest records for it. |
| SyncSafety.HistoryIsSafe | desktop/src/sync.js:36-137 | Over any number of runs, each free to throw or crash at any step: a snapshot recorded complete has a published directory of exactly its four encrypted components, each decrypting to bytes with the manifest's digest; no run removes that directory or its record; and no directory under a snapshot's name holds plaintext. |
| SyncSafety.RunIsSafe | desktop/src/sync.js:41-136 | The same for one run, whatever faults it meets. |
| SyncSafety.AttemptAcksSoundly | desktop/src/sync.js:41-126 | From any disk, with any state and under any faults, an acknowledgement is sent only at a moment when the snapshot's published directory is complete, whether or not it was acknowledged before. |
| SyncSafety.RunAcksSoundly | desktop/src/sync.js:36-137 | The same for a whole run: the start and the error path acknowledge nothing unsound either. |
| SyncSafety.StagingAcksSoundly | desktop/src/sync.js:71-106 | The same from any point of the component loop. |
| SyncSafety.AckedMeansPublished | desktop/src/sync.js:95-106 | A snapshot newly acknowledged during a run is published complete when that run ends or crashes. |
| SyncSafety.FinishedMeansRecorded | desktop/src/sync.js:108-126 | A run that ends without error leaves the latest ready snapshot recorded, and acknowledged if it was fetched just then. |
| SyncSafety.RecordedPathsExist | desktop/src/sync.js:99-111 | Every path a completed record lists leads to a file. |
| SyncSafety.RepeatedRunChangesOnlyStatus | desktop/src/sync.js:52-61 | After a finished run, another that finds the same latest ready snapshot, or none, changes status fields only, whatever goes wrong in it. |
| SyncSafety.QuietRunSucceedsExactly | desktop/src/sync.js:62-126 | Without faults a run succeeds if and only if nothing is to fetch or the bytes of every download hash to what the manifest records; debris of earlier crashes never stands in the way. |
| SyncSafety.RunKeepsRecord | desktop/src/sync.js:127-136 | A record that is complete before a run, and its directory, are the same after it. |
| SyncEffects.RunHasEffect | desktop/src/sync.js:36-137 | Everything a run can have changed, wherever it stopped. |
| SyncEffects.SaveIsAtomic | desktop/src/sync-state.js:39-45 | Saving leaves the old state file or the whole new one. |
| SyncEffects.StagingRuns | desktop/src/sync.js:71-93 | Staging either completes with four good encrypted files and no plaintext, or ends the run with only the staging directory touched. |
| SyncEffects.PublishRuns | desktop/src/sync.js:95-123 | From a complete staging directory, remove, rename, acknowledge, record and save stop only in honest states. |
| SyncEffects.LatestIsListed | desktop/src/sync.js:52-52 | The reduction picks the last listed snapshot of the greatest sequence. |
| SyncEffects.RecordedPathIsFinal | desktop/src/sync.js:99-104 | Replacing the staging name in a recorded path gives the published path. |
| SyncPublication.PublicationIsCompleteExactly | desktop/src/sync.js:95-98 | Published directories stay complete under every fault if and only if the run does not download again a snapshot whose directory is already there unrecorded. |
| SyncPublication.MismatchLeavesPublished | desktop/src/sync.js:83-98 | A run with a download that does not have the manifest's digest touches neither the published directory nor the acknowledgements nor the records. |
| SyncPublication.RepublishingCanBreak | desktop/src/sync.js:97-97 | A crash while the old directory is being removed leaves a published directory without one of its components. |
| SyncPublication.AckedStaysPublishedExactly | desktop/src/sync.js:95-106 | Acknowledged snapshots stay published under every fault if and only if the run does not download an acknowledged one again over its unrecorded directory. |
| SyncPublication.CrashLeavesRepublishing | desktop/src/sync.js:98-123 | Any run that fetches a new snapshot can crash at the acknowledgement and leave every directory complete, the snapshot unrecorded and perhaps acknowledged, and the next run bound to fetch it again. |
| SyncPublication.RetryCanBreakAnAckedSnapshot | desktop/src/sync.js:97-123 | Such a crash and a retry that crashes in turn end with an acknowledged snapshot whose published directory is not complete. |
| SyncRunner.Desktop.RunSync | desktop/src/sync.js:36-137 | The run written as loads, assignments, disk steps and saves ends exactly where the protocol's plan ends under the same faults. |
| SyncRunner.Desktop.TrySync | desktop/src/sync.js:41-126 | The try block, with both early exits, performs the protocol's attempt. |
| SyncRunner.Desktop.FetchSnapshot | desktop/src/sync.js:64-126 | Clearing, staging and publishing in the order of the plan. |
| SyncRunner.Desktop.StageComponents | desktop/src/sync.js:71-93 | The loop over the components performs the plan's staging. |
| SyncRunner.Desktop.SyncComponent | desktop/src/sync.js:72-93 | One component: its four steps, or the clean-up of a mismatch and a throw; it goes through only with bytes of the manifest's digest. |
| SyncRunner.Desktop.PublishSnapshot | desktop/src/sync.js:95-123 | The publishing steps in the order of the plan. |
| SyncRunner.Desktop.SaveState | desktop/src/sync-state.js:39-45 | Temporary file, then rename. |
| SyncRunner.DownloadToFile | desktop/src/backup-client.js:149-169 | The file holds exactly the bytes that were hashed, and survives exactly when the digest matches or none is expected. |
| Ledger.RoundMeetsDefinition | backend/app/routers/firm_invoices.py:59-62 | The rounding used meets the definition of half to even. |
| Ledger.RoundingIsUnique | backend/app/routers/firm_invoices.py:59-62 | That definition leaves one answer. |
| Ledger.TotalIsClose | backend/app/routers/firm_invoices.py:59-92 | For n items and any nonnegative rate the total is within (1 + r/100) n/2 + 1/2 cents of the exact price. |
| Ledger.EveryReachableInvoiceIsValid | backend/app/routers/firm_invoices.py:236-405 | Over any run of edits, sends, payments, deletions and voids: totals are those of the current items and rate, `amount_paid` is the sum of the payments, paid means covered, `paid_on` is set exactly when paid and is the latest payment's day, and a draft has no payments. |
| Ledger.StepKeepsValid | backend/app/routers/firm_invoices.py:236-405 | Each action keeps that. |
| Ledger.CreatedIsValid | backend/app/routers/firm_invoices.py:164-219 | A new invoice satisfies it. |
| Ledger.PaymentSettles | backend/app/routers/firm_invoices.py:321-333 | After any payment change the invoice is paid exactly when the payments cover a positive total. |
| Ledger.WithoutPaymentTakesOne | backend/app/routers/firm_invoices.py:385-390 | Deleting a payment takes out one payment with that id and no other. |
| LedgerActions.CreatedAsGiven | backend/app/routers/firm_invoices.py:164-219 | A new invoice is an unpaid draft of the given client, rate, due day, recipient and items, rightly priced. |
| LedgerActions.EditTakesEffect | backend/app/routers/firm_invoices.py:242-257 | Accepted if and only if the invoice is not locked; rate, due day, recipient and items are those given, or else the old ones; the totals fit them by the definition of rounding; nothing else changes. |
| LedgerActions.SendTakesEffect | backend/app/routers/firm_invoices.py:272-285 | Accepted if and only if the invoice is not locked, has items and ends up with a recipient; only status and recipient change. |
| LedgerActions.PayTakesEffect | backend/app/routers/firm_invoices.py:346-363 | Accepted if and only if neither draft nor void; the payment is added to list and sum, the status settled, nothing else changed. |
| LedgerActions.UnpayTakesEffect | backend/app/routers/firm_invoices.py:385-392 | Accepted if and only if there is such a payment; the first is taken out of list and sum, the status settled, nothing else changed. |
| LedgerActions.VoidTakesEffect | backend/app/routers/firm_invoices.py:401-404 | Accepted if and only if not paid; only the status changes. |
| LedgerActions.DuplicatedAsGiven | backend/app/routers/firm_invoices.py:415-452 | A duplicate has the same client, rate, recipient, quantities and prices, falls due in thirty days and is an unpaid draft. |
| Ledger.VoidIsFinalExactly | backend/app/routers/firm_invoices.py:321-405 | A void invoice stays void under every run of actions if and only if no single deletion leaves its positive total covered. |
| Ledger.VoidCanBecomePaid | backend/app/routers/firm_invoices.py:321-405 | A run that lowers a price below what was paid, voids, deletes a payment, and ends paid. |
| Ledger.DuplicateReproducesTotals | backend/app/routers/firm_invoices.py:408-453 | A duplicate is a valid unpaid draft with the same items, subtotal, tax and total. |
| LedgerTotals.DueDayDecides | backend/app/routers/firm_invoices.py:51-56 | A sent invoice is outstanding up to its due day and overdue from the next; no other is either. |
| LedgerTotals.FirmTotalAdds | backend/app/routers/firm_invoices.py:153-157 | Each figure adds up over the invoices. |
| LedgerTotals.LedgerBalances | backend/app/routers/firm_invoices.py:139-160 | Billed less collected is outstanding plus overdue plus the unpaid balance of void invoices less the overpayment on paid ones. |
| LedgerTotals.PortalsAddUpToFirm | backend/app/routers/client_firm_invoices.py:68-86 | Each column, summed over all clients' portals, is the firm's. |
| InvoiceRouter.FirmInvoice.Retotal | backend/app/routers/firm_invoices.py:59-62 | The stored totals become those of the items. |
| InvoiceRouter.FirmInvoice.ReplaceItems | backend/app/routers/firm_invoices.py:65-92 | The items become the priced inputs, in order, and the totals theirs. |
| InvoiceRouter.FirmInvoice.ApplyPaymentState | backend/app/routers/firm_invoices.py:321-333 | Amount paid, status and paid day become those the ledger derives from the payments. |
| InvoiceRouter.FirmInvoice.UpdateInvoice | backend/app/routers/firm_invoices.py:237-259 | An edit, or its refusal with nothing changed. |
| InvoiceRouter.FirmInvoice.SendInvoice | backend/app/routers/firm_invoices.py:263-284 | Sending, or its refusal with nothing changed. |
| InvoiceRouter.FirmInvoice.RecordPayment | backend/app/routers/firm_invoices.py:337-363 | A payment, or its refusal with nothing changed. |
| InvoiceRouter.FirmInvoice.DeletePayment | backend/app/routers/firm_invoices.py:380-392 | Removal of the first payment with that id, or a refusal with nothing changed. |
| InvoiceRouter.FirmInvoice.VoidInvoice | backend/app/routers/firm_invoices.py:398-405 | Voiding, or its refusal with nothing changed. |
| InvoiceRouter.FirmInvoice.DuplicateInvoice | backend/app/routers/firm_invoices.py:409-453 | A new row equal to the ledger's duplicate; the source is untouched. |
| BulkImport.RemainingAgreesWithCheck | backend/app/seats.py:41-95 | The importer's remaining seats are used up exactly when the one-row check would refuse. |
| BulkImport.BooksAreRightExactly | backend/app/routers/imports.py:383-446 | After any rows, whichever fail: the local budget is a fresh recount, every row is counted once and the cap holds, if and only if no row that came to build a new client carried `created_by`. |
| BulkImport.ExistingIs | backend/app/routers/imports.py:406-419 | A row is about the first client with its code, else the first with its stripped name, and about a new one if and only if there is neither or updating is off. |
| BulkImport.RowUpdates | backend/app/routers/imports.py:425-430 | A proper row about a client sets that client's code, if it has one, and name, and counts as updated; or it fails at the flush and counts as failed. |
| BulkImport.RowCreates | backend/app/routers/imports.py:421-437 | A proper row about nobody adds a client and uses a seat; without a seat, or failing at the flush, it counts as failed and changes nothing else. |
| BulkImport.ImproperRowFails | backend/app/routers/imports.py:394-404 | A row without a name, or with a fee above zero and under fifty dollars, counts as failed and changes nothing else. |
| BulkImport.HarmlessSheetsExactly | backend/app/routers/imports.py:393-446 | A sheet keeps the books right for every firm, cap, mode and pattern of failures if and only if each of its rows is rejected by the first checks or carries no `created_by`. |
| BulkImport.HarmlessSheetHasNoStrays | backend/app/routers/imports.py:393-446 | On such a sheet they are right after every row. |
| BulkImport.StrayRowBreaksTheCap | backend/app/routers/imports.py:431-446 | With a cap of one, a row carrying `created_by` lets two clients in. |
| BulkImport.CommitRow | backend/app/routers/imports.py:393-446 | One row with its savepoint and counters does what the model's row does. |
| BulkImport.CommitClients | backend/app/routers/imports.py:380-446 | The loop's clients, budget and counters are those of the model, and right for every harmless sheet. |
| BulkImport.StaffBooksAreRight | backend/app/routers/imports.py:651-699 | In the staff importer the budget is always a fresh recount, the cap holds, every row is counted, and only a full cap turns a row away. |
| BulkImport.CommitUsers | backend/app/routers/imports.py:651-699 | The loop's counters are those of the model. |
| YearEnd.ReadsExactlyTheFourSpellings | backend/app/routers/imports.py:148-173 | A text is read as a month and day if and only if it is written in one of the four spellings. |
| YearEnd.MonthsAreTheCalendar | backend/app/routers/imports.py:122-125 | A word is read as month m if and only if its first three letters are those of the m-th English month. |
| YearEnd.ClassesAre | backend/app/routers/imports.py:149-168 | Which characters are digits, letters, separators, gaps and blanks, and their lower case. |
| YearEnd.CleanIs | backend/app/routers/imports.py:149-149 | Cleaning takes off all blanks at both ends and lowers the rest. |
| YearEnd.LengthsAre | backend/app/routers/imports.py:153-168 | Numbers have one or two digits and month names three to nine letters. |
| YearEnd.PatternsAreDisjoint | backend/app/routers/imports.py:153-172 | No text fits two patterns, so their order does not matter. |
| YearEnd.PrintedReadsBackExactly | backend/app/routers/imports.py:148-173 | A month and day printed in any spelling, in any case and between blanks, is read back as printed if and only if the spelling is unambiguous: only a bare pair with the day first, up to 12 and different from the month, is not (nor one with a month above 12 first). |
| YearEnd.NumberReadsDecimal | backend/app/routers/imports.py:155-160 | Digits are read as the decimal number they write, and one or two of them hold every number below a hundred. |
| YearEnd.WholePartReadsExactly | backend/app/routers/imports.py:176-222 | A month or day column is read if and only if what is left of its digits, points and signs writes a decimal, a bare fraction included, and then as its whole part toward zero. |
| YearEnd.BlanksAndCaseAreIgnored | backend/app/routers/imports.py:149-149 | Surrounding blanks and case play no part. |
| YearEnd.RealDaysAreTheCalendar | backend/app/routers/imports.py:286-287 | A real day is one of the calendar of 2024. |
| YearEnd.YearEndCellFills | backend/app/routers/imports.py:211-216 | A year-end column is readable if and only if it is in one of the four spellings, and then sets month and day. |
| YearEnd.NumberCellsFill | backend/app/routers/imports.py:217-222 | A month or day column is readable if and only if it writes a decimal, and then sets its own field to the whole part. |
| YearEnd.OtherCellsFill | backend/app/routers/imports.py:206-209 | Blank cells and other columns leave the year end alone. |
| YearEnd.KeptIs | backend/app/routers/imports.py:177-177 | Only digits, points and minus signs of a number column are read, in order. |
| YearEnd.ParseRow | backend/app/routers/imports.py:186-293 | A row has no errors if and only if every cell is readable, it names the client and its year end is a real day of 2024; then it carries that day. A day that fits no C int, of a month in range, fails the whole request instead. |
| YearEnd.AcceptedDayCanBreakFebruary | backend/app/routers/imports.py:281-291 | A row with a name and the day 30 is accepted, and updates 28 February to 30 February. |
| YearEnd.ImportedYearEndIsReal | backend/app/routers/imports.py:425-434 | A client created from any accepted row has a real year end, and keeps one through any later accepted rows that name a month, or no day, or a day up to 29. |
| YearEnd.UpdatesKeepYearEndsRealExactly | backend/app/routers/imports.py:428-431 | An accepted row keeps every client it may update on a real day if and only if it names a month, or no day, or a day up to 29. |
| Migrations.CommitsOnceInOrder | backend/scripts/migrate.py:182-278 | However any number of apply and baseline runs interleave and fail: SQL commits in ascending order, at most once per file, only with its record, never for a version recorded before or baselined, nor for one that begins with a skipped prefix; and nothing else is recorded. |
| Migrations.SuccessLeavesOnlySkipped | backend/scripts/migrate.py:203-227 | After an apply that succeeds, whoever else was running, every unrecorded version begins with one of the skipped prefixes. |
| Migrations.CommitsAPrefixOfItsPlan | backend/scripts/migrate.py:203-227 | Whatever the other runners do, the files a stopped apply has itself committed are exactly those of its plan before the one it stopped at, ascending; all of them if and only if it succeeded. |
| Migrations.StoppedStaysStopped | backend/scripts/migrate.py:219-223 | After its first failure a run commits nothing more, over any later actions of anybody. |
| Migrations.FailureHasACause | backend/scripts/migrate.py:206-223 | A run stops short exactly where it has come to a file of its plan and that file's SQL fails then, or its version is already recorded by then. |
| Migrations.BaselineStopsAtFirstMatch | backend/scripts/migrate.py:240-266 | Baseline records nothing past the first file that matches its prefix. |
| Migrations.RunKeepsInv | backend/scripts/migrate.py:182-278 | The interleaving invariant behind these holds after any actions. |
| Migrations.CommitIsNext | backend/scripts/migrate.py:203-217 | When a file is about to commit, everything before it is recorded or skipped and nothing after it has run. |
| Migrations.PendingIs | backend/scripts/migrate.py:186-188 | The plan lists, ascending, exactly the files that are not recorded and begin with none of the skipped prefixes. |
| Migrations.CutoffIsFirst | backend/scripts/migrate.py:244-249 | The cutoff is the first file starting with the prefix, or there is none. |
| Migrations.ToMarkIs | backend/scripts/migrate.py:255-257 | Baseline's list is exactly the unrecorded files up to the cutoff. |
| MigrationCommands.Database.CommitFile | backend/scripts/migrate.py:210-223 | SQL and record commit together or not at all. |
| MigrationCommands.Database.CmdApply | backend/scripts/migrate.py:182-229 | A lone apply is a run of the interleaved machine: it commits a prefix of the plan, all of it exactly when it returns 0, and returns 1 at the first file whose SQL fails. |
| MigrationCommands.Database.MarkFile | backend/scripts/migrate.py:258-264 | A row is inserted unless the version has one. |
| MigrationCommands.Database.CmdBaseline | backend/scripts/migrate.py:232-278 | A lone baseline records exactly the files up to the cutoff and runs none, or returns 2 and records nothing. |
| Timers.EveryReachableSheetIsValid | backend/app/routers/task_timers.py:96-154 | Under any interleaving of starts, stops, reassignments, corrections and deletions each assignee has at most one running timer, and a timer runs exactly when it has a start. |
| Timers.ControlsKeepTotals | backend/app/routers/timesheet.py:178-201 | Starting, stopping or reassigning leaves every displayed total as it was at that instant. |
| Timers.StartTakesEffect | backend/app/routers/task_timers.py:102-129 | Accepted if and only if the task is the caller's and no timer of theirs runs on another; the timer runs from now with what it had banked, or on if it was running, and no other timer changes. |
| Timers.StopTakesEffect | backend/app/routers/task_timers.py:139-153 | Accepted if and only if the task is the caller's; a running timer banks the whole seconds since its start, and no other timer changes. |
| Timers.OwnerRequestsTakeEffect | backend/app/routers/timesheet.py:242-247 | A correction replaces the banked seconds of one timer and nothing else; a reassignment changes one assignee; deleting a task takes its timers with it. |
| Timers.ShownStartsFromBanked | backend/app/routers/timesheet.py:183-199 | What is shown is what is banked until a second has run. |
| Timers.TotalsFollowTheClock | backend/app/routers/timesheet.py:183-199 | A stopped total stands still, a running one gains a second a second. |
| Timers.RepeatingIsANoOp | backend/app/routers/task_timers.py:118-147 | Repeating a start or stop changes nothing. |
| Timers.SegmentsLoseUnderASecondEach | backend/app/routers/task_timers.py:149-153 | Without corrections, k finished segments bank the time they took less under k seconds. |
| Timers.StoppableExactly | backend/app/routers/task_timers.py:139-147 | A running timer can be stopped by its assignee exactly while its task is still theirs. |
| Timers.ReassigningStrandsExactly | backend/app/routers/task_timers.py:139-147 | Reassigning a task strands its running timer if and only if the task goes to somebody else or nobody. |
| Timers.TwoRequestsStrand | backend/app/routers/task_timers.py:97-130 | A start and a reassignment, from a task with no timers, leave the timer stranded. |
| Timers.StrandedUntilReturned | backend/app/routers/task_timers.py:102-116 | A timer stranded with an old assignee runs on and they can start nothing else, until that task is theirs again or deleted. |
| Timers.TimerRouter.StartTaskTimer | backend/app/routers/task_timers.py:96-130 | Starting does what the model's start does, or is refused. |
| Timers.TimerRouter.StopTaskTimer | backend/app/routers/task_timers.py:133-154 | Stopping does what the model's stop does, or is refused. |
| Timers.TimerRouter.UpdateTaskHours | backend/app/routers/timesheet.py:238-249 | A correction replaces the banked seconds of an existing entry. |
| Deadlines.GenerateIs | backend/app/routers/deadlines.py:257-298 | For any planner a run adds exactly the planned keys that were missing, one row each, touches no existing row, and keeps (assignment, period end) keys distinct. |
| Deadlines.SecondRunCreatesNothing | backend/app/routers/deadlines.py:278-281 | An immediate second run creates nothing. |
| Deadlines.OrderOfClientsDoesNotMatter | backend/app/routers/deadlines.py:243-244 | Generating client by client, in any order, reaches the same keys with as many rows as one whole run. |
| Deadlines.ClientByClientKeys | backend/app/routers/deadlines.py:243-247 | After some clients, the keys on file are the old ones and those planned for these clients' assignments. |
| Deadlines.RowsAreAsPlanned | backend/app/routers/deadlines.py:282-296 | Every added row carries a planned item of its own assignment. |
| Deadlines.AddedRowsAre | backend/app/routers/deadlines.py:282-296 | Each added row has the assignment, its client, and the period, title and due date of a planned item. |
| Deadlines.EveryItemIsOnFile | backend/app/routers/deadlines.py:278-298 | Every planned item has a row of its assignment and period afterwards. |
| Deadlines.AddPlanned | backend/app/routers/deadlines.py:278-298 | The inner loop, with its growing set of known keys, adds what the model adds. |
| Deadlines.GenerateDeadlines | backend/app/routers/deadlines.py:210-298 | The handler's rows are the model's, created counts the new keys, and created and skipped add up to the number planned. |
| RedirectGuard.StopsWithinThree | frontend/src/proxy.ts:113-198 | For every visitor, URL and path normaliser the guard stops within three redirects, on a page meant for that visitor. |
| RedirectGuard.LetsThroughExactlyTheAllowed | frontend/src/proxy.ts:128-197 | A request passes exactly when: signed out, the page is unprotected; signed in, it is no login page, a client's account is on no firm route, a staff account is not under `/dashboard`, and a known non-superadmin is not under `/admin`. |
| RedirectGuard.UnderIs | frontend/src/proxy.ts:48-50 | A route matches itself and what is below it, and no longer name. |
| RedirectGuard.SigningInLeadsHome | frontend/src/proxy.ts:143-157 | Signed in with nowhere to go, a client lands on the portal, staff without a firm on the console, everybody else on the overview. |
| RedirectGuard.TwoMayNotBeEnough | frontend/src/proxy.ts:143-195 | A visit for which three redirects are needed. |
| RedirectGuard.DeepLinkSurvivesExactly | frontend/src/proxy.ts:128-158 | A protected page asked for while signed out is reached after signing in if and only if it is meant for the account; otherwise the visitor ends on one of their home pages. |
| RedirectGuard.RedirectsGoHome | frontend/src/proxy.ts:143-195 | Only a `next` parameter sends a signed-in visitor anywhere but home. |

## Left out

- Requests on several calls at once, and two requests on the same call, invoice or timer row at once: rows are stepped one request at a time.
- Who may use the call, invoice and timer endpoints at all (sign-in, roles, tenant scoping, rate limits), chat, candidates, notifications, audit entries and email.
- Call rooms and tokens: only whether a token could be minted.
- Overlapping sync runs, in which each saves its whole state, and a state file that is not JSON; backups kept outside the state file's knowledge; the restore drill.
- The manifest of a snapshot is taken not to change, and its components are the four names listed; file counts and sizes in the record are not kept.
- CallLog.LogRebuildsTheCall: rebuilds timestamps under one clock for rows and events, because the model has one; the database stamps events itself.
- Envelope.TamperingIsNoticed: does not say that every changed file is refused, because that is the cipher's unforgeability; a changed tag alone is refused by Envelope.ChangedTagIsRefused.
- Envelope.DecryptFile: says nothing of the output file after a refusal, because the source streams plaintext before the tag is checked.
- Streaming: the cipher is applied to whole files, and the strength of AES-GCM, scrypt and SHA-256 is not modelled.
- Binary floating point in amounts, and inputs with more than two decimals.
- Invoice numbers, titles, currency, line descriptions and deletion of invoices; an empty recipient address is an absent one.
- Migration checksums, status, dry runs and discovery of files; the sorted list of files and the set of skipped prefixes are given and fixed over a run.
- Import of other columns than those for the name, the year end and the counters; a name or code that matches several clients takes the first of them; how a stored cap becomes a number (`backend/app/seats.py:29-38`).
- YearEnd.ParseRow: texts are ASCII, so other digits, letters and blanks that Python would accept are not covered, and a month or day column is read as an exact decimal, not as a float.
- YearEnd.WholePartReadsExactly: reads exact decimals, because binary floats are left out; a fraction long enough to round up to a whole number, and a number too large for a float, which fails the request, differ.
- Timers.EveryReachableSheetIsValid: assumes one clock that never goes back; work dates and attendance are not modelled.
- The deadline planner itself, and the query that selects active assignments.
- The API address missing (every request then passes) and the matcher that exempts static files in `frontend/src/proxy.ts`; cookies are taken not to change while redirects are followed, and query parameters other than `next` are dropped.

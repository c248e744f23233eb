# Race registration: verified model

Dafny models of a race-registration backend (Go, PostgreSQL, Redis) and of two pieces of its web client, with
proofs of what they promise. `dafny verify dfyconfig.toml` checks all of it.

## What is modelled

**The registration protocol** (`Tables`, `Statements`, `Protocol`). Several API replicas and a background worker run
PostgreSQL transactions over categories, registrations, payments, tickets, check-ins, counters and idempotency
records. A state holds the committed tables together with everything in flight: any number of `Create` transactions, each
between two of its statements (lock the category, count, allocate a number, insert, issue the ticket, store the response,
commit); expiry sweeps between their two UPDATEs; paid registrations between taking the place and recording the payment;
check-ins between reading the status and inserting; cancellations between their two reads and the UPDATE. Row locks, held to commit, disable the statements that would wait for
them. The other transactions lock their registration row first and hold it to commit, so each is one step, disabled
while a sweep holds the row. `CreateInvariant`, `PaymentInvariant`, `ProtocolInvariant` and `StepInvariant` hold the
invariant and its preservation; `Evolution`, `Guarantees`, `Notices`, `Boundaries`, `CheckIns`, `Stranded`, `Replay`,
`Leases`, `Reconciler` and `Progress` what follows for every run. `SweepLocks` takes the row locks of sweeps one by one.

**The same code as it is written** (`Transactions`, `RegistrationRepository`, `RegistrationService`). The repository's and the
service's methods as classes over mutable tables, statement by statement, each proved against the function of the
tables that the protocol uses for the same transaction. The service, whose calls run to their end here, keeps the tables in
agreement and every ticketed registration announced exactly once; what a crash loses is in `Notices`.

**Around it**: the printed registration number (`RegistrationNumber`), the availability cache (`AvailabilityCache`), the
Redis lock (`CategoryLock`), the rate limiter (`RateLimit`), refresh-token rotation with the browser's single-flight gate
(`RefreshTokens`, `ApiClient`), the Telegram and e-mail outboxes, as their workers are written (`TelegramOutbox`, `EmailOutbox`) and in every
interleaving (`TelegramRuns`, `EmailRuns`), announcements and their scheduler (`Announcements`, `Automations`,
`AutomationRuns`), the KHQR payment code with its checksum and its money arithmetic (`Tlv`,
`Gf2`, `Crc16`, `Khqr`, `Money`, `Settlement`), and the event calendar file (`Calendar`).

## What is taken as given

- Row locks are held to commit, a rollback undoes everything, and one clock is shared.
- The unique indexes: one active registration per user and event
  (`backend/migrations/00018_harden_registration_relationships.sql:3-5`), payment references per provider
  (`backend/migrations/00019_add_payment_checkout.sql:7-9`), one ticket (`00014_create_tickets.sql:4`) and one check-in
  (`00015_create_check_ins.sql:4`) per registration, idempotency keys (`00032_create_idempotency_keys.sql:11`), one
  notification per type, entity type and entity (`00017_create_notifications.sql:23`) and one delivery per notification and
  channel (`00029_create_notification_deliveries.sql:16`). No index makes a payment unique for its registration: that is
  proved, from who may insert it.
- UUIDs and tokens are fresh, and hashes are injective.
- The deployment has one worker (`README.md:48`); where this matters, runs of two workers show what breaks.
- A message counts as mailed or delivered when its sender says so: an error of the sender after the message has gone out
  is a failure like any other.
- A provider's answer is arbitrary: unreachable, pending, settled with any amount, or anything else.

## What the code does not promise

The following are false of the code, or narrower than its comments say. Each is stated as a lemma or a contract.

- `backend/internal/registrations/service.go:763-767` says that expiry is owned by the reconciler, which asks the provider
  first. `Register` (line 205) and the expired branches of `VerifyPayment` and `SubmitManualPayment` run the sweep of
  `repository.go:600-636`, which asks no provider and covers every overdue payment, not only the caller's
  (`Boundaries.SweepLosesSettledPlace`, `RegistrationService.Service.VerifyPayment`; when a place expires: `Boundaries.ExpiredIff`).
  The model follows the code.
- A checked-in entry may end CANCELLED: check-in and cancellation read first and write later, and neither write has a guard
  (`CheckIns.CheckInRacesCancel`; exactly when: `CheckIns.CheckedInUnlessOverlapped`).
- A settled payment does not always confirm (`Boundaries.SettlementConfirmsIffPlaceHeld` says exactly when).
- A place whose payment was taken at once but not recorded, and one whose call crashed before recording its payment,
  stays PENDING with no payment, and only a cancellation gives it back (`Stranded.StrandedIff`, `Stranded.StrandedHolds`). A
  release that fails counts as such a crash.
- A confirmation may never be announced: the notice is a call after the commit, and nothing records that it is owed
  (`Notices.NoticedOnceUnlessCrashed`, `Notices.LostForGood`).
- Two sweeps can block each other, because they lock their rows in no fixed order; PostgreSQL then aborts one of them
  (`SweepLocks.SweepsBlockIff`; the aborted sweep is the protocol's `SweepAbort`).
- A mail or a Telegram message goes out twice when the status write after it is lost, to an error that is only logged or to
  a restart (`EmailRuns.MailedTwiceIff`, `TelegramRuns.DeliveredTwiceIff`); with a second worker also when every write succeeds
  (`EmailRuns.TwoWorkersMailTwice`, `TelegramRuns.TwoWorkersDeliverTwice`).
- Invalidating a category's availability does not make later answers fresh: a call that has counted before can fill the cache
  afterwards, for a whole TTL (`AvailabilityCache.StaleIfCounted`; exactly then: `AvailabilityCache.FreshUnlessCounted`).
- With a second scheduler a SENT automation can be scheduled again, and a CANCELLED one sent: the last writes name only the
  row (`AutomationRuns.TwoSchedulersReschedule`, `AutomationRuns.TwoSchedulersSendCancelled`; exactly when:
  `AutomationRuns.SentUndoneIff`, `AutomationRuns.CancelUndoneIff`).
- An announcement that was updated after a failed attempt keeps its old text for the runners that attempt had reached
  (`AutomationRuns.SentTextIff`).
- The single-flight gate does not cover the refresh of the sign-in callback page, or other tabs: either can have a flight
  refused (`ApiClient.UngatedCallRefusesFlight`; exactly when a flight is: `ApiClient.FlightRefusedIff`).
- Event updates share one notification key per registration, so only the first one reaches a runner
  (`Announcements.SecondUpdateIsSilent`).
- A roster of more than 10000 is announced only to its newest 10000 (`Announcements.WhoIsReached`).
- The rate limiter allows up to 2 * limit - 1 calls within one window length, and no more (`RateLimit.SlidingBound`,
  `RateLimit.BoundIsReached`).
- A QR code whose merchant identifiers total more than 87 bytes, or whose category code is longer than 99, cannot be read
  back (`Khqr.KhqrRoundTrip`).

## Model

| member | source | states |
|---|---|---|
| `Guarantees.OversoldOnlyByLowering` | backend/internal/registrations/repository.go:70-162 | From any state of the invariant, whatever transactions are open, a step leaves a category with more active registrations than its capacity if and only if it is a change of the capacity to below the places given out |
| `Guarantees.NeverOversold` | backend/internal/registrations/repository.go:70-162 | In every statement-level interleaving of Create transactions with cancellations, expiries, rejections and confirmations, a category whose capacity is not lowered below its taken places never has more PENDING and CONFIRMED registrations than its capacity; the Redis lock plays no part in it |
| `Guarantees.OneEntryPerRunner` | backend/internal/registrations/repository.go:114-131 | In every reachable state two active registrations of one user for one event are the same row |
| `Guarantees.ActivityOneWay` | backend/internal/registrations/repository.go:384-735 | Between any two states of a run a registration keeps its runner, event, category and number, and an inactive one is never active again |
| `Guarantees.NumbersGapless` | backend/internal/registrations/repository.go:164-178 | In every reachable state the registrations of a year carry exactly the numbers 1..last_value, and no two registrations the same number |
| `Guarantees.SettledForGood` | backend/internal/registrations/repository.go:435-735 | Over any part of a run a payment keeps its registration, provider, amount, currency and expiry, and SUCCEEDED is never left |
| `Guarantees.CouplingHolds` | backend/internal/registrations/repository.go:409-735 | In every reachable state a registration has at most one payment; CONFIRMED means that payment is SUCCEEDED, SUCCEEDED excludes PENDING, and EXPIRED excludes a ticket |
| `Guarantees.ConfirmedUnpaidIsFree` | backend/internal/registrations/service.go:327-450 | A registration that is CONFIRMED without any payment was CONFIRMED in every earlier state that had its row: only the free path makes it |
| `Guarantees.TicketIffOnceConfirmed` | backend/internal/registrations/repository.go:137-149 | In every run from an empty system a registration has a ticket if and only if it was CONFIRMED in some state so far |
| `Guarantees.NoticeWithTicket` | backend/internal/registrations/service.go:350-358 | A step's caller sends the confirmation notice of a registration if and only if the step issues its ticket |
| `Notices.NoticedOnceUnlessCrashed` | backend/internal/registrations/service.go:350-358 | However confirmations race, in every run with the notice a step of its own after the commit, a registration is announced at most once; and exactly once if and only if it was ever CONFIRMED, no notice of it is still owed, and no crash hit the caller that owed it |
| `Notices.LostForGood` | backend/internal/registrations/service.go:527-539 | A notice lost to a crash is never made up for: no later settlement or approval of the registration owes one |
| `Boundaries.CancelledByStep` | backend/internal/registrations/repository.go:384-394 | A registration becomes CANCELLED in a step if and only if the step is an unconditional Cancel of it, by its owner or as the release of a failed payment |
| `Boundaries.CancelledIffCancelStep` | backend/internal/registrations/repository.go:384-394 | In every run a registration is CANCELLED exactly when some step so far was such a Cancel of it |
| `CheckIns.CheckedInUnlessOverlapped` | backend/internal/registrations/service.go:806-837 | In every run, with the cancellation's two reads and its UPDATE as separate statements, a checked-in registration is CANCELLED if and only if the insertion found it cancelled already, or a cancellation that was past its reads at the insertion completes afterwards; otherwise it is CONFIRMED |
| `CheckIns.CheckedInByStep` | backend/internal/checkin/repository.go:30-46 | A registration is checked in after a step if and only if it was before or the step is the insertion of a call that has read it as CONFIRMED |
| `CheckIns.CheckInIsFinal` | backend/internal/registrations/service.go:806-837 | Checked in while CONFIRMED and with no cancellation past its reads, a registration stays CONFIRMED in every later state |
| `CheckIns.InsertionFindsCancelled` | backend/internal/checkin/service.go:71-88 | Between the status check and the insertion of one check-in the registration is found cancelled if and only if a cancellation of it fell in between |
| `CheckIns.CheckInRacesCancel` | backend/internal/checkin/service.go:71-88 | The promise that a checked-in registration stays CONFIRMED is false: from every state with a confirmed registration without a check-in both calls can pass their reads, and then either order of the two writes leaves it checked in and CANCELLED |
| `Boundaries.SettlementConfirmsIffPlaceHeld` | backend/internal/registrations/repository.go:638-679 | Settling a stored payment always leaves it SUCCEEDED, and leaves the registration CONFIRMED if and only if it was still active |
| `Boundaries.ReviewOutlastsClock` | backend/internal/registrations/repository.go:435-636 | A pending place whose manual payment is PROCESSING is given up only by its approval or rejection or by a cancellation: no sweep, lease or clock reading takes either |
| `Boundaries.ExpiredByStep` | backend/internal/registrations/repository.go:567-636 | A registration is EXPIRED after a step if and only if the step ends a sweep that had selected it, rejects its payment under review, or gives up its claimed payment while it is PENDING - or it was EXPIRED before and the step does not cancel it |
| `Boundaries.SweepHasSelected` | backend/internal/registrations/repository.go:607-613 | Over every run, with anything between a sweep's two statements, what a sweep gives up was PENDING with an overdue payment when the sweep selected it |
| `Boundaries.ExpiredIff` | backend/internal/registrations/repository.go:567-636 | In every run a registration is EXPIRED exactly when such a step of it has happened and no cancellation of it since |
| `Boundaries.SweepLosesSettledPlace` | backend/internal/registrations/service.go:205-207 | The sweep asks no provider: from every state with a pending place whose payment is overdue, a sweep releases it although the payment is settled in the next step, which leaves a SUCCEEDED payment, an EXPIRED registration and no ticket |
| `Stranded.StrandedByStep` | backend/internal/registrations/service.go:381-459 | A place is PENDING with no payment and no call after a step if and only if it was and the step does not cancel it, or the step is a crash of its unpaid call or the refusal of its settlement |
| `Stranded.StrandedIff` | backend/internal/registrations/service.go:381-459 | In every run a place is PENDING with no payment and no call exactly when its call has crashed, or its settlement was refused, before a payment was recorded, and it was not cancelled since |
| `Stranded.StrandedHolds` | backend/internal/registrations/repository.go:600-636 | No sweep, lease, review or clock gives such a place back: it counts against its category's capacity exactly until it is cancelled |
| `StepInvariant.StepKeepsInv` | backend/internal/registrations/repository.go:70-735 | Every enabled statement or transaction, in any state, keeps the whole invariant: lock exclusivity, room for each counted place, distinct numbers, agreement of the tables, and what in-flight calls and sweeps rely on |
| `StepInvariant.RunKeepsInv` | backend/internal/registrations/repository.go:70-735 | The invariant holds throughout every run |
| `StepInvariant.CreateStepKeepsInv` | backend/internal/registrations/repository.go:70-162 | Each single statement of a Create transaction - lock, count, allocate, insert, ticket, outcome, commit or rollback - keeps the invariant among any number of others |
| `StepInvariant.FinishStep` | backend/internal/registrations/repository.go:600-636 | The second statement and commit of an expiry sweep keep the invariant, whatever happened since its first statement |
| `StepInvariant.RecordPaymentStep` | backend/internal/registrations/service.go:381-450 | Recording the payment of a registration that has just been created keeps at most one payment each, although no column is unique for it |
| `CreateInvariant.CommitKeepsNumbers` | backend/internal/registrations/repository.go:164-178 | Committing a Create extends the numbers of its year from 1..n to 1..n+1 |
| `CreateInvariant.CommitKeepsFit` | backend/internal/registrations/repository.go:70-162 | A commit leaves every other open transaction its counted place, its number and its runner |
| `Progress.NoDeadlock` | backend/internal/registrations/repository.go:70-162 | However many Create transactions are open, while no sweep holds a row of their runners one of them is not waiting for a lock: its next statement advances it, or commits it, if and only if the category is known and has room and the runner is not entered already |
| `SweepLocks.SweepsBlockIff` | backend/internal/registrations/repository.go:600-636 | Two sweeps, which lock their rows one by one in any order, can come to wait for each other if and only if, of the rows that both lock, they do not lock the same one first |
| `SweepLocks.CommonOrderProceeds` | backend/internal/registrations/repository.go:607-630 | Were all rows locked in one common order, some sweep of any number could always go on, whatever each has locked |
| `Evolution.StepSettles` | backend/internal/registrations/repository.go:384-735 | No step but a commit adds a registration, and none turns an inactive one active |
| `Evolution.RunLater` | backend/internal/registrations/repository.go:384-735 | Between any two states of a run: rows stay, entries move one way, settled payments, tickets and check-ins stay |
| `Replay.OutcomeStays` | backend/internal/idempotency/repository.go:51-64 | A stored response is unchanged by a step if and only if the step is not the cleanup of that response after its expiry: the first write wins |
| `Replay.ReplaysUntilCleaned` | backend/internal/idempotency/service.go:28-43 | From its storing to its cleanup every request with the same user, key and body hash gets exactly the stored response, and every other hash a conflict |
| `Replay.FreeOutcomeIsAtomic` | backend/internal/registrations/service.go:338-350 | A free-path response appears only in the commit that creates the registration it names, which is new, CONFIRMED, ticketed and the key's own user's |
| `Replay.OutcomesNameEntries` | backend/internal/idempotency/repository.go:51-64 | In every reachable state a stored response names an existing registration of the key's user, ticketed if it is the free path's |
| `Leases.LeaseStep` | backend/internal/registrations/repository.go:524-591 | Only a claim of a due payment or a rescheduling by the worker that holds it changes the lease of a payment that stays PENDING, and PENDING is never re-entered |
| `Leases.LeasesExclude` | backend/internal/registrations/repository.go:524-557 | In every run two claims of one payment, by any workers, are more than the 30 s lease apart unless it was rescheduled in between |
| `Leases.SupersededIsInert` | backend/internal/registrations/repository.go:559-591 | A worker whose claim another worker's claim has superseded changes nothing through SchedulePaymentReconciliation or ExpireClaimedPayment |
| `Reconciler.BackoffBounds` | backend/internal/registrations/service.go:489-494 | The delay after an unreachable provider is between 15 s and 16 min for every number of attempts |
| `Reconciler.DelayBounds` | backend/internal/registrations/service.go:477-540 | Every pass that neither confirms nor gives up comes back after at least 15 s and at most 16 min |
| `Reconciler.PassOutcome` | backend/internal/registrations/service.go:495-507 | A pass whose provider answers PENDING and whose claim is not superseded leaves the payment PENDING only before its expiry, due again 15 s later; after the expiry it fails the payment and no PENDING place is left |
| `Reconciler.PassesApart` | backend/internal/registrations/service.go:495-507 | While the payment stays PENDING, each of any number of such passes is at least 15 s after the one before |
| `Reconciler.PassesEnd` | backend/internal/registrations/service.go:477-540 | A payment with an expiry whose provider keeps answering PENDING is no longer PENDING after (expiry - first pass) / 15 s + 2 passes; if it was PENDING until the last pass, that pass failed it and its registration is not PENDING any more |
| `Transactions.CreateIsARun` | backend/internal/registrations/repository.go:70-162 | A Create that finds no error is a run of the protocol's eight statements, from the tables it finds to exactly the committed tables of its specification |
| `Transactions.CreateAgrees` | backend/internal/registrations/repository.go:70-162 | A successful Create keeps the agreement of the tables, one active entry per runner and gapless numbers |
| `Transactions.SweepAgreesAlone` | backend/internal/registrations/repository.go:600-636 | A sweep that runs alone keeps the agreement of the tables |
| `Transactions.CreatePaymentAgrees` | backend/internal/registrations/repository.go:409-416 | Inserting the payment of a registration that has none and no ticket keeps the agreement of the tables |
| `Transactions.ConfirmWithPaymentAgrees` | backend/internal/registrations/repository.go:681-735 | Inserting a settled payment and confirming at once keeps the agreement of the tables |
| `RegistrationRepository.EarliestDue` | backend/internal/registrations/repository.go:528-536 | The candidates of a claim are distinct due payments within the limit, and no payment left out was due earlier than one taken |
| `RegistrationRepository.FirstDueClaimable` | backend/internal/registrations/repository.go:524-527 | Whatever limit is asked for, at most 100 payments are claimed |
| `RegistrationRepository.Repository.Create` | backend/internal/registrations/repository.go:70-162 | Fails with not-found, capacity-full or duplicate exactly when its specification says so and then leaves every table, the counter included, as it was; otherwise commits registration, number, ticket and stored response together |
| `RegistrationRepository.Repository.NextRegistrationNumber` | backend/internal/registrations/repository.go:164-178 | Returns last_value + 1 of the year and stores it, starting from 1 |
| `RegistrationRepository.Repository.Cancel` | backend/internal/registrations/repository.go:384-394 | Sets CANCELLED whatever the status, or reports not-found |
| `RegistrationRepository.Repository.CreatePayment` | backend/internal/registrations/repository.go:409-416 | Inserts the payment, or reports a reference that its provider has already used and changes nothing |
| `RegistrationRepository.Repository.ConfirmWithPayment` | backend/internal/registrations/repository.go:681-735 | Inserts the payment, confirms the PENDING registration and issues its ticket, or reports the error and leaves all three tables as they were |
| `RegistrationRepository.Repository.SubmitManualPayment` | backend/internal/registrations/repository.go:435-447 | Moves exactly the registration's pending, unexpired manual payments to PROCESSING with the reference, or reports that there is none |
| `RegistrationRepository.Repository.FailManualPayment` | backend/internal/registrations/repository.go:449-477 | Fails the payment under review and expires the PENDING registration, returning its category, or reports the error and changes nothing |
| `RegistrationRepository.Repository.ApproveManualPayment` | backend/internal/registrations/repository.go:479-522 | Settles the payment under review, confirms the PENDING registration and issues its ticket, or reports the error and changes nothing |
| `RegistrationRepository.Repository.ConfirmStoredPayment` | backend/internal/registrations/repository.go:638-679 | Settles the registration's payment in every case, confirms and tickets the registration only if it is PENDING, and reports whether it was |
| `RegistrationRepository.Repository.ClaimPendingPayments` | backend/internal/registrations/repository.go:524-557 | Leases the earliest due payments to the worker for 30 s and changes nothing else |
| `RegistrationRepository.Repository.SchedulePaymentReconciliation` | backend/internal/registrations/repository.go:559-565 | Reschedules a PENDING payment that the worker still holds, counts the attempt and drops the lease; otherwise changes nothing |
| `RegistrationRepository.Repository.ExpireClaimedPayment` | backend/internal/registrations/repository.go:567-591 | Fails a PENDING payment that the worker still holds and expires its PENDING registration; returns the category and whether a place was released |
| `RegistrationRepository.Repository.ExpirePendingPayments` | backend/internal/registrations/repository.go:600-636 | Expires exactly the pending registrations with an overdue payment, fails every overdue payment, and returns one category per released place |
| `RegistrationRepository.Repository.Lookup` | backend/internal/idempotency/service.go:34-43 | Finds the stored response, a conflict for another body hash, or nothing |
| `RegistrationRepository.Repository.StoreOutcome` | backend/internal/idempotency/repository.go:54-64 | Stores a response unless the key already has one |
| `RegistrationRepository.Repository.DeleteExpired` | backend/internal/idempotency/repository.go:66-73 | Removes exactly the responses past their expiry and returns how many |
| `RegistrationRepository.Repository.RecordCheckIn` | backend/internal/checkin/repository.go:30-46 | Inserts at most one check-in per registration and reports a second one |
| `RegistrationService.AnswerDecidesPlace` | backend/internal/registrations/service.go:477-540 | What an answer does to a place that is still pending: it is CONFIRMED, ticketed and paid if and only if its own provider reports exactly the stored amount and currency; EXPIRED with its payment FAILED if and only if its own provider, asked after the expiry, says it is pending; and otherwise, or when the transaction fails, it is kept with its payment PENDING, unleased and due again after 15 s to 16 min, or unchanged when the rescheduling fails too |
| `RegistrationService.ActedReconciles` | backend/internal/registrations/service.go:477-540 | The transaction a decision leads to does to the payment, the registration and the ticket what the decision says |
| `RegistrationService.ActedLeaves` | backend/internal/registrations/service.go:477-540 | ... and leaves every other payment, its registration and its ticket as they were |
| `RegistrationService.PaidPlace` | backend/internal/registrations/service.go:381-459 | After the provider's answer the place is kept with its payment, confirmed, or released - but a place whose money was taken at once and could not be recorded stays PENDING without a payment |
| `RegistrationService.VerifyMatchesReconciler` | backend/internal/registrations/service.go:655-750 | On a pending place whose provider can be asked, the runner's own check settles on exactly the answers the reconciler accepts and gives up on exactly those it gives up on |
| `RegistrationService.HandledNext` | backend/internal/registrations/service.go:471-474 | Handling the next payment of a batch leaves the earlier ones as they were decided and the later ones as they were claimed |
| `RegistrationService.Service.Register` | backend/internal/registrations/service.go:190-305 | A replayed or conflicting key changes nothing at all; any other request runs the sweep, and on the swept tables is refused for the first check that fails - rate limit, category, opening, active entry, category lock - then exactly for what the transaction reports, leaving the tables as they were, then exactly when the provider's answer is not accepted, leaving the entry as that answer says - or makes one entry that holds its place and stores its response; all other entries are left alone |
| `RegistrationService.Service.RegisterFree` | backend/internal/registrations/service.go:327-362 | Creates a confirmed, ticketed registration and announces it once, or reports why not and changes nothing |
| `RegistrationService.Service.RegisterPaid` | backend/internal/registrations/service.go:381-450 | Takes the place, then settles it by the provider's answer; announces it exactly when it was confirmed at once |
| `RegistrationService.Service.Pay` | backend/internal/registrations/service.go:392-450 | Records the payment, confirms at once, or releases the place, as the provider's answer demands |
| `RegistrationService.Service.ReconcilePayment` | backend/internal/registrations/service.go:477-540 | Runs the transaction that the provider's answer decides, and keeps the tables in agreement and each ticketed registration announced exactly once |
| `RegistrationService.Service.ReconcilePendingPayments` | backend/internal/registrations/service.go:461-540 | Every payment of the batch gets exactly what its own answer decides - or, when the update that leads to fails, another pass after a minute, or nothing when that fails too or a rescheduling does - whatever the others get; other payments, their entries, and entries without a payment stay as they were |
| `RegistrationService.Service.VerifyPayment` | backend/internal/registrations/service.go:655-750 | Gives the verdict of its checks in their order; settles or sweeps accordingly, and announces exactly a settlement |
| `RegistrationService.Service.ReviewManualPayment` | backend/internal/registrations/service.go:602-653 | Approves or rejects the payment under review, announces an approval, and reports the error otherwise |
| `RegistrationService.Service.SubmitManualPayment` | backend/internal/registrations/service.go:568-600 | Takes a reference for a pending transfer before its expiry, runs the sweep after it, and refuses anything else unchanged |
| `RegistrationService.Service.Cancel` | backend/internal/registrations/service.go:806-837 | Cancels exactly an active registration without a check-in |
| `RegistrationService.Service.CheckIn` | backend/internal/checkin/service.go:71-100 | Checks in exactly a CONFIRMED registration, of the gate's event if one is set, that has no check-in yet |
| `RegistrationNumber.RoundTrip` | backend/internal/registrations/repository.go:177-177 | Parsing the printed URC-year-number gives back year and number, also past six digits |
| `RegistrationNumber.Injective` | backend/internal/registrations/repository.go:177-177 | Two numbers print the same text if and only if they are equal |
| `RegistrationNumber.TextsDistinct` | backend/internal/registrations/repository.go:216-236 | No two registrations carry the same text, so looking one up by it is unambiguous |
| `AvailabilityCache.BoundedStaleness` | backend/internal/registrations/service.go:844-876 | In every interleaving of readers, cache fills, invalidations and changes, each served answer is made of a capacity and an active count that the tables really had, read by one call, and a cached count is younger than the TTL plus the time from that count to the fill |
| `AvailabilityCache.FreshUnlessCounted` | backend/internal/registrations/service.go:844-876 | In every run and for every TTL, if no call holds a count when the category is invalidated, every later answer from the cache rests on a count taken after the invalidation |
| `AvailabilityCache.StaleIfCounted` | backend/internal/registrations/service.go:858-874 | ... and only then: from every state in which a call holds a count, whatever changes before the invalidation, that call can fill the cache afterwards, and for the whole TTL another call is answered with the old count |
| `AvailabilityCache.FreshUnlessUnderWay` | backend/internal/registrations/service.go:845-876 | If no call is under way at the invalidation, the capacity of every later cached answer was read after it too |
| `AvailabilityCache.StaleCapacityIfUnderWay` | backend/internal/registrations/service.go:845-874 | ... and only then: a call that has only read the category can still bring the old capacity into the cache for a whole TTL |
| `AvailabilityCache.Cache.Get` | backend/internal/registrations/availability.go:24-38 | Finds the value stored for the category until its TTL is over |
| `AvailabilityCache.Cache.Set` | backend/internal/registrations/availability.go:41-47 | Stores the value for the TTL and touches no other category |
| `AvailabilityCache.Cache.Invalidate` | backend/internal/registrations/availability.go:49-51 | Removes the category's value and no other |
| `AvailabilityCache.Cache.GetAvailability` | backend/internal/registrations/service.go:844-876 | Serves the cached value or computes capacity, taken and max(0, capacity - taken), and fills the cache |
| `CategoryLock.ExclusiveUntilExpiry` | backend/internal/registrations/lock.go:31-56 | From its acquisition to its expiry a lock stays its owner's, whatever the other callers try or release |
| `CategoryLock.LockCanBeLost` | backend/internal/registrations/lock.go:44-56 | Past the expiry the next caller gets the lock, and the first owner's late release does not take it away |
| `CategoryLock.Locker.TryLock` | backend/internal/registrations/lock.go:31-42 | Succeeds exactly when the category has no live lock, and then stores the token with the TTL |
| `CategoryLock.Locker.Release` | backend/internal/registrations/lock.go:44-56 | Removes the lock only if it is live and holds the caller's token |
| `RateLimit.SlidingBound` | backend/internal/ratelimit/ratelimit.go:30-42 | For every ordered interleaving of INCR and EXPIRE commands of any callers, any half-open interval of one window length contains fewer than twice the limit of allowed calls |
| `RateLimit.BoundIsReached` | backend/internal/ratelimit/ratelimit.go:30-42 | For every limit of at least 1 and every window of at least 2 there is an ordered interleaving in which an interval of one window length contains exactly 2 * limit - 1 allowed calls |
| `RateLimit.Limiter.Allow` | backend/internal/ratelimit/ratelimit.go:30-42 | Allows exactly while the counter of the current window is within the limit, and sets the expiry with the window's first call |
| `RateLimit.Limiter.Reset` | backend/internal/ratelimit/ratelimit.go:45-50 | Clears the key's window and no other |
| `RefreshTokens.StepKeepsInv` | backend/internal/auth/service.go:166-213 | Every repository call of concurrent Refresh and Logout calls keeps: at most one unrevoked token per login, at most one successor per token, and a consumed token's call is the only one of its login that may issue |
| `RefreshTokens.ChainsLinear` | backend/internal/auth/service.go:166-195 | In every interleaving a login's chain has at most one unrevoked token, a token at most one successor, and a successor's parent is revoked and the same user's |
| `RefreshTokens.ConsumedOnce` | backend/internal/auth/repository.go:235-246 | However many callers present a token, at most one consumes it |
| `RefreshTokens.Service.Refresh` | backend/internal/auth/service.go:166-195 | Exchanges an active token for exactly one successor of the same user and revokes it; refuses any other token and changes nothing |
| `RefreshTokens.Service.Logout` | backend/internal/auth/service.go:197-213 | Revokes the presented token if it is active and never fails for an invalid one; no other token changes |
| `RefreshTokens.Service.IssueTokenPair` | backend/internal/auth/service.go:296-317 | Stores one new token with the TTL |
| `RefreshTokens.Service.Revoke` | backend/internal/auth/repository.go:235-246 | Revokes only an unrevoked token and reports whether there was one |
| `ApiClient.Client.TryRefreshToken` | frontend/src/lib/api.ts:104-125 | A request that finds a flight under way joins it; only the first presents the cookie |
| `ApiClient.Client.Settled` | frontend/src/lib/api.ts:108-122 | Everyone who waited gets the flight's one answer, and the next 401 starts a new flight |
| `ApiClient.FlightRefusedIff` | frontend/src/lib/api.ts:104-168 | In every run with time, sign-ins, logouts, internal errors, lost responses and refreshes past the gate, a flight behind the gate is refused if and only if it was sent without a cookie, or its token has expired when the server reads it, or the token was revoked, before the read or the exchange, by a logout, a refresh past the gate, or a flight that failed on the server or whose response was lost |
| `ApiClient.GateSuffices` | frontend/src/lib/api.ts:104-125 | While nobody logs out or refreshes past the gate, no call fails and every response arrives, a flight is refused exactly for a missing cookie or an expired token, and an exchange never fails |
| `ApiClient.UngatedCallRefusesFlight` | frontend/src/pages/auth/google/callback.tsx:26-26 | The refresh of the sign-in callback page goes past the gate: a run in which it consumes the cookie of a flight under way, and the flight is refused though the token has not expired and no response was lost |
| `Crc16.Crc16Ccitt` | backend/internal/payments/khqr.go:74-87 | The loops compute the function whose value is proved to be the remainder |
| `Crc16.CrcIsRem` | backend/internal/payments/khqr.go:74-87 | For every byte string the register holds the remainder of (message x^16 with FFFF added to its head) by x^16 + x^12 + x^5 + 1 |
| `Crc16.CrcIsTheRemainder` | backend/internal/payments/khqr.go:74-87 | A string of sixteen bits is the checksum if and only if some quotient divides the message polynomial with it as remainder (section 4.7.3 of the EMV QR Merchant-Presented Mode) |
| `Crc16.BurstDetected` | backend/internal/payments/khqr.go:74-87 | Two payloads of equal length that differ only within a window of sixteen bits have equal checksums if and only if they are equal |
| `Gf2.RemIsTheRemainder` | backend/internal/payments/khqr.go:78-84 | Horner's rule by shifts gives the one remainder of polynomial division over GF(2) |
| `Gf2.BurstRemains` | backend/internal/payments/khqr.go:78-84 | A non-zero burst of at most sixteen bits is not a multiple of the generator |
| `Tlv.RoundTrip` | backend/internal/payments/khqr.go:56-56 | Parsing the printed objects gives them back if and only if every value has at most 99 bytes |
| `Khqr.GenerateMerchantKhqr` | backend/internal/payments/khqr.go:23-54 | Refuses an incomplete identity, a non-positive amount and an unknown currency in that order, and otherwise returns the payload of the cleaned fields with its checksum |
| `Khqr.AdditionalText` | backend/internal/payments/khqr.go:38-44 | Template 62 holds the reference and the labels that are set |
| `Khqr.KhqrRoundTrip` | backend/internal/payments/khqr.go:23-54 | The payload's checksum is valid, and a reader gets back every object, checksum included, if and only if the three identifiers total at most 87 bytes and category, amount and timestamp fit their lengths |
| `Khqr.OnlyTheMerchantMatters` | backend/internal/payments/khqr.go:23-54 | For every positive 64-bit amount, every rounding of its conversion and division, and every 64-bit instant, only the identifiers' total and the uncleaned category code decide whether the payload can be read |
| `Khqr.TemplatesRoundTrip` | backend/internal/payments/khqr.go:37-45 | The nested templates can be read back, and hold the cleaned fields |
| `Khqr.TrimmedLeft` | backend/internal/payments/khqr.go:59-59 | Trimming on the left leaves the end of the text, beginning with its first character that is not white space |
| `Khqr.CleanIsPrefix` | backend/internal/payments/khqr.go:58-65 | A cleaned field is a prefix of the text without its leading white space, within the byte limit, and without trailing white space unless it was cut |
| `Khqr.DamageRejected` | backend/internal/payments/khqr.go:50-51 | A scanned payload damaged only within sixteen bits before its checksum is accepted if and only if it is undamaged |
| `Money.PrintsCents` | backend/internal/payments/khqr.go:34-34 | Up to 2^50 cents the division by 100 in floating point and %.2f print the cents exactly |
| `Money.MoneySurvives` | backend/internal/payments/bakong.go:103-107 | Up to 2^50, whatever the floating-point roundings, the amount the provider sends for some cents (or riel) is read as exactly that number |
| `Settlement.OnlyTheAmountDueSettles` | backend/internal/registrations/service.go:512-516 | The reconciler accepts the reported payment if and only if the amount paid is the amount due |
| `Settlement.PrintedAmountSettles` | backend/internal/payments/khqr.go:34-37 | The text printed for a due amount, with cents or in whole riel, denotes exactly it, and the payment of that amount is accepted |
| `TelegramOutbox.Repository.ClaimTelegramDeliveries` | backend/internal/notifications/repository.go:77-112 | Takes the oldest claimable deliveries up to the limit, marks them PROCESSING, and changes no other |
| `TelegramOutbox.Repository.MarkDelivery` | backend/internal/notifications/repository.go:137-151 | Sets the status and drops the lock |
| `TelegramOutbox.Repository.RecordDeliveryFailure` | backend/internal/notifications/repository.go:122-135 | Counts the attempt, and fails the delivery at the last one or backs off |
| `TelegramOutbox.Repository.RetryTelegramDelivery` | backend/internal/notifications/repository.go:289-307 | Resets exactly a failed delivery |
| `TelegramOutbox.Worker.Process` | backend/internal/notifications/telegram_worker.go:84-122 | Ends a delivery as sent, skipped or failed once, by the sender's outcome, or leaves it PROCESSING when the status write fails |
| `TelegramOutbox.Worker.ProcessAll` | backend/internal/notifications/telegram_worker.go:75-77 | Each delivery of the batch gets its own outcome, or keeps its row when that write fails; no other delivery changes, and each written one takes at least one unit of the remaining work |
| `TelegramOutbox.Worker.Sweep` | backend/internal/notifications/telegram_worker.go:62-82 | Terminates for every sequence of outcomes and clock readings; finished deliveries are untouched and each full round takes a hundred units of the sum of maxAttempts - attempts + 1 over unfinished deliveries |
| `TelegramRuns.RunConserves` | backend/internal/notifications/telegram_worker.go:84-122 | In every run of any number of workers, with the message and its status write two steps, each try at a delivery is accounted for by a counted or erased failure, a written end, a lost write or a worker still at it; each message delivered by a written SENT, a lost write or a worker still at it |
| `TelegramRuns.DeliveredOnceButForLostWrites` | backend/internal/notifications/telegram_worker.go:84-122 | One worker, whatever restarts and fails, tries a delivery at most maxAttempts times for each time it was added or retried and once more per lost status write, and delivers it at most once and once more per write lost after a delivery |
| `TelegramRuns.DeliveredTwiceIff` | backend/internal/notifications/telegram_worker.go:105-115 | One worker delivers a message twice if and only if a status write was lost after a delivery of it and a later try delivered it too |
| `TelegramRuns.DoneForGood` | backend/internal/notifications/telegram_worker.go:84-115 | With one worker a SENT or SKIPPED delivery is never touched again, whatever is added, claimed, retried, lost or restarted |
| `TelegramRuns.ClaimsApart` | backend/internal/notifications/repository.go:77-112 | With any number of workers two claims of one delivery are more than two minutes apart unless its end was written in between |
| `TelegramRuns.PromptWorkersDeliverOnce` | backend/internal/notifications/repository.go:77-112 | When every message and its status write come within two minutes of their claim, any number of workers try a delivery at most maxAttempts times per adding or retry, and deliver it at most once, and once more for each write that was lost, or lost after a delivery |
| `TelegramRuns.PromptDoneForGood` | backend/internal/notifications/repository.go:77-151 | ... and never touch a SENT or SKIPPED delivery again |
| `TelegramRuns.DoneUndoneIff` | backend/internal/notifications/repository.go:122-151 | With any number of workers SENT or SKIPPED is undone if and only if the failure of a worker that had claimed the delivery before is written: the write names only the row |
| `TelegramRuns.TwoWorkersDeliverTwice` | backend/internal/notifications/repository.go:77-135 | A run of two workers that delivers a message twice although every status write succeeds: a lock goes stale, the second sends, and the late failure of the first puts the delivery back |
| `Backoffs.MinutesBackoffBounds` | backend/internal/notifications/repository.go:122-126 | The backoff is between one minute and one hour for every number of attempts |
| `EmailOutbox.Repository.MarkSent` | backend/internal/notifications/repository.go:325-336 | Marks exactly the named notification SENT |
| `EmailOutbox.Repository.RecordFailure` | backend/internal/notifications/repository.go:338-357 | Counts the attempt, and fails the notification at the last one |
| `EmailOutbox.Repository.ListPendingOlderThan` | backend/internal/notifications/repository.go:359-383 | Lists the oldest pending notifications before the cutoff, up to the limit |
| `EmailOutbox.Worker.Process` | backend/internal/notifications/worker.go:142-172 | Tries exactly a pending notification, and then writes its end or, when the write fails, leaves the row as it was; an id that is unknown, sent or failed out changes nothing; every try stays accounted for |
| `EmailOutbox.Worker.Drain` | backend/internal/notifications/worker.go:80-107 | Empties the queue with all its duplicates; settled notifications are untouched, and each pending one that was queued is tried |
| `EmailOutbox.Worker.Sweep` | backend/internal/notifications/worker.go:129-140 | Tries each of the oldest pending notifications exactly once more, and touches no other |
| `EmailOutbox.Worker.Enqueue` | backend/internal/notifications/service.go:39-58 | A key that is used already succeeds and changes nothing; a new one writes its row even if the queue cannot be reached |
| `EmailRuns.RunConserves` | backend/internal/notifications/worker.go:142-172 | In every run of any number of workers with enqueues, pops, sweeps, sends, writes, lost writes and restarts, each hand-over to the mail provider is accounted for by a counted failure, a written SENT, a lost write or a worker that holds the answer; each mail by a written SENT, a lost write or such a worker |
| `EmailRuns.MailedOnceButForLostWrites` | backend/internal/notifications/worker.go:142-172 | One worker hands a notification over at most maxAttempts times and once more per lost status write, and has it mailed at most once and once more per write lost after an acceptance |
| `EmailRuns.MailedTwiceIff` | backend/internal/notifications/worker.go:159-171 | One worker has a notification mailed twice if and only if a status write was lost after an acceptance of it and a later hand-over was accepted too |
| `EmailRuns.SentForGood` | backend/internal/notifications/worker.go:155-157 | With one worker SENT is never left, whatever the queue and the sweeps name again |
| `EmailRuns.SentUndoneIff` | backend/internal/notifications/repository.go:338-357 | With any number of workers SENT is undone if and only if the failure of a worker that had read the row before is written: the write names only the row |
| `EmailRuns.TwoWorkersMailTwice` | backend/internal/notifications/repository.go:341-357 | A run of two workers, one fed by the queue and one by a sweep, that mails a notification twice although every status write succeeds |
| `EmailRuns.ProcessIsSteps` | backend/internal/notifications/worker.go:142-172 | Processing a pending notification is the worker's read, send and write, or lost write, with nothing in between |
| `EmailRuns.RunKeysUnique` | backend/internal/notifications/service.go:39-58 | However often an entity is enqueued it has one row |
| `Announcements.FanOutAdds` | backend/internal/notifications/service.go:39-58 | A fan-out adds a row for each recipient that has none and changes no existing row |
| `Announcements.FanOutPairs` | backend/internal/notifications/repository.go:49-75 | Each notification has its Telegram delivery for the same user, since both are written in one transaction |
| `Announcements.StoppedThenComplete` | backend/internal/eventautomations/scheduler.go:69-86 | A fan-out stopped anywhere and then repeated leaves exactly the rows of one uninterrupted run |
| `Announcements.FanOutIsIdempotent` | backend/internal/eventautomations/scheduler.go:69-86 | Any number of fan-outs stopped at any points, with other messages in between, followed by a complete one, leave exactly the rows of one uninterrupted run |
| `Announcements.WhoIsReached` | backend/internal/eventautomations/scheduler.go:70-71 | A complete fan-out reaches a runner if and only if the runner is among the newest 10000 of the roster or already had the row |
| `Announcements.SecondUpdateIsSilent` | backend/internal/notifications/event_notifier.go:26-55 | After the first update of an event no later update is announced to the runners it has reached, whatever has changed |
| `AutomationRuns.FinalForGood` | backend/internal/eventautomations/repository.go:55-121 | With one scheduler, in every interleaving of its statements with administrators, a SENT or CANCELLED automation is never changed again |
| `AutomationRuns.SentUndoneIff` | backend/internal/eventautomations/repository.go:113-121 | With any number of schedulers SENT is left if and only if a scheduler that still holds the automation writes its failure, and the row is changed by such ends only |
| `AutomationRuns.CancelUndoneIff` | backend/internal/eventautomations/repository.go:109-121 | With any number of schedulers CANCELLED is left if and only if a scheduler that still holds the automation writes the end of its attempt, whatever it is |
| `AutomationRuns.TwoSchedulersReschedule` | backend/internal/eventautomations/repository.go:89-121 | A run of two schedulers in which a SENT automation is scheduled again, by the late failure of one whose lock went stale |
| `AutomationRuns.TwoSchedulersSendCancelled` | backend/internal/eventautomations/repository.go:109-112 | A run of two schedulers in which a CANCELLED automation is SENT after all |
| `AutomationRuns.SentReachesRoster` | backend/internal/eventautomations/scheduler.go:69-86 | With any number of schedulers, restarts and failing writes, an automation is marked SENT only when every recipient of the roster its scheduler has listed has a notification and a delivery, for good, and with their number |
| `AutomationRuns.SentTextIff` | backend/internal/eventautomations/scheduler.go:73-77 | With one scheduler, a recipient of a SENT automation has its text if and only if no earlier attempt had reached the recipient with another one: an update between two attempts does not rewrite the row |
| `AutomationRuns.RowSaysAText` | backend/internal/eventautomations/scheduler.go:69-77 | Whatever the schedulers, every announcement says what its automation said when one of its attempts claimed it |
| `AutomationRuns.OneVersion` | backend/internal/eventautomations/scheduler.go:69-77 | An automation whose text is never changed has sent exactly that text |
| `AutomationRuns.RowsStay` | backend/internal/notifications/service.go:39-58 | A notification, once enqueued, is never changed by a later fan-out |
| `AutomationRuns.IdleUntilUpdated` | backend/internal/eventautomations/repository.go:89-92 | With one scheduler a DRAFT or FAILED automation is not claimed until an administrator updates it |
| `Automations.Repository.ClaimDue` | backend/internal/eventautomations/repository.go:89-107 | Takes the due automations that are to be sent first, in the order of send_at and up to the limit, marks them PROCESSING, and changes no other |
| `Automations.Repository.MarkSent` | backend/internal/eventautomations/repository.go:109-112 | Marks the automation SENT with its count |
| `Automations.Repository.RecordFailure` | backend/internal/eventautomations/repository.go:113-121 | Counts the attempt, and fails the automation at the last one or backs off |
| `Automations.Repository.Cancel` | backend/internal/eventautomations/repository.go:66-75 | Cancels exactly a draft, scheduled or failed automation |
| `Automations.Repository.Update` | backend/internal/eventautomations/repository.go:55-64 | Changes exactly a draft, scheduled or failed automation, and resets a failed one's attempts |
| `Automations.RosterHas` | backend/internal/eventautomations/scheduler.go:69-71 | The roster of an announcement is exactly the confirmed registrations of the event |
| `Automations.RosterDistinct` | backend/internal/eventautomations/scheduler.go:69-71 | ... each once |
| `Automations.Scheduler.ListConfirmed` | backend/internal/eventautomations/scheduler.go:69-71 | Lists the newest registrations of the roster, at most 10000 |
| `Automations.Scheduler.EnqueueAll` | backend/internal/eventautomations/scheduler.go:73-77 | Enqueues for each recipient up to the first that cannot be written |
| `Automations.Scheduler.Send` | backend/internal/eventautomations/scheduler.go:69-86 | Sends to the whole target list and marks it sent with the list's length, or counts a failure after the part that was enqueued; when that last write fails the row stays as claimed |
| `Automations.Scheduler.Poll` | backend/internal/eventautomations/scheduler.go:58-86 | Claims the automations that are to be sent first, and sends or fails each of them exactly once, or leaves it claimed when that write fails, to the roster of its own event and whatever happens to the others; nothing else changes, and the outbox holds exactly their fan-outs |
| `Calendar.OnePassSuffices` | frontend/src/lib/eventCalendar.ts:5-11 | The four sequential rewrites equal one left-to-right escaper, for every text |
| `Calendar.TextRoundTrip` | frontend/src/lib/eventCalendar.ts:5-11 | Unescaping the escaped text gives it back with each CRLF turned into LF (section 3.3.11 of RFC 5545) |
| `Calendar.EscapedNoLf` | frontend/src/lib/eventCalendar.ts:5-11 | An escaped text has no line feed |
| `Calendar.JoinRoundTrip` | frontend/src/lib/eventCalendar.ts:41-60 | Splitting the joined lines gives them back if and only if no line contains CRLF |
| `Calendar.FileSplitsIntoLines` | frontend/src/lib/eventCalendar.ts:32-60 | Splitting the calendar at CRLF gives exactly its property lines if and only if the event URL contains no CRLF |
| `Calendar.CalendarRoundTrip` | frontend/src/lib/eventCalendar.ts:51-55 | A reader of the calendar gets back the event's name, description and place |

## Left out

- Columns that decide nothing in the modelled code: participant data, `verified_at`, `last_checked_at`, `reconcile_error`, checkout payloads, timestamps of rows.
- The REFUNDED status and refunds: the registration code never writes them.
- Deletion of users, events and categories with its cascades; rotation of ticket tokens; the list and statistics queries.
- Transactions that lock their registration row first are one step each: with the lock held to commit and the other rows they touch belonging to that registration, their statements cannot be told apart by the others.
- HTTP handling, authentication of callers and role checks, metrics, logging, broadcasts, request parsing, the opening window's own date comparisons (`checkRegistrationOpen` is one truth value of a request).
- Cryptography (bcrypt, SHA-256, MD5, JWT, random tokens), the PostgreSQL, Redis, SMTP, Telegram and Bakong clients.
- Floating point beyond one relative rounding error per operation: subnormal numbers and overflow; the printed value of amounts above 2^50.
- Upper-casing of currency texts covers the ASCII letters.
- The calendar takes the trimmed description and the formatted time stamp as inputs, and the file name's slug is not modelled.
- RegistrationService.Service.Register: the answers of the rate limiter and of the category lock are part of the request; what decides them is in `RateLimit` and `CategoryLock`, and the protocol's results hold without either.
- The code a scanner sends (`normalizeTicketCode` and the lookup by token or number) is resolved before the model's check-in begins.
- `RegistrationService.Service.VerifyPayment`, `RegistrationService.Service.ReviewManualPayment` and `RegistrationService.Service.SubmitManualPayment` run with nothing in between: what races them is covered by the protocol's steps, whose guards are the ones these methods check.
- TelegramOutbox.Worker.Sweep: its status writes succeed; a write that fails leaves the delivery PROCESSING until its lock goes stale, which is in `TelegramRuns`, and would take the loop its bound.
- The protocol's sweep selects all its rows in one step; that the rows are locked one by one is in `SweepLocks`, which has nothing but the locks.
- ApiClient.FlightRefusedIff: one browser with one gate; refreshes of other tabs count as refreshes past it, and a reload as the loss of the responses it drops.

# A verified model of concert ticketing: payment saga, seats, queue and locks

The service sells concert seats. A user waits in a queue, reserves a seat for five minutes,
and pays with charged points. Payment is a saga over Kafka:
`payment.try` deducts points, with up to three `payment.retry` messages after 1, 2 and 4 seconds;
`payment.success` confirms the reservation; a confirmation that fails leads through
`reservation.failure` and `payment.cancel` to a refund; an expiry job competes with the
confirmation for the reservation. This project models that system and proves what it promises
about money, seats, statuses, the queue and its locks, over every run.

## How the model is laid out

| layer | modules |
|---|---|
| Values and sums | `Tables` (rows, statuses), `Sums` (sums over sequences and maps) |
| Atomic transactions | `Points` (charge, use, refund on balances and history), `Booking` (reserve, confirm, expire on seats and reservations) |
| The same at statement granularity | `PointRuns` (plain read, `FOR UPDATE`, Redis lock, absolute write), `BookingRuns` (stale reads, conditional updates, row locks, commit and abort); `PointAlone`, `BookingAlone` (one transaction with nobody in between) |
| The saga | `Saga` (states, handlers, runs), `SagaInvariant`, `SagaMoney`, `SagaBounds`, `SagaOutcome`, `SagaFaults` (what holds under the fault model), `SagaWitnesses` (a run that goes wrong for each fault, and the bounds that are reached), `TimedSaga` (with token lifetimes and job delays) |
| The whole system | `StatementSaga`: the statements of `PointRuns` and `BookingRuns` interleaved with the saga's handlers; `SagaRealized`: every step of the saga done by such statements |
| The program's classes | `Entities`, `Backend` (shared stores and repositories), `Payments`, `Ticketing`: each method is proved to take the saga's steps; `PaymentPath`: one payment from its request to its end |
| The queue | `SortedSets` (Redis sorted sets), `Queue` (the service, one caller), `QueueRuns` (n callers, one Redis command at a time) |
| Locks, tokens, ranking | `DistributedLock`, `PaymentTokens`, `Sellout`, `SelloutRuns` |

Refinements tie the layers together. Statement-level runs leave the tables as their commits do,
one after the other, in commit order (`BookingRuns.RunRefinesAtomic`, `PointRuns.RunRefinesCommits`). A
charge reads its balance without a row lock, so its commit may overwrite a balance it has not read; the
difference is its *gap*, and a commit in the balance layer is a charge with its gap, a use or a refund.
The saga is built from those commits, gaps included. `StatementSaga` runs both kinds of statements and
the saga's handlers as one machine and proves that each of its runs is a run of the saga
(`StatementSaga.RunRefinesSaga`), so the theorems about money hold one statement at a time
(`StatementSaga.MoneyIsSafe`); conversely every run of the saga without gaps is the run of some statements
(`SagaRealized.SagaIsRealized`). The interleaved loops, locks and counters take the steps of the methods that
run alone (`QueueRuns.UninterruptedUpdate`, `DistributedLock.CallHoldsItsEntry`, `Sellout.UpdateTakesSteps`). The methods of the service and consumer classes equal
the saga's steps, and a handler that runs alone is a saga run (`Payments.TryRunIsSagaRun`,
`Payments.RetryRunIsSagaRun`), so what is proved of all runs holds for them.

## Assumptions

* A message or job handler advances one commit at a time, interleaved arbitrarily with every other.
  `payment.retry`, `payment.success`, `reservation.failure` and `payment.cancel` are delivered exactly
  once; `payment.try` may be redelivered any number of times, one at a time per key, so the duplicate
  check and the insert are one step. Each request draws an id never used before. Publishing a message
  does not fail.
* In each step `fails` says that the transaction, or the lock before it, fails; `late` that an error is
  raised outside it: after the commit (releasing the lock, deleting the token, updating the ranking) or,
  for payment.try, by the duplicate check. A charge commits with a gap.
  The general theorems allow all of these everywhere and account for them in an audit log.
  `SagaFaults.Benign` is the fault model under which no money slips: no error after a commit, no failing
  compensation, no gaps. Failing duplicate checks are part of it.
* Where a theorem asks for charges without gaps: there are none when the Redis lock never times out under
  its holder and no refund overlaps a charge of the same user (`StatementSaga.SoundlyReachableIsBenign`).
  Uses and refunds never have any.
* In `StatementSaga` and `TimedSaga` a committed reservation's token and job appear with its commit; the
  times at which they were issued may lie any time later.
* A conditional UPDATE is an atomic compare-and-set that holds the row's lock to the end of its
  transaction; a SELECT inside a seat transaction may return any earlier committed version.
* Reservation ids are numbered in commit order. Seats start AVAILABLE, and a schedule has as many seats as
  its record says.
* Auxiliary data that no code reads: the payment id on history rows and on `paidAt`, the reservation in a
  token's claim, the audit log, lock owners, arrival times, the time of the last sale.
* Times are integers; amounts are unbounded integers, and may be negative except where a statement says otherwise.

## What the proofs bring out

* The status SUCCESS is never written, although `docs/kafka_implement.md:49` and `:79` say so: a paid
  payment keeps the status PENDING or RETRYING. The model follows the code.
* An error after the deduction has committed (releasing the Redis lock, deleting the payment token)
  makes the retry deduct again (`SagaWitnesses.LostPaymentRun`); an error after the confirmation
  has committed (updating the ranking) refunds a CONFIRMED reservation
  (`SagaWitnesses.GiftedReservationRun`); an error while compensating is logged and swallowed, and the
  payer's money is gone (`SagaWitnesses.UnreturnedPaymentRun`). `SagaMoney.SettledExactlyWhen` says exactly
  when a payment is settled once.
* If the duplicate check of a redelivered `payment.try` fails with an error, the catch block restarts the
  payment, whatever had become of it. The money stays right: a payment deducted again after its
  confirmation is refunded, because the second confirmation fails. What breaks is the bound of four
  attempts (`SagaWitnesses.FourAttemptsExactlyWhen`), those of one deduction and one message at a time, and the
  status: a paid payment can end as FAILURE or CANCEL (`SagaWitnesses.PaidPaymentMarkedFailure`,
  `SagaWitnesses.PaidPaymentMarkedCancel`), though only after a restart
  (`SagaWitnesses.PaidNeverReadsFailedExactlyWhen`).
* `charge` takes no row lock and `cancelPayment` no Redis lock, so a refund that commits between a charge's
  read and its write is overwritten, without any fault (`PointRuns.RefundDuringChargeIsLost`); so is a charge
  that commits after the Redis lock has timed out under another one (`PointRuns.ChargeAfterTimeoutIsLost`). The ledger is
  off by exactly the sum of such gaps (`PointRuns.RunKeepsLedgerExactlyWhen`).
* `reservations.seat_id` is unique, so a seat whose reservation expired becomes AVAILABLE but can never be
  reserved again (`Booking.ExpiredSeatIsNeverReservedAgain`).
* A payment token is checked against its user only. It pays for somebody else's reservation just as well
  (`SagaWitnesses.TokenPaysForAnotherReservation`); comparing the token's seat with the reservation's would
  be exactly the missing check (`SagaInvariant.RequestMatchesTokenExactlyWhen`). Used for its own reservation,
  a token is never accepted once that has expired (`TimedSaga.AcceptedIsNotExpired`); used for another, it can
  be (`TimedSaga.AcceptedForExpired`).
* An error between the commit of a reservation and the end of `temporaryReserve` leaves it PENDING without
  an expiry job, with or without a token (`SagaWitnesses.ReservationWithoutJob`); it can expire exactly if it
  has one (`SagaInvariant.ExpiresExactlyWhen`).
* A negative charge can make a balance negative (`SagaWitnesses.NegativeBalanceRun`;
  `Points.PerformKeepsNonNegative` says exactly when); stale
  reads cannot (`PointRuns.BalancesStayNonNegative`).
* A lock holder that outlives the lock's time to live is all it takes to break exclusion
  (`DistributedLock.ExclusionSurvivesExactlyWhen`). With ten attempts 100 ms apart and a time to live of three
  seconds, a caller gives up long before an entry left behind is gone (`DistributedLock.GetsLockExactlyWhen`).
* The bound maxCount + n - 1 on the active queue is reached (`QueueRuns.BoundIsReachedFromStart`). A token
  can be overtaken by the one about to be fetched exactly if its ZADD has not been executed yet
  (`QueueRuns.OvertakenExactlyWhen`).

## Model

| member | source | states |
|---|---|---|
| StatementSaga.RunRefinesSaga | src/payment/application/services/payment.service.ts:73-310 | Every interleaving of SQL statements, Redis commands and handler steps, with any failures, stale reads and lock timeouts, leaves what a run of the saga with atomic steps leaves |
| StatementSaga.ReachableInSaga | src/payment/application/services/payment.service.ts:73-89 | What any such run has committed is reachable in the saga, with exactly the gaps its charges were committed with |
| StatementSaga.SoundlyReachableIsBenign | src/ticketing/application/services/reservation.service.ts:207-261 | If nothing fails after a commit, no compensation fails, no Redis lock times out under its holder and no refund overlaps a charge of its user, the committed state is one the saga reaches under its fault model |
| StatementSaga.MoneyIsSafe | src/payment/application/services/payment.service.ts:73-310 | Then, one statement at a time: money is conserved, the ledger holds, seats and reservations agree, and once all messages have drained every CONFIRMED reservation is paid exactly once and no other |
| SagaRealized.SagaIsRealized | src/payment/application/services/payment.service.ts:73-310 | Conversely, whatever a run of the saga reaches with charges that leave no gap, some interleaving of statements reaches: atomic steps and statements describe the same system |
| PaymentPath.UndisturbedPayment | src/payment/infrastructure/event-listeners/payment-kafka-event.consumer.ts:21-217 | A payment that nobody interrupts and in which nothing fails ends in exactly one of three ways, decided beforehand: CONFIRMED and SOLD for one deduction and its token if affordable and PENDING; CANCEL with every balance as before if affordable and not PENDING; FAILURE after three retries with nothing changed if not affordable |
| SagaFaults.MoneyIsConservedExactly | src/payment/application/services/payment.service.ts:73-310 | In every run under the fault model, failing duplicate checks included, the sum of all balances, plus what is deducted but neither confirmed nor refunded, plus the prices of CONFIRMED reservations, equals all charges minus what the old `use` endpoint spent |
| SagaFaults.LedgerHolds | src/payment/application/services/payment.service.ts:159-174 | In every run under the fault model every balance, and their total, is CHARGE minus USE plus REFUND over the history |
| SagaFaults.ExactlyOnePaymentPerReservation | src/ticketing/application/services/reservation.service.ts:207-261 | With no saga message in flight, every CONFIRMED reservation has exactly one deducted and unrefunded payment and every other reservation none, however many requests competed, whichever payments a failed duplicate check restarted, and whenever expiry struck |
| SagaFaults.DeductedAtMostOnce | src/payment/infrastructure/event-listeners/payment-kafka-event.consumer.ts:21-217 | Under the fault model a payment is deducted at most once more than it was restarted, so at most once if it never was, and refunded at most as often as deducted |
| SagaFaults.StatusIsTruthful | src/payment/infrastructure/event-listeners/payment-kafka-event.consumer.ts:117-217 | Under the fault model, for a payment that was never restarted: FAILURE means never deducted and not paid; CANCEL means deducted once, its reservation not confirmed by it, and refunded unless payment.cancel is still in flight; only CANCEL payments are refunded; a payment that confirmed its reservation is deducted once and not refunded |
| SagaFaults.SettledStatusIsTruthful | src/payment/infrastructure/event-listeners/payment-kafka-event.consumer.ts:117-217 | Once its messages have drained, a payment never restarted is deducted for good if and only if it confirmed its reservation, and deducted and refunded if and only if its row says CANCEL |
| SagaOutcome.PaidIsNeverTerminal | src/payment/application/services/payment.service.ts:220-293 | In every run with any faults, a payment that confirmed its reservation is neither FAILURE nor CANCEL and has no message left, unless its duplicate check failed or an error came after the confirmation's commit |
| SagaFaults.NothingSlips | src/payment/infrastructure/event-listeners/payment-kafka-event.consumer.ts:199-217 | Under the fault model a compensation always finds the payment's row and the payer's balance, so no deduction is lost, unreturned or given away |
| SagaWitnesses.FourAttemptsExactlyWhen | src/payment/infrastructure/event-listeners/payment-kafka-event.consumer.ts:35-88 | Four attempts are enough in every run with r restarts of a payment by failed duplicate checks if and only if r is 0 |
| SagaWitnesses.OneDeductionExactlyWhen | src/payment/infrastructure/event-listeners/payment-kafka-event.consumer.ts:35-88 | At most one deduction of a payment in every run under the fault model with r restarts of it if and only if r is 0 |
| SagaWitnesses.OneLiveTaskExactlyWhen | src/payment/infrastructure/event-listeners/payment-kafka-event.consumer.ts:35-88 | At most one message or handler run past payment.try in every run with r restarts if and only if r is 0 |
| SagaWitnesses.PaidNeverReadsFailedExactlyWhen | src/payment/infrastructure/event-listeners/payment-kafka-event.consumer.ts:35-88 | A payment that confirmed its reservation never reads FAILURE or CANCEL in any run under the fault model with r restarts if and only if r is 0 |
| SagaWitnesses.AttemptsBoundIsReached | src/payment/infrastructure/event-listeners/payment-kafka-event.consumer.ts:60-88 | For every r some run under the fault model restarts a payment r times, attempts it 4 + 3r times and waits 7000(1 + r) ms for its retries |
| SagaWitnesses.DeductionsBoundIsReached | src/payment/infrastructure/event-listeners/payment-kafka-event.consumer.ts:35-88 | For every r some run under the fault model restarts a payment r times and deducts it 1 + r times |
| SagaWitnesses.LiveBoundIsReached | src/payment/infrastructure/event-listeners/payment-kafka-event.consumer.ts:35-88 | For every r some run under the fault model has 1 + r messages of a payment restarted r times in flight |
| SagaWitnesses.PaidPaymentMarkedFailure | src/payment/infrastructure/event-listeners/payment-kafka-event.consumer.ts:35-88 | A run under the fault model that ends with a CONFIRMED reservation paid for exactly once and its payment's row at FAILURE |
| SagaWitnesses.PaidPaymentMarkedCancel | src/payment/infrastructure/event-listeners/payment-kafka-event.consumer.ts:35-88 | A run under the fault model in which a paid payment is restarted, deducted again and refunded: the reservation is CONFIRMED and paid for exactly once, the row says CANCEL |
| SagaWitnesses.LostPaymentRun | src/payment/application/services/payment.service.ts:199-217 | A run from the start in which one error after the deduction's commit leads, by the retry, to a second deduction of the same payment |
| SagaWitnesses.GiftedReservationRun | src/ticketing/application/services/reservation.service.ts:227-260 | A run from the start in which one error in updateRanking after the confirmation committed ends with a CONFIRMED reservation and the full balance |
| SagaWitnesses.UnreturnedPaymentRun | src/ticketing/infrastructure/event-listeners/reservation-kafka-event.consumer.ts:39-59 | A run from the start in which a compensation fails, in marking the row or in refunding: nothing is in flight any more, the reservation is not confirmed, and the deduction is never returned |
| SagaWitnesses.StaleChargeRun | src/payment/application/services/payment.service.ts:73-89 | A run in which one charge overwrites a balance it has not read: the ledger is off by its gap |
| SagaWitnesses.TokenPaysForAnotherReservation | src/ticketing/application/services/payment-token.service.ts:50-73 | A run without any fault, under the unique index, in which a token issued for one user's seat is accepted for another user's reservation |
| SagaWitnesses.ReservationWithoutJob | src/ticketing/application/services/reservation.service.ts:105-141 | A run in which an error after the reservation's commit leaves it PENDING without an expiry job, with or without a token, never to expire in any continuation |
| SagaWitnesses.NegativeBalanceRun | src/payment/application/services/payment.service.ts:53-89 | Every negative amount can be charged as the first one and leaves the balance at it |
| SagaMoney.MoneyIsConserved | src/payment/application/services/payment.service.ts:73-310 | Conservation in every run of the machine: the books differ exactly by what errors after a commit moved and by the gaps of charges that overwrote a balance they had not read |
| SagaMoney.LedgerHoldsExactlyWhen | src/payment/application/services/payment.service.ts:73-89 | In every run each balance misses CHARGE minus USE plus REFUND by the gaps of its user's charges; the ledger holds if and only if every user's gaps cancel |
| SagaMoney.PaymentIsAccountedFor | src/payment/application/services/payment.service.ts:190-310 | In every run each payment is deducted once more than refunded exactly while a task holds it and once it has confirmed its reservation, up to errors after a commit that struck it |
| SagaMoney.SettledExactlyWhen | src/ticketing/application/services/reservation.service.ts:214-261 | A drained payment is deducted and kept if it confirmed its reservation, and fully undone otherwise, if and only if the errors after a commit that struck it cancel out |
| SagaMoney.ExactlyOnePayment | src/ticketing/application/services/reservation.service.ts:207-261 | Exactly one payment per CONFIRMED reservation at quiescence, whenever no error after a commit struck |
| SagaMoney.LostPaymentIsChargedAgain | src/payment/application/services/payment.service.ts:199-217 | Wherever an error strikes between the deduction's commit and the end of executePayment, the retry deducts the same payment again if the balance allows |
| SagaMoney.GiftedReservationIsRefunded | src/ticketing/application/services/reservation.service.ts:227-260 | Wherever updateRanking fails after the confirmation committed, the compensation refunds a reservation that stays CONFIRMED |
| SagaInvariant.RunKeepsInv | src/payment/infrastructure/event-listeners/payment-kafka-event.consumer.ts:21-217 | The saga's invariant (seat agreement, phases, one payload per payment, one live task per payment unless a failed duplicate check restarted it, payers, jobs, tokens) holds in every reachable state |
| SagaInvariant.PhaseInvariant | src/payment/infrastructure/event-listeners/payment-kafka-event.consumer.ts:21-217 | Unless its duplicate check ever failed, at most one message or handler run past payment.try exists per payment, and its row's status and retry count say which (retry k: RETRYING with count k, cancel: CANCEL); no row is ever SUCCESS |
| SagaInvariant.TerminalRowChangesExactlyWhen | src/payment/application/services/payment.service.ts:220-293 | In any state a step changes a FAILURE or CANCEL row if and only if it handles a message of that payment and writes its status: a failed duplicate check, a retry, a later FAILURE or a later CANCEL |
| SagaInvariant.TerminalStatusIsAbsorbing | src/payment/application/services/payment.service.ts:220-293 | FAILURE and CANCEL rows never change again for a payment whose duplicate check never failed |
| SagaInvariant.RefundFindsItsUser | src/payment/application/services/payment.service.ts:295-300 | The NOT_FOUND_USER_POINT branch of cancelPayment is unreachable from payment.cancel |
| SagaInvariant.HandlerMoves | src/payment/infrastructure/event-listeners/payment-kafka-event.consumer.ts:21-217 | The saga's transition relation: what each handler step may make of its message, with the history row that goes with it |
| SagaInvariant.RequestAcceptedExactlyWhen | src/payment/application/services/payment.service.ts:117-157 | A request is accepted if and only if its token is stored and names the caller and the reservation exists; it then publishes exactly one payment.try for that reservation's seat and price |
| SagaInvariant.SuccessTakesToken | src/payment/application/services/payment.service.ts:190-218 | When payment.success is published, the payment's token is gone, and no other |
| SagaInvariant.TokenStoredExactlyWhen | src/ticketing/application/services/payment-token.service.ts:23-84 | After any step a token is stored if and only if the step issues it with a committed reservation, or it was stored and neither ran out nor had its payment's success published |
| SagaInvariant.UsedTokenIsRefused | src/payment/application/services/payment.service.ts:118-151 | A token that is no longer stored is refused for every user and reservation, in every continuation that does not issue it again |
| SagaInvariant.RequestMatchesTokenExactlyWhen | src/ticketing/application/services/payment-token.service.ts:50-73 | Under the unique index an accepted request pays for the reservation its token was issued with if and only if that reservation's seat is the token's, and then the reservation is the payer's own |
| SagaInvariant.ExpiresExactlyWhen | src/ticketing/application/services/reservation.service.ts:131-141 | In every reachable state a PENDING reservation can expire in some continuation if and only if its expiry job was queued |
| SagaBounds.SagaIsBounded | src/payment/infrastructure/event-listeners/payment-kafka-event.consumer.ts:134-196 | In every run a payment restarted r times is attempted at most 4 + 3r times, waits at most 7 (1 + r) s for retries, has at most 1 + r live tasks, is deducted at most 1 + r times plus once per deduction lost after its commit, and deductions that were not lost are refunded at most once each |
| SagaBounds.StatusTellsTheOutcome | src/payment/application/services/payment.service.ts:220-293 | For a payment that was never restarted: FAILURE only after 4 attempts with nothing kept or refunded, CANCEL only after a deduction, a refund only under CANCEL, and the retry count is the number of attempts or one less |
| SagaBounds.RefundMatchesDeduction | src/payment/infrastructure/event-listeners/payment-kafka-event.consumer.ts:208-210 | All history rows of one payment carry the same user and amount: a refund returns what was taken to whom it was taken from |
| SagaBounds.BackoffTotal | src/payment/infrastructure/event-listeners/payment-kafka-event.consumer.ts:134-139 | The backoffs of retries 1 to n add up to (2^n - 1) * 1000 ms |
| SagaBounds.HandleDecreasesWork | src/payment/infrastructure/event-listeners/payment-kafka-event.consumer.ts:21-217 | Every handler step strictly decreases a weight summed over the in-flight messages |
| SagaBounds.RunsDrain | src/payment/infrastructure/event-listeners/payment-kafka-event.consumer.ts:21-217 | Without new requests and redeliveries, whatever charges, uses, reservations, expiries and token expiries interleave, a run takes at most 18 handler steps per message, and unless it can take one more nothing is left in flight |
| SagaBounds.BalancesAreNonNegative | src/payment/application/services/payment.service.ts:159-174 | In every run with non-negative charges, prices and balances read by charges, no balance is negative |
| Points.LedgerHoldsExactlyWhen | src/payment/application/services/payment.service.ts:73-89 | After any run of committed balance transactions each balance misses CHARGE minus USE plus REFUND by its user's gaps; the ledger holds, per user and in total, if and only if every user's gaps cancel |
| Points.SerialExactlyWhen | src/payment/application/services/payment.service.ts:73-89 | A run of commits ends as the serial run of the same transactions if and only if that run goes through and every user's gaps cancel |
| Points.LedgerOverRuns | src/payment/application/services/payment.service.ts:73-89 | After any run of commits without gaps, each balance is CHARGE minus USE plus REFUND over its history, and so is the total |
| Points.PerformKeepsLedger | src/payment/application/services/payment.service.ts:159-174 | One committed charge, use or refund keeps the ledger if and only if it leaves no gap |
| Points.PerformKeepsNonNegative | src/payment/application/domain/models/user-point.ts:30-46 | A committed transaction keeps all balances at or above zero if and only if it is a use or what it read plus its amount is not below zero |
| PointRuns.RunRefinesCommits | src/payment/infrastructure/persistence/user-point.repository.ts:35-69 | Whatever the interleaving and whichever locks time out, the committed tables are those of the commits in commit order: uses and refunds exactly as if alone, charges with their gap |
| PointRuns.RunKeepsLedgerExactlyWhen | src/payment/infrastructure/persistence/user-point.repository.ts:35-57 | In every run each balance misses the ledger by the gaps of its user's committed charges, so the ledger holds if and only if they cancel |
| PointRuns.RunIsSerialExactlyWhen | src/payment/infrastructure/persistence/user-point.repository.ts:35-57 | A run ends as the serial run of its committed transactions if and only if that serial run goes through and every user's gaps cancel |
| PointRuns.BalancesStayNonNegative | src/payment/application/domain/models/user-point.ts:37-42 | With non-negative amounts no committed balance is ever negative, however stale the balances that charges read |
| PointRuns.SerialWhenChargesAlone | src/payment/infrastructure/persistence/user-point.repository.ts:35-69 | If no charge overlaps another transaction of its user, any interleaving of statements has no gaps: it leaves the balances and history of the committed transactions run one by one, and the ledger holds |
| PointRuns.UsesAndRefundsAreSerial | src/payment/infrastructure/persistence/user-point.repository.ts:59-69 | Any interleaving of uses and refunds is serial through the row lock alone, even when Redis locks time out under their holders |
| PointRuns.ChargesAreSerialUnderLock | src/payment/application/services/payment.service.ts:54-103 | Charges interleaved with everything else are serial whenever the Redis lock is exclusive and no refund of the same user overlaps a charge |
| PointRuns.RefundDuringChargeIsLost | src/payment/application/services/payment.service.ts:295-310 | A run without lock timeouts in which a refund commits inside a charge and is overwritten: balance 150 instead of 180, gap and drift -30, ledger broken |
| PointRuns.ChargeAfterTimeoutIsLost | src/common/services/redis/distributed-lock.service.ts:11-21 | A run of two charges in which the first one's Redis lock times out: 100 + 70 + 50 becomes 150 |
| PointAlone.AloneIsAtomic | src/payment/application/services/payment.service.ts:73-174 | A balance transaction that runs alone does in at most four statements what the atomic one does, and commits exactly if that succeeds |
| Booking.PerformKeepsAgreement | src/ticketing/infrastructure/persistence/seat.prisma.repository.ts:42-64 | Every committed reserve, confirm or expire keeps: AVAILABLE iff no PENDING or CONFIRMED reservation, RESERVED iff exactly one PENDING and none CONFIRMED, SOLD iff exactly one CONFIRMED and none PENDING |
| Booking.CommitsExactlyWhen | src/ticketing/application/services/reservation.service.ts:153-205 | In agreeing tables the transactions commit exactly when the seat has no active reservation (reserve) or the reservation is PENDING (confirm, expire); the seat's own status check never decides |
| Booking.PendingSeatIsReserved | src/queue/services/reservation-expire-consumer.service.ts:55-71 | The seat of a PENDING reservation is RESERVED |
| Booking.OnePendingPerSeat | src/ticketing/infrastructure/persistence/reservation.prisma.repository.ts:61-86 | Two PENDING reservations never share a seat |
| Booking.SettledAtMostOnce | src/queue/services/reservation-expire-consumer.service.ts:55-71 | Over every run of committed transactions, confirms and expiries of a reservation together commit once if it is no longer PENDING and not at all while it is |
| Booking.PerformIsMonotone | src/ticketing/application/domain/models/reservation.ts:48-55 | CONFIRMED and EXPIRED are absorbing; owner, seat and price of a reservation never change |
| Booking.UniqueReserveExactlyWhen | prisma/schema.prisma:94-109 | Under the unique index on the seat, a reservation goes through exactly for an existing seat that never had one |
| Booking.ExpireKills | src/queue/services/reservation-expire-consumer.service.ts:44-74 | Every committed expire leaves the reservation EXPIRED and its seat AVAILABLE, the state from which the seat is never reserved again |
| Booking.ExpiredSeatIsNeverReservedAgain | prisma/schema.prisma:106 | Under the unique index, the seat of an EXPIRED reservation stays AVAILABLE and unreserved through every later transaction |
| BookingRuns.RunRefinesAtomic | src/ticketing/application/services/reservation.service.ts:153-205 | Whatever the interleaving, however stale the reads and wherever transactions abort, the committed tables are those of the committed transactions run atomically in commit order, and seats agree with reservations; no Redis lock is involved |
| BookingAlone.AloneIsAtomic | src/ticketing/application/services/reservation.service.ts:153-205 | A seat transaction that runs alone on the current rows does in at most five statements what the atomic one does, and commits exactly if that succeeds |
| BookingRuns.CommitIsAtomic | src/ticketing/infrastructure/persistence/seat.prisma.repository.ts:42-64 | What a transaction commits, including the price it writes back from its own read, is its atomic effect on the tables at commit time |
| BookingRuns.SeatUpdateCannotFail | src/queue/services/reservation-expire-consumer.service.ts:61-70 | In every run, once a confirm or expire has updated its reservation, its read and its update of the seat succeed |
| BookingRuns.OnlyCommittedTransactionsCount | docs/concurrency.md:102-109 | In every run the tables are the replay of the commit log, and the log names each transaction that ended committed exactly once: an aborted or unfinished one, the loser of a race in particular, has changed nothing |
| BookingRuns.RaceHasOneWinner | docs/concurrency.md:102-109 | In every interleaving at most one of confirm and expire ever commits for a reservation, and one has exactly when it is no longer PENDING |
| BookingRuns.SomeTransactionCanAdvance | src/ticketing/application/services/reservation.service.ts:185-205 | No deadlock: while a transaction is unfinished, some transaction can run its next statement |
| Payments.TryRunIsSagaRun | src/payment/infrastructure/event-listeners/payment-kafka-event.consumer.ts:21-90 | Handling payment.try without interruption is a run of the saga |
| Payments.RetryRunIsSagaRun | src/payment/infrastructure/event-listeners/payment-kafka-event.consumer.ts:117-197 | Handling payment.retry without interruption is a run of the saga |
| Payments.TryRunOutcome | src/payment/infrastructure/event-listeners/payment-kafka-event.consumer.ts:21-88 | payment.try ends in payment.success if and only if a row was created and the deduction went through with no error after it; in payment.retry 1 with its row RETRYING if and only if the attempt of a created row, or the duplicate check of a known one, failed and the row could be marked; otherwise in nothing. Balances, history, tokens and rows are those of that end |
| Payments.RetryRunOutcome | src/payment/infrastructure/event-listeners/payment-kafka-event.consumer.ts:117-197 | payment.retry k ends in payment.success if and only if the deduction went through with no error after it; otherwise, if the row can be marked, in payment.retry k + 1 below the third and in FAILURE after it |
| Payments.PaymentService.ChargeTransaction | src/payment/application/services/payment.service.ts:73-89 | Creating the row, writing history, the guard and the absolute write together are the atomic charge; a refused amount or a failed commit undoes all of it |
| Payments.PaymentService.UseTransaction | src/payment/application/services/payment.service.ts:159-174 | Although history is written before the guard, a refused use leaves no trace, and a granted one is the atomic use |
| Payments.PaymentService.CancelPayment | src/payment/application/services/payment.service.ts:295-310 | The refund transaction is the atomic refund, or nothing |
| Payments.PaymentService.Charge | src/payment/application/services/payment.service.ts:54-71 | Under the lock: the saga's charge without a gap; answers exactly the new balance, the old one plus the amount, if and only if the lock is granted and released, the amount allowed and the commit successful |
| Payments.PaymentService.Use | src/payment/application/services/payment.service.ts:92-114 | Under the lock: the saga's spending; answers exactly the new balance, the old one minus the amount, if and only if the lock is granted and released, the balance sufficient and the commit successful |
| Payments.PaymentService.ProcessPaymentAndReservation | src/payment/application/services/payment.service.ts:117-157 | A request publishes one payment.try for the reservation's seat and price exactly when its token is valid and the reservation exists |
| Payments.PaymentService.ExecutePayment | src/payment/application/services/payment.service.ts:190-218 | The deduction and what follows it are the saga's; success exactly if the lock is granted, the payer can afford it and nothing fails; the token is deleted exactly then |
| Payments.PaymentService.PublishPaymentRetry | src/payment/application/services/payment.service.ts:241-269 | The row becomes RETRYING with the given count before payment.retry is published; without a row nothing is published and nothing changes |
| Payments.PaymentService.PublishPaymentFailure | src/payment/application/services/payment.service.ts:220-239 | After the last retry the row becomes FAILURE and the payment ends |
| Payments.PaymentService.PublishPaymentCancel | src/payment/application/services/payment.service.ts:271-293 | The row becomes CANCEL before payment.cancel is published; if it cannot, the deduction stays unreturned |
| Payments.PaymentKafkaEventConsumer.OnPaymentTry | src/payment/infrastructure/event-listeners/payment-kafka-event.consumer.ts:21-90 | Duplicates are dropped; otherwise insert, deduct, and on failure at any point, the duplicate check included, retry 1 if there is a row, as the saga does |
| Payments.PaymentKafkaEventConsumer.OnPaymentRetry | src/payment/infrastructure/event-listeners/payment-kafka-event.consumer.ts:117-197 | Backoff, deduct, and on failure the next retry or, after the third, FAILURE, as the saga does |
| Payments.PaymentKafkaEventConsumer.OnPaymentCancel | src/payment/infrastructure/event-listeners/payment-kafka-event.consumer.ts:199-217 | Refunds the payload's amount to the payload's user once, or records that it did not |
| Payments.ReservationKafkaEventConsumer.OnReservationFailure | src/ticketing/infrastructure/event-listeners/reservation-kafka-event.consumer.ts:34-60 | A failed confirmation turns into payment.cancel, as the saga does |
| Ticketing.ReservationService.ReserveWithOptimisticLock | src/ticketing/application/services/reservation.service.ts:153-166 | Check, conditional seat update and insert together are the atomic reserve with the same error, or nothing |
| Ticketing.ReservationService.ReserveUnderLock | src/ticketing/application/services/reservation.service.ts:76-102 | The seat found before the lock is reserved at its price exactly if it is AVAILABLE, the lock granted and nothing fails; otherwise nothing changes |
| Ticketing.ReservationService.ConfirmWithOptimisticLock | src/ticketing/application/services/reservation.service.ts:185-205 | Reservation first, seat second: the atomic confirm, or its error |
| Ticketing.ReservationService.ConfirmReservation | src/ticketing/application/services/reservation.service.ts:207-261 | Handling payment.success is the saga's step: reservation CONFIRMED with the time of payment and seat SOLD exactly if they were PENDING and RESERVED and nothing fails, or reservation.failure published, even when the error came after the commit; one sale is counted per commit unless Redis fails before, and the schedule ranked with its time on sale if that sells it out |
| Ticketing.ReservationService.Admit | src/ticketing/application/services/reservation.service.ts:64-74 | Exactly the first waiting tokens that fit are admitted, and the caller passes exactly with its own active token, no older than an hour, and session time left |
| Ticketing.ReservationService.IssueTokenAndQueueJob | src/ticketing/application/services/reservation.service.ts:105-141 | Payment token, queue token and expiry job in this order, with the answer that says how far it came: an expiry job exists only for a reservation whose payment token was issued |
| Ticketing.ReservationService.TemporaryReserve | src/ticketing/application/services/reservation.service.ts:58-151 | Exactly a caller whose own token was signed within the hour and is active, not waiting, with session time left after the update is admitted, and nobody else changes a table; an admitted one succeeds exactly if the seat exists, is AVAILABLE and nothing fails, and then has a PENDING reservation, its token and expiry job, and no queue token |
| Ticketing.ReservationExpireConsumer.Process | src/queue/services/reservation-expire-consumer.service.ts:44-74 | A PENDING reservation becomes EXPIRED and its RESERVED seat AVAILABLE, or nothing changes |
| Backend.UserPointRepository.Create | src/payment/infrastructure/persistence/user-point.repository.ts:25-33 | A new balance row starts at 0 and touches no other; for an existing user the insert fails without a change |
| Backend.UserPointRepository.FindOne | src/payment/infrastructure/persistence/user-point.repository.ts:35-45 | The committed balance, or nothing exactly when there is no row |
| Backend.UserPointRepository.Update | src/payment/infrastructure/persistence/user-point.repository.ts:47-57 | Writes the absolute balance of one user, and fails without a change if there is no row |
| Backend.PaymentTransactionRepository.Create | src/payment/infrastructure/persistence/payment-transaction.repository.ts:18-36 | A second insert of an id fails; a first starts with retry count 0 |
| Backend.PaymentTransactionRepository.UpdateStatus | src/payment/infrastructure/persistence/payment-transaction.repository.ts:66-91 | Fails without a row; keeps the retry count unless one is given |
| Backend.SeatRepository.FindOne | src/ticketing/infrastructure/persistence/seat.prisma.repository.ts:14-24 | The seat's row, or the error exactly when there is none |
| Backend.SeatRepository.Update | src/ticketing/infrastructure/persistence/seat.prisma.repository.ts:42-64 | Writes status and price if and only if the row has the expected status, and otherwise fails without a change |
| Backend.ReservationRepository.Create | src/ticketing/infrastructure/persistence/reservation.prisma.repository.ts:18-26 | Appends the row under the next id, or fails without a change |
| Backend.ReservationRepository.FindOne | src/ticketing/infrastructure/persistence/reservation.prisma.repository.ts:28-38 | The reservation's row, if any |
| Backend.ReservationRepository.Update | src/ticketing/infrastructure/persistence/reservation.prisma.repository.ts:61-86 | Writes status and paidAt if and only if the row has the expected status, and otherwise fails without a change |
| Entities.UserPoint.Charge | src/payment/application/domain/models/user-point.ts:30-35 | Refuses more than 1000000, and nothing else, without a change |
| Entities.UserPoint.Use | src/payment/application/domain/models/user-point.ts:37-42 | Refuses exactly what exceeds the balance, without a change |
| Entities.UserPoint.Refund | src/payment/application/domain/models/user-point.ts:44-46 | Undoes a use of the same amount, with no guard |
| Entities.Reservation.New | src/ticketing/application/domain/models/reservation.ts:29-46 | A new reservation is PENDING and unpaid |
| Entities.Reservation.SetConfirmed | src/ticketing/application/domain/models/reservation.ts:48-51 | Confirming stamps the time of payment |
| Entities.Reservation.SetExpired | src/ticketing/application/domain/models/reservation.ts:53-55 | Expiring leaves the time of payment alone |
| DistributedLock.DistributedLockService.WithLock | src/common/services/redis/distributed-lock.service.ts:23-51 | Refused attempts with pauses, then one grant, one action, one delete, in this order, on normal and exceptional exit alike; after maxRetry refusals neither action nor delete |
| DistributedLock.CallRunsActionAtMostOnce | src/common/services/redis/distributed-lock.service.ts:31-50 | At most maxRetry attempts; the action and the delete happen exactly once each if some attempt among them is granted, the delete last, and not at all otherwise |
| DistributedLock.ScriptSpelledOut | src/common/services/redis/distributed-lock.service.ts:23-51 | A call in full: an attempt with this key and time to live for each refusal, each followed by this pause; then the granted attempt, the action and the delete of the same key |
| DistributedLock.CallHoldsItsEntry | src/common/services/redis/distributed-lock.service.ts:11-51 | While its action runs, a call that is granted the lock holds its own entry for its whole time to live from that moment; afterwards neither is left and nobody else's is changed |
| DistributedLock.GetsLockExactlyWhen | src/common/services/redis/distributed-lock.service.ts:31-43 | A lone caller gets a lock that somebody else's entry guards if and only if the entry is gone by its last attempt |
| DistributedLock.LockExcludes | src/common/services/redis/distributed-lock.service.ts:11-21 | If every holder finishes within its time to live, at most one action per key is running, and every release deletes the releaser's own entry |
| DistributedLock.ExclusionSurvivesExactlyWhen | src/common/services/redis/distributed-lock.service.ts:11-21 | From an exclusive state in which holders own their entries, whoever comes next keeps the lock exclusive on every key if and only if no holder has outlived its time to live |
| DistributedLock.OverrunBreaksExclusion | src/common/services/redis/distributed-lock.service.ts:18-21 | A run in which one overrun lets a second holder in, and the first one's release lets in a third |
| Queue.Promotions | src/ticketing/application/services/queue-ranking.service.ts:41-59 | How many tokens an update promotes: never more than are waiting |
| Queue.PromotionsFillTheQueue | src/ticketing/application/services/queue-ranking.service.ts:47-58 | It stops as soon as, and not before, the active queue is full or the waiting queue empty |
| Queue.PromotionsOfDisjointQueues | src/ticketing/application/services/queue-ranking.service.ts:41-59 | For disjoint queues it is min(max(0, maxCount - active), waiting) |
| Queue.UpdateExactly | src/ticketing/application/services/queue-ranking.service.ts:41-59 | An update of disjoint queues moves exactly the first so many tokens, loses and duplicates none, and ends with the active queue full or the waiting queue empty |
| Queue.RanksDropByPromotions | src/ticketing/application/services/queue-ranking.service.ts:77-81 | Every token still waiting moves up by exactly the number promoted |
| Queue.QueueRankingService.AddToWaitingQueue | src/ticketing/application/services/queue-ranking.service.ts:29-36 | The token waits with the current time as its score |
| Queue.QueueRankingService.MoveFirst | src/ticketing/application/services/queue-ranking.service.ts:49-54 | The first waiting token leaves the waiting queue and becomes active, stamped with the current time |
| Queue.QueueRankingService.UpdateEntireQueue | src/ticketing/application/services/queue-ranking.service.ts:41-59 | The loop terminates with the first Promotions tokens moved in (score, member) order and stamped during the call, and with a full active or an empty waiting queue |
| Queue.QueueRankingService.CheckQueueStatus | src/ticketing/application/services/queue-ranking.service.ts:65-95 | waitingRank is the number of tokens ahead; activeRemainTime is what is left of 180000 ms since admission; -1 otherwise |
| Queue.QueueRankingService.VerifyToken | src/ticketing/application/services/queue-token.service.ts:50-78 | A token passes exactly for its own user, less than an hour after it was signed, while waiting, or while active with session time left, as needed; one in place that was not signed here or is too old makes the call throw |
| Queue.QueueRankingService.DeleteToken | src/ticketing/application/services/queue-token.service.ts:80-85 | The token, and nobody else, leaves both queues |
| QueueRuns.ActiveIsBounded | src/ticketing/application/services/queue-ranking.service.ts:41-59 | With n concurrent callers, one Redis command at a time, the active queue never exceeds maxCount + n - 1 |
| QueueRuns.UninterruptedUpdate | src/ticketing/application/services/queue-ranking.service.ts:41-59 | A caller that nobody interrupts updates the queues as the method does |
| QueueRuns.BoundIsReachedFromStart | src/ticketing/application/services/queue-ranking.service.ts:41-59 | For every number of callers n and every maximum of at least one, some run from the empty queues reaches maxCount + n - 1 active tokens |
| QueueRuns.NoOvertaking | src/ticketing/application/services/queue-ranking.service.ts:29-59 | Once a token has been taken from the waiting queue, every token with an earlier millisecond that had been added when the later one was fetched is gone from it too, even with concurrent callers and with the clock read before the ZADD |
| QueueRuns.OvertakenExactlyWhen | src/ticketing/application/services/queue-ranking.service.ts:29-59 | In every reachable state in which a caller is about to fetch the first waiting token, some continuation takes that token while one with an earlier millisecond still waits if and only if the earlier one has not been added yet |
| QueueRuns.NeverWaitsExactlyWhen | src/ticketing/application/services/queue-ranking.service.ts:29-59 | Some continuation, the present included, finds a token that has read its time waiting, if and only if it has not been both added and removed |
| QueueRuns.LateArrivalIsOvertaken | src/ticketing/application/services/queue-ranking.service.ts:29-36 | A run in which a token that reads the clock first but is added after a later one was fetched is overtaken |
| PaymentTokens.ValidTokenMeansNotExpired | src/ticketing/application/services/reservation.service.ts:116-141 | In every timed run, a payment token still valid belongs to a reservation that is not EXPIRED; a reservation expires at least a second after its token |
| PaymentTokens.LifetimesExactly | src/ticketing/application/services/reservation.service.ts:116-141 | A token is valid for exactly 300 seconds, and its job expires the reservation exactly from 301 seconds on |
| TimedSaga.AcceptedIsNotExpired | src/ticketing/application/services/payment-token.service.ts:50-73 | In every timed run of the saga, a request accepted for the reservation its token was issued with finds it not EXPIRED, however late the token and the job were issued |
| TimedSaga.AcceptedForExpired | src/ticketing/application/services/payment-token.service.ts:50-73 | A timed run in which the token of a later reservation lets its user pay for one that has expired |
| TimedSaga.LifetimesExactly | src/ticketing/application/services/reservation.service.ts:116-141 | In the timed saga too, counted from when the token was stored and the job queued |
| TimedSaga.ReachableInSaga | src/ticketing/application/services/reservation.service.ts:116-141 | Every timed run is a run of the saga, so its theorems hold with time as well |
| Sellout.ScheduleOfDurationKey | src/ticketing/application/services/sellout-ranking.service.ts:91-94 | A schedule id is read back from its ranking key |
| Sellout.ParseFormat | src/common/utils/redis-keys.ts:2-4 | Decimal printing and parsing of ids are inverse |
| Sellout.StartedSetsEach | src/ticketing/application/services/sellout-ranking.service.ts:40-52 | Opening a list of schedules leaves each with its own value, the last of equal ids winning |
| Sellout.RankingIsAscending | src/ticketing/application/services/sellout-ranking.service.ts:81-114 | The reported ranking ascends by duration, lists different schedules, and names the ranked ones |
| Sellout.SelloutRankingService.StartToSell | src/ticketing/application/services/sellout-ranking.service.ts:32-54 | Every schedule found gets its seat count, a zero counter and its start time; none found is an error without a change |
| Sellout.SelloutRankingService.UpdateRanking | src/ticketing/application/services/sellout-ranking.service.ts:56-79 | One sale of the schedule, and of no other, is counted unless Redis fails before; the schedule is ranked with its time on sale exactly when as many are counted as there are seats and Redis does not fail |
| Sellout.UpdateTakesSteps | src/ticketing/application/services/sellout-ranking.service.ts:56-79 | One updateRanking takes the three steps of the interleaved runs, the first one if Redis fails after it, none if before, and leaves other schedules alone |
| Sellout.SelloutTimeIsRankingTime | src/ticketing/application/services/sellout-ranking.service.ts:66-72 | The sellout time reported for a schedule is the moment at which it was ranked |
| Sellout.SelloutRankingService.GetFastSelloutRanking | src/ticketing/application/services/sellout-ranking.service.ts:81-114 | One item per ranked schedule in ranking order, with selloutTime = startTime + duration |
| SelloutRuns.RankingAgreesWithSales | src/ticketing/application/services/sellout-ranking.service.ts:56-79 | With reservations, confirmations and expiries interleaved, the booked count is the number of the schedule's SOLD seats minus confirmations not yet counted; with no update under way the schedule is ranked if and only if all its seats are SOLD, with a sellout time no earlier than its last sale |
| SelloutRuns.UninterruptedUpdate | src/ticketing/application/services/sellout-ranking.service.ts:56-79 | An update that nobody interrupts is a run of three steps |

## Left out

- Payments.PaymentService.ExecutePayment: the lock's own behaviour is an input (`lockGranted`, `releaseFails`) here; `DistributedLock` and `PointRuns` model it.
- Payments.PaymentService.VerifyToken: the token's purpose and its WAITING status, the only status ever stored, are not modelled, nor is its signature.
- SelloutRuns.RankingAgreesWithSales: every ranking update runs to its end, and every schedule is opened once, before its first sale.
- DistributedLock.CallHoldsItsEntry: a time to live of zero, which would set an entry without expiry, is never passed and not modelled.
- Backend.PaymentTransactionRepository.UpdateStatus: updatedAt and the failure reason are not modelled.
- The classes of `Payments`, `Ticketing` and `Backend` run one call at a time; interleaving is the subject of the saga and of the statement-level modules, whose statements are the repositories' calls.
- Queue.QueueRankingService.VerifyToken: what a token's signature decodes to is an input.
- HTTP controllers, DTOs, user sign-up, JWT, bcrypt, guards, k6 scripts and seeding: no property of their own.
- Kafka, BullMQ, Prisma and ioredis internals: replaced by tasks, jobs, tables with compare-and-set, maps and sorted sets.
- The seat cache: its write-back uses a seat id where a schedule id belongs, so agreement with the table is not a property of this code.
- Expiry and queue liveness: expiry is an optional step once its job exists, and nothing evicts timed-out tokens from the active queue.
- `QueueConsumer`, `SeatLockService`, the pessimistic reservation variant, `PaymentEventListener` and `NestEventBus`: unwired or superseded.
- `initialize` of the queues, the finders no handler uses, data-platform logging, and the text of failure reasons.
- The 32-bit width of amount columns: an overflow appears as a failing transaction.

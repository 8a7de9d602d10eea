/** The payment/reservation saga as a state machine over single commits.

    A task is a Kafka message together with the handler run it leads to; the slot
    of a task is reused as the saga moves on, so one payment.try message owns one
    slot to its end. Tasks advance in any order, interleaved with charges, old-style
    uses, new reservations and requests, expiry jobs, token expiry and redelivered
    payment.try messages. A step is at most one commit on shared state. */
module Saga {
  import opened Tables
  import P = Points
  import B = Booking

  const MAX_RETRY: nat := 3
  const BACKOFF_MS: nat := 1000

  datatype Payload = Payload(reservation: nat, user: int, seat: int, amount: int, tx: TxId, token: Token)

  datatype Task =
    | TryEvent(p: Payload)                           // payment.try in its topic
    | Executing(p: Payload, attempt: nat)            // about to deduct; attempt 0 belongs to payment.try
    | Paid(p: Payload, attempt: nat)                 // deducted; Redis lock and token still to be deleted
    | AttemptFailed(p: Payload, attempt: nat)        // in the catch block, about to write the status
    | RetryEvent(p: Payload, attempt: nat)           // payment.retry in its topic
    | SuccessEvent(p: Payload)                       // payment.success in its topic
    | ReservationFailureEvent(p: Payload)            // reservation.failure in its topic
    | CancelEvent(p: Payload)                        // payment.cancel in its topic
    | Done(p: Payload)

  /** What happened to a payment beyond its database rows. Only proofs read this.
      Lost: deducted, but an error after the commit sent it back for a retry.
      Unreturned: its compensation failed and is not tried again.
      Gifted: compensated although its reservation was confirmed.
      Restart: started over because the duplicate check of a payment.try failed.
      Stale: a charge that overwrote a balance it had not read, by this gap. */
  datatype Audit =
    | Attempt(tx: TxId)
    | Backoff(tx: TxId, ms: nat)
    | Lost(tx: TxId, amount: int)
    | Unreturned(tx: TxId, amount: int)
    | Gifted(tx: TxId, amount: int)
    | Restart(tx: TxId)
    | Stale(user: int, gap: int)

  datatype State = State(points: P.Store, booking: B.Store, payments: map<TxId, PaymentRow>,
                         tokens: map<Token, Claim>, jobs: set<(nat, int)>, tasks: seq<Task>, audit: seq<Audit>)

  /** `fails`: the transaction, or the lock before it, fails. `late`: an error is raised
      outside it: after the commit, or, handling payment.try, by the duplicate check.
      Requests carry the fresh id drawn for them, charges the gap they commit with. */
  datatype Action =
    | Charge(user: int, amount: int, gap: int, fails: bool)
    | Spend(user: int, amount: int, fails: bool)
    | Reserve(user: int, seat: int, token: Token, fails: bool, tokenIssued: bool, jobQueued: bool)
    | Request(user: int, reservation: nat, token: Token, tx: TxId)
    | Redeliver(i: nat)
    | Handle(i: nat, fails: bool, late: bool, now: int)
    | Expire(id: nat, seat: int, fails: bool)
    | ForgetToken(token: Token)

  function Initial(seats: map<int, SeatRow>): State {
    State(P.EMPTY, B.Store(seats, []), map[], map[], {}, [], [])
  }

  function Put(s: State, i: nat, t: Task): State
    requires i < |s.tasks|
  {
    s.(tasks := s.tasks[i := t])
  }

  function Log(s: State, a: Audit): State {
    s.(audit := s.audit + [a])
  }

  function Pow2(n: nat): nat {
    if n == 0 then 1 else 2 * Pow2(n - 1)
  }

  function Delay(attempt: nat): nat
    requires attempt >= 1
  {
    Pow2(attempt - 1) * BACKOFF_MS
  }

  function SetStatus(s: State, tx: TxId, status: PaymentStatus): State
    requires tx in s.payments
  {
    s.(payments := s.payments[tx := s.payments[tx].(status := status)])
  }

  /** payment.try: a known id is a duplicate; a failed insert leaves no row to
      mark for retry, and nothing is published. `late`: looking up the id fails, and
      the catch block marks whatever row there is for retry. */
  function HandleTry(s: State, i: nat, fails: bool, late: bool): State
    requires i < |s.tasks| && s.tasks[i].TryEvent?
  {
    var p := s.tasks[i].p;
    if late then
      if p.tx !in s.payments || fails then Put(s, i, Done(p))
      else
        Put(Log(s, Restart(p.tx)), i, RetryEvent(p, 1)).(
          payments := s.payments[p.tx := s.payments[p.tx].(status := PaymentRetrying, retryCount := 1)])
    else if p.tx in s.payments || fails then Put(s, i, Done(p))
    else Put(s, i, Executing(p, 0)).(payments := s.payments[p.tx := PaymentRow(p.user, p.seat, PaymentPending, 0)])
  }

  /** One run of executePayment up to the commit of the deduction. */
  function HandleExecuting(s: State, i: nat, fails: bool): State
    requires i < |s.tasks| && s.tasks[i].Executing?
  {
    var p := s.tasks[i].p;
    var k := s.tasks[i].attempt;
    var r := P.UseTx(s.points, p.user, p.amount, Some(p.tx));
    var s := Log(s, Attempt(p.tx));
    if fails || r.Failure? then Put(s, i, AttemptFailed(p, k)) else Put(s, i, Paid(p, k)).(points := r.value)
  }

  /** The rest of executePayment: release the lock, delete the token, publish. */
  function HandlePaid(s: State, i: nat, late: bool): State
    requires i < |s.tasks| && s.tasks[i].Paid?
  {
    var p := s.tasks[i].p;
    if late then Put(Log(s, Lost(p.tx, p.amount)), i, AttemptFailed(p, s.tasks[i].attempt))
    else Put(s, i, SuccessEvent(p)).(tokens := s.tokens - {p.token})
  }

  /** The catch blocks of payment.try and payment.retry. payment.failure has no consumer. */
  function HandleAttemptFailed(s: State, i: nat, fails: bool): State
    requires i < |s.tasks| && s.tasks[i].AttemptFailed?
  {
    var p := s.tasks[i].p;
    var k := s.tasks[i].attempt;
    if fails || p.tx !in s.payments then Put(s, i, Done(p))
    else if k < MAX_RETRY then
      Put(s, i, RetryEvent(p, k + 1)).(
        payments := s.payments[p.tx := s.payments[p.tx].(status := PaymentRetrying, retryCount := k + 1)])
    else Put(SetStatus(s, p.tx, PaymentFailure), i, Done(p))
  }

  function HandleRetry(s: State, i: nat): State
    requires i < |s.tasks| && s.tasks[i].RetryEvent?
  {
    var p := s.tasks[i].p;
    var k := s.tasks[i].attempt;
    Put(Log(s, Backoff(p.tx, if k >= 1 then Delay(k) else 0)), i, Executing(p, k))
  }

  /** confirmReservation: `late` is updateRanking throwing after the commit. */
  function HandleSuccess(s: State, i: nat, fails: bool, late: bool, now: int): State
    requires i < |s.tasks| && s.tasks[i].SuccessEvent?
  {
    var p := s.tasks[i].p;
    var r := B.Confirm(s.booking, p.reservation, Stamp(now, p.tx));
    if fails || r.Failure? then Put(s, i, ReservationFailureEvent(p))
    else if late then Put(Log(s, Gifted(p.tx, p.amount)), i, ReservationFailureEvent(p)).(booking := r.value)
    else Put(s, i, Done(p)).(booking := r.value)
  }

  function HandleReservationFailure(s: State, i: nat, fails: bool): State
    requires i < |s.tasks| && s.tasks[i].ReservationFailureEvent?
  {
    var p := s.tasks[i].p;
    if fails || p.tx !in s.payments then Put(Log(s, Unreturned(p.tx, p.amount)), i, Done(p))
    else Put(SetStatus(s, p.tx, PaymentCancel), i, CancelEvent(p))
  }

  function HandleCancel(s: State, i: nat, fails: bool): State
    requires i < |s.tasks| && s.tasks[i].CancelEvent?
  {
    var p := s.tasks[i].p;
    var r := P.RefundTx(s.points, p.user, p.amount, Some(p.tx));
    if fails || r.Failure? then Put(Log(s, Unreturned(p.tx, p.amount)), i, Done(p))
    else Put(s, i, Done(p)).(points := r.value)
  }

  function HandleTask(s: State, i: nat, fails: bool, late: bool, now: int): State
    requires i < |s.tasks|
  {
    match s.tasks[i]
    case TryEvent(_) => HandleTry(s, i, fails, late)
    case Executing(_, _) => HandleExecuting(s, i, fails)
    case Paid(_, _) => HandlePaid(s, i, late)
    case AttemptFailed(_, _) => HandleAttemptFailed(s, i, fails)
    case RetryEvent(_, _) => HandleRetry(s, i)
    case SuccessEvent(_) => HandleSuccess(s, i, fails, late, now)
    case ReservationFailureEvent(_) => HandleReservationFailure(s, i, fails)
    case CancelEvent(_) => HandleCancel(s, i, fails)
    case Done(_) => s
  }

  function HandleCharge(s: State, user: int, amount: int, gap: int, fails: bool): State {
    var r := P.ChargeTx(s.points, user, amount, gap);
    if fails || r.Failure? then s else Log(s, Stale(user, gap)).(points := r.value)
  }

  function PerformPoints(s: State, op: P.Op, fails: bool): State {
    var r := P.Perform(s.points, op);
    if fails || r.Failure? then s else s.(points := r.value)
  }

  /** processPaymentAndReservation: the token must be the caller's, the reservation
      must exist; its status and owner, and the token's seat, are not looked at. */
  function HandleRequest(s: State, user: int, reservation: nat, token: Token, tx: TxId): State {
    if token in s.tokens && s.tokens[token].user == user && reservation < |s.booking.reservations| then
      var r := s.booking.reservations[reservation];
      s.(tasks := s.tasks + [TryEvent(Payload(reservation, user, r.seat, r.price, tx, token))])
    else s
  }

  /** temporaryReserve: errors after the commit leave the reservation without a
      token, or without an expiry job. */
  function HandleReserve(s: State, user: int, seat: int, token: Token, fails: bool,
                         tokenIssued: bool, jobQueued: bool): State
  {
    var r := B.Reserve(s.booking, user, seat);
    if fails || r.Failure? then s
    else s.(booking := r.value,
            tokens := if tokenIssued then s.tokens[token := Claim(user, seat, |s.booking.reservations|)] else s.tokens,
            jobs := if tokenIssued && jobQueued then s.jobs + {(|s.booking.reservations|, seat)} else s.jobs)
  }

  predicate Fresh(s: State, tx: TxId) {
    forall i :: 0 <= i < |s.tasks| ==> s.tasks[i].p.tx != tx
  }

  function Next(s: State, a: Action): State {
    match a
    case Charge(user, amount, gap, fails) => HandleCharge(s, user, amount, gap, fails)
    case Spend(user, amount, fails) => PerformPoints(s, P.UseOp(user, amount, None), fails)
    case Reserve(user, seat, token, fails, issued, queued) => HandleReserve(s, user, seat, token, fails, issued, queued)
    case Request(user, reservation, token, tx) =>
      if Fresh(s, tx) then HandleRequest(s, user, reservation, token, tx) else s
    case Redeliver(i) => if i < |s.tasks| then s.(tasks := s.tasks + [TryEvent(s.tasks[i].p)]) else s
    case Handle(i, fails, late, now) => if i < |s.tasks| then HandleTask(s, i, fails, late, now) else s
    case Expire(id, seat, fails) =>
      var r := B.Expire(s.booking, id, seat);
      if (id, seat) !in s.jobs || fails || r.Failure? then s else s.(booking := r.value)
    case ForgetToken(token) => s.(tokens := s.tokens - {token})
  }

  function Run(s: State, actions: seq<Action>): State {
    if actions == [] then s else Next(Run(s, actions[..|actions| - 1]), actions[|actions| - 1])
  }

  predicate Quiescent(s: State) {
    forall i :: 0 <= i < |s.tasks| ==> s.tasks[i].Done?
  }

  /** Deducted, and neither confirmed nor refunded yet. */
  predicate Holding(t: Task) {
    t.Paid? || t.SuccessEvent? || t.ReservationFailureEvent? || t.CancelEvent?
  }

  /** Past the duplicate check of payment.try, and not finished. */
  predicate Live(t: Task) {
    !t.TryEvent? && !t.Done?
  }
}

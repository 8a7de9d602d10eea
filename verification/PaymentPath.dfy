/** One payment from its request to its end, nothing failing and nobody in between. */
module PaymentPath {
  import opened Tables
  import opened Saga
  import opened Payments
  import B = Booking

  const FINE := Env(false, false, true, false, false, false, false)

  /** The consumers' runs for payment.try and the retries that follow. */
  function Paying(s: State, i: nat, retries: nat): State
    requires i < |s.tasks| && s.tasks[i].TryEvent?
    ensures |Paying(s, i, retries).tasks| == |s.tasks|
  {
    if retries == 0 then
      TryRunOutcome(s, i, FINE);
      TryRun(s, i, FINE)
    else
      var before := Paying(s, i, retries - 1);
      if before.tasks[i].RetryEvent? then
        RetryRunOutcome(before, i, FINE);
        RetryRun(before, i, FINE)
      else before
  }

  /** payment.success, and reservation.failure and payment.cancel if it comes to that. */
  function Settling(s: State, i: nat, now: int): State
    requires i < |s.tasks|
  {
    if !s.tasks[i].SuccessEvent? then s
    else
      var confirmed := HandleSuccess(s, i, false, false, now);
      if confirmed.tasks[i].Done? then confirmed
      else
        var marked := HandleReservationFailure(confirmed, i, false);
        if marked.tasks[i].CancelEvent? then HandleCancel(marked, i, false) else marked
  }

  function Alone(s: State, i: nat, now: int): State
    requires i < |s.tasks| && s.tasks[i].TryEvent?
  {
    Settling(Paying(s, i, 3), i, now)
  }

  function Deduction(p: Payload): HistoryRow {
    HistoryRow(p.user, HistoryKind.Use, p.amount, Some(p.tx))
  }

  function Refunding(p: Payload): HistoryRow {
    HistoryRow(p.user, HistoryKind.Refund, p.amount, Some(p.tx))
  }

  /** The payer can pay: payment.success after the first attempt. */
  lemma AffordablePays(s: State, i: nat, retries: nat)
    requires i < |s.tasks| && s.tasks[i].TryEvent? && s.tasks[i].p.tx !in s.payments && Affordable(s, s.tasks[i].p)
    ensures var p, s' := s.tasks[i].p, Paying(s, i, retries);
            && s'.tasks == s.tasks[i := SuccessEvent(p)]
            && s'.payments == s.payments[p.tx := PaymentRow(p.user, p.seat, PaymentPending, 0)]
            && Attempted(s, s', p, FINE)
  {
    TryRunOutcome(s, i, FINE);
    if retries > 0 {
      AffordablePays(s, i, retries - 1);
    }
  }

  /** Nothing has changed but the slot and the payment's row. */
  ghost predicate OnlyRow(s: State, s': State, i: nat, t: Task, row: PaymentRow)
    requires i < |s.tasks|
  {
    && s'.tasks == s.tasks[i := t] && s'.payments == s.payments[s.tasks[i].p.tx := row]
    && s'.points == s.points && s'.tokens == s.tokens && s'.booking == s.booking && s'.jobs == s.jobs
  }

  function SlotAfter(p: Payload, retries: nat): Task {
    if retries < 3 then RetryEvent(p, retries + 1) else Done(p)
  }

  function RowAfter(p: Payload, retries: nat): PaymentRow {
    if retries < 3 then PaymentRow(p.user, p.seat, PaymentRetrying, retries + 1)
    else PaymentRow(p.user, p.seat, PaymentFailure, 3)
  }

  lemma RefusedAgain(s: State, before: State, i: nat, retries: nat)
    requires i < |s.tasks| && !Affordable(s, s.tasks[i].p) && 1 <= retries <= 3
    requires OnlyRow(s, before, i, SlotAfter(s.tasks[i].p, retries - 1), RowAfter(s.tasks[i].p, retries - 1))
    ensures OnlyRow(s, RetryRun(before, i, FINE), i, SlotAfter(s.tasks[i].p, retries), RowAfter(s.tasks[i].p, retries))
  {
    RetryRunOutcome(before, i, FINE);
  }

  /** The payer cannot: retry after retry, then FAILURE, and nothing is deducted. */
  lemma {:induction false} UnaffordableRetries(s: State, i: nat, retries: nat)
    requires i < |s.tasks| && s.tasks[i].TryEvent? && s.tasks[i].p.tx !in s.payments && !Affordable(s, s.tasks[i].p)
    requires retries <= 3
    ensures OnlyRow(s, Paying(s, i, retries), i, SlotAfter(s.tasks[i].p, retries), RowAfter(s.tasks[i].p, retries))
  {
    if retries == 0 {
      TryRunOutcome(s, i, FINE);
    } else {
      UnaffordableRetries(s, i, retries - 1);
      RefusedAgain(s, Paying(s, i, retries - 1), i, retries);
    }
  }

  /** How an undisturbed payment ends. */
  datatype End = Confirms | Cancels | Fails

  function EndOf(s: State, p: Payload): End
    requires p.reservation < |s.booking.reservations|
  {
    if !Affordable(s, p) then Fails
    else if s.booking.reservations[p.reservation].status == Pending then Confirms
    else Cancels
  }

  ghost predicate EndsConfirmed(s: State, s': State, p: Payload, now: int) {
    && p.reservation < |s.booking.reservations|
    && Attempted(s.(booking := s'.booking), s', p, FINE)
    && B.Settled(s.booking, s'.booking, p.reservation, s.booking.reservations[p.reservation].seat,
                 Confirmed, Some(Stamp(now, p.tx)), Sold)
    && s'.payments == s.payments[p.tx := PaymentRow(p.user, p.seat, PaymentPending, 0)]
  }

  ghost predicate EndsCancelled(s: State, s': State, p: Payload) {
    && s'.booking == s.booking && s'.tokens == s.tokens - {p.token} && s'.jobs == s.jobs
    && s'.points.balances == s.points.balances
    && s'.points.history == s.points.history + [Deduction(p)] + [Refunding(p)]
    && s'.payments == s.payments[p.tx := PaymentRow(p.user, p.seat, PaymentCancel, 0)]
  }

  /** The saga from payment.success on. */
  lemma SettlingEnds(s: State, i: nat, now: int)
    requires B.Agreement(s.booking) && i < |s.tasks| && s.tasks[i].SuccessEvent? && s.tasks[i].p.tx in s.payments
    requires s.tasks[i].p.reservation < |s.booking.reservations| && s.tasks[i].p.user in s.points.balances
    ensures var p, s' := s.tasks[i].p, Settling(s, i, now);
            && s'.tasks == s.tasks[i := Done(p)] && s'.jobs == s.jobs && s'.tokens == s.tokens
            && if s.booking.reservations[p.reservation].status == Pending then
                 && B.Settled(s.booking, s'.booking, p.reservation, s.booking.reservations[p.reservation].seat,
                              Confirmed, Some(Stamp(now, p.tx)), Sold)
                 && s'.points == s.points && s'.payments == s.payments
               else
                 && s'.booking == s.booking
                 && s'.points.balances == s.points.balances[p.user := s.points.balances[p.user] + p.amount]
                 && s'.points.history == s.points.history + [Refunding(p)]
                 && s'.payments == s.payments[p.tx := s.payments[p.tx].(status := PaymentCancel)]
  {
    var op := B.ConfirmOp(s.tasks[i].p.reservation, Stamp(now, s.tasks[i].p.tx));
    B.CommitsExactlyWhen(s.booking, op);
    B.CommitWritesExactly(s.booking, op);
  }

  lemma AffordableEnds(s: State, i: nat, now: int)
    requires B.Agreement(s.booking) && i < |s.tasks| && s.tasks[i].TryEvent? && s.tasks[i].p.tx !in s.payments
    requires s.tasks[i].p.reservation < |s.booking.reservations| && Affordable(s, s.tasks[i].p)
    ensures var p, s' := s.tasks[i].p, Alone(s, i, now);
            && s'.tasks == s.tasks[i := Done(p)]
            && if s.booking.reservations[p.reservation].status == Pending then EndsConfirmed(s, s', p, now)
               else EndsCancelled(s, s', p)
  {
    var p := s.tasks[i].p;
    AffordablePays(s, i, 3);
    SettlingEnds(Paying(s, i, 3), i, now);
    var balances := s.points.balances;
    assert balances[p.user := balances[p.user] - p.amount][p.user := balances[p.user]] == balances;
  }

  /** Exactly one of three ends, and which one shows beforehand: the payer can afford it
      and the reservation is PENDING, and it is CONFIRMED and its seat SOLD for one deduction
      and the token; or the reservation is not PENDING any more, and the payment is CANCEL
      and every balance as before; or the payer cannot, and it is FAILURE after three
      retries and nothing has changed. */
  lemma UndisturbedPayment(s: State, i: nat, now: int)
    requires B.Agreement(s.booking) && i < |s.tasks| && s.tasks[i].TryEvent? && s.tasks[i].p.tx !in s.payments
    requires s.tasks[i].p.reservation < |s.booking.reservations|
    ensures var p, s' := s.tasks[i].p, Alone(s, i, now);
            && s'.tasks == s.tasks[i := Done(p)]
            && match EndOf(s, p)
               case Confirms => EndsConfirmed(s, s', p, now)
               case Cancels => EndsCancelled(s, s', p)
               case Fails => OnlyRow(s, s', i, Done(p), PaymentRow(p.user, p.seat, PaymentFailure, 3))
  {
    if Affordable(s, s.tasks[i].p) {
      AffordableEnds(s, i, now);
    } else {
      UnaffordableRetries(s, i, 3);
    }
  }
}

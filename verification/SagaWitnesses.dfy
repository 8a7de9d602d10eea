/** Runs of the saga that go wrong, one for each kind of fault the theorems count or
    exclude, and the bounds that are reached. */
module SagaWitnesses {
  import opened Tables
  import opened Sums
  import opened Saga
  import opened SagaInvariant
  import opened SagaMoney
  import opened SagaBounds
  import opened SagaOutcome
  import opened SagaFaults
  import P = Points
  import B = Booking

  // ---------- single steps without a fault that matters ----------

  lemma Try(s: State, i: nat)
    requires BenignlyReachable(s) && i < |s.tasks| && s.tasks[i].TryEvent?
    ensures BenignlyReachable(HandleTry(s, i, false, false))
  {
    BenignHandle(s, i, false, false);
  }

  lemma Deduct(s: State, i: nat)
    requires BenignlyReachable(s) && i < |s.tasks| && s.tasks[i].Executing?
    ensures BenignlyReachable(HandleExecuting(s, i, false))
  {
    BenignHandle(s, i, false, false);
  }

  lemma FailDeduction(s: State, i: nat)
    requires BenignlyReachable(s) && i < |s.tasks| && s.tasks[i].Executing?
    ensures BenignlyReachable(HandleExecuting(s, i, true))
  {
    BenignHandle(s, i, true, false);
  }

  lemma Publish(s: State, i: nat)
    requires BenignlyReachable(s) && i < |s.tasks| && s.tasks[i].Paid?
    ensures BenignlyReachable(HandlePaid(s, i, false))
  {
    BenignHandle(s, i, false, false);
  }

  lemma Mark(s: State, i: nat)
    requires BenignlyReachable(s) && i < |s.tasks| && s.tasks[i].AttemptFailed?
    ensures BenignlyReachable(HandleAttemptFailed(s, i, false))
  {
    BenignHandle(s, i, false, false);
  }

  lemma Retry(s: State, i: nat)
    requires BenignlyReachable(s) && i < |s.tasks| && s.tasks[i].RetryEvent?
    ensures BenignlyReachable(HandleRetry(s, i))
  {
    BenignHandle(s, i, false, false);
  }

  lemma Confirm(s: State, i: nat)
    requires BenignlyReachable(s) && i < |s.tasks| && s.tasks[i].SuccessEvent?
    ensures BenignlyReachable(HandleSuccess(s, i, false, false, 0))
  {
    BenignHandle(s, i, false, false);
  }

  lemma Compensate(s: State, i: nat)
    requires BenignlyReachable(s) && i < |s.tasks| && s.tasks[i].ReservationFailureEvent?
    ensures BenignlyReachable(HandleReservationFailure(s, i, false))
  {
    BenignHandle(s, i, false, false);
  }

  lemma Return(s: State, i: nat)
    requires BenignlyReachable(s) && i < |s.tasks| && s.tasks[i].CancelEvent?
    ensures BenignlyReachable(HandleCancel(s, i, false))
  {
    BenignHandle(s, i, false, false);
  }

  // ---------- one payment on its way ----------

  const SEATS := map[10 := SeatRow(1, 30, Available), 11 := SeatRow(1, 30, Available)]
  const PAYMENT := Payload(0, 1, 10, 30, "x", "a")

  /** User 1 has charged c, reserved seat 10 for 30 and requested the payment. */
  function Requested(c: int): State {
    State(P.Store(map[1 := c], [HistoryRow(1, HistoryKind.Charge, c, None)]),
          B.Store(SEATS[10 := SeatRow(1, 30, Reserved)], [ReservationRow(1, 10, 30, Pending, None)]),
          map[], map["a" := Claim(1, 10, 0)], {(0, 10)}, [TryEvent(PAYMENT)], [Stale(1, 0)])
  }

  lemma ReservedIsReachable(c: int)
    requires c <= P.MAX_CHARGE_AMOUNT
    ensures BenignlyReachable(Requested(c).(tasks := []))
  {
    InitialIsBenignlyReachable(SEATS);
    BenignStep(Initial(SEATS), Action.Charge(1, c, 0, false));
    var charged := HandleCharge(Initial(SEATS), 1, c, 0, false);
    BenignStep(charged, Reserve(1, 10, "a", false, true, true));
    assert HandleReserve(charged, 1, 10, "a", false, true, true) == Requested(c).(tasks := []) by {
      assert charged.points == Requested(c).points && charged.audit == [Stale(1, 0)];
    }
  }

  lemma RequestedIsReachable(c: int)
    requires c <= P.MAX_CHARGE_AMOUNT
    ensures BenignlyReachable(Requested(c))
  {
    ReservedIsReachable(c);
    BenignStep(Requested(c).(tasks := []), Request(1, 0, "a", "x"));
    assert HandleRequest(Requested(c).(tasks := []), 1, 0, "a", "x") == Requested(c);
  }

  /** The deduction has just been committed. */
  function Deducted(c: int): State {
    Requested(c).(points := P.Record(Requested(c).points, 1, c - 30, HistoryRow(1, Use, 30, Some("x"))),
                  payments := map["x" := PaymentRow(1, 10, PaymentPending, 0)],
                  tasks := [Paid(PAYMENT, 0)], audit := [Stale(1, 0), Attempt("x")])
  }

  lemma DeductedInTwoSteps(c: int)
    requires 30 <= c
    ensures var s := HandleTry(Requested(c), 0, false, false);
            s.tasks == [Executing(PAYMENT, 0)] && HandleExecuting(s, 0, false) == Deducted(c)
  {
  }

  lemma DeductedIsReachable(c: int)
    requires 30 <= c <= P.MAX_CHARGE_AMOUNT
    ensures BenignlyReachable(Deducted(c))
  {
    RequestedIsReachable(c);
    DeductedInTwoSteps(c);
    Try(Requested(c), 0);
    Deduct(HandleTry(Requested(c), 0, false, false), 0);
  }

  /** payment.success has been published. */
  function Succeeded(c: int): State {
    Deducted(c).(tokens := map[], tasks := [SuccessEvent(PAYMENT)])
  }

  lemma SucceededIsReachable(c: int)
    requires 30 <= c <= P.MAX_CHARGE_AMOUNT
    ensures BenignlyReachable(Succeeded(c))
  {
    DeductedIsReachable(c);
    Publish(Deducted(c), 0);
    assert HandlePaid(Deducted(c), 0, false) == Succeeded(c);
  }

  /** Net of the one deduction in the history of Deducted and Succeeded. */
  lemma DeductedOnce(c: int)
    ensures Net(Deducted(c), "x") == 1
  {
    var charge, spend := HistoryRow(1, HistoryKind.Charge, c, None), HistoryRow(1, Use, 30, Some("x"));
    SumAppend([], charge, NetUse(One("x")));
    SumAppend([charge], spend, NetUse(One("x")));
    assert [] + [charge] == [charge];
  }

  // ---------- errors after a commit ----------

  lemma StepOn(s: State, i: nat, fails: bool, late: bool)
    requires Reachable(s) && i < |s.tasks|
    ensures Reachable(HandleTask(s, i, fails, late, 0))
  {
    Step(s, Handle(i, fails, late, 0));
  }

  /** Loses a deduction, is marked and retried, and deducts again. */
  lemma LosingSteps(s: State)
    requires Reachable(s) && |s.tasks| == 1 && s.tasks[0].Paid? && s.tasks[0].attempt < MAX_RETRY
    requires s.tasks[0].p.tx in s.payments
    ensures Reachable(HandleExecuting(HandleRetry(HandleAttemptFailed(HandlePaid(s, 0, true), 0, false), 0), 0, false))
  {
    StepOn(s, 0, false, true);
    var s1 := HandlePaid(s, 0, true);
    StepOn(s1, 0, false, false);
    var s2 := HandleAttemptFailed(s1, 0, false);
    StepOn(s2, 0, false, false);
    StepOn(HandleRetry(s2, 0), 0, false, false);
  }

  /** One error after the deduction's commit, everything else going well: the payment is
      deducted twice. */
  lemma LostPaymentRun(c: int) returns (s: State)
    requires 60 <= c <= P.MAX_CHARGE_AMOUNT
    ensures Reachable(s) && |s.tasks| == 1 && s.tasks[0].Paid? && s.tasks[0].p == PAYMENT
    ensures Net(s, "x") == 2 && 1 in s.points.balances && s.points.balances[1] == c - 60
  {
    DeductedIsReachable(c);
    BenignlyReachableIsClean(Deducted(c));
    LosingSteps(Deducted(c));
    DeductedOnce(c);
    LostPaymentIsChargedAgain(Deducted(c), 0);
    s := HandleExecuting(HandleRetry(HandleAttemptFailed(HandlePaid(Deducted(c), 0, true), 0, false), 0), 0, false);
  }

  /** Confirms, fails afterwards, and is compensated. */
  lemma GivingSteps(s: State)
    requires Reachable(s) && |s.tasks| == 1 && s.tasks[0].SuccessEvent? && s.tasks[0].p.tx in s.payments
    requires B.Confirm(s.booking, s.tasks[0].p.reservation, Stamp(0, s.tasks[0].p.tx)).Success?
    ensures Reachable(HandleCancel(HandleReservationFailure(HandleSuccess(s, 0, false, true, 0), 0, false), 0, false))
  {
    StepOn(s, 0, false, true);
    CompensatingSteps(HandleSuccess(s, 0, false, true, 0));
  }

  lemma CompensatingSteps(s: State)
    requires Reachable(s) && |s.tasks| == 1 && s.tasks[0].ReservationFailureEvent? && s.tasks[0].p.tx in s.payments
    ensures Reachable(HandleCancel(HandleReservationFailure(s, 0, false), 0, false))
  {
    StepOn(s, 0, false, false);
    StepOn(HandleReservationFailure(s, 0, false), 0, false, false);
  }

  /** One error after the confirmation's commit: the reservation stays CONFIRMED and its
      price is back in the payer's balance. */
  lemma GiftedReservationRun(c: int) returns (s: State)
    requires 30 <= c <= P.MAX_CHARGE_AMOUNT
    ensures Reachable(s) && Quiescent(s) && |s.booking.reservations| == 1
    ensures s.booking.reservations[0].status == Confirmed && 1 in s.points.balances && s.points.balances[1] == c
  {
    SucceededIsReachable(c);
    BenignlyReachableIsClean(Succeeded(c));
    GivingSteps(Succeeded(c));
    GiftedReservationIsRefunded(Succeeded(c), 0);
    s := HandleCancel(HandleReservationFailure(HandleSuccess(Succeeded(c), 0, false, true, 0), 0, false), 0, false);
  }

  /** A failed confirmation whose compensation fails as well, in marking the row or in
      refunding: the error is logged and swallowed, nothing is in flight any more, the
      reservation is not confirmed, and the payer's money is gone. */
  lemma UnreturnedPaymentRun(c: int, marked: bool) returns (s: State)
    requires 30 <= c <= P.MAX_CHARGE_AMOUNT
    ensures Reachable(s) && Quiescent(s) && s.tasks == [Done(PAYMENT)]
    ensures !PaidFor(s, PAYMENT) && Net(s, "x") == 1 && P.BalanceOf(s.points, 1) == c - 30
  {
    SucceededIsReachable(c);
    BenignlyReachableIsClean(Succeeded(c));
    DeductedOnce(c);
    var s1 := Next(Succeeded(c), Handle(0, true, false, 0));
    Step(Succeeded(c), Handle(0, true, false, 0));
    assert s1 == Succeeded(c).(tasks := [ReservationFailureEvent(PAYMENT)]);
    s := Next(s1, Handle(0, !marked, false, 0));
    Step(s1, Handle(0, !marked, false, 0));
    if marked {
      assert s.tasks == [CancelEvent(PAYMENT)];
      Step(s, Handle(0, true, false, 0));
      s := Next(s, Handle(0, true, false, 0));
    }
  }

  lemma TwoCharges(gap: int) returns (s: State)
    ensures Reachable(s) && s.audit == [Stale(1, 0), Stale(1, gap)]
  {
    InitialIsBenignlyReachable(SEATS);
    BenignlyReachableIsClean(Initial(SEATS));
    Step(Initial(SEATS), Action.Charge(1, 100, 0, false));
    var s1 := Next(Initial(SEATS), Action.Charge(1, 100, 0, false));
    assert s1.audit == [Stale(1, 0)];
    Step(s1, Action.Charge(1, 50, gap, false));
    s := Next(s1, Action.Charge(1, 50, gap, false));
  }

  lemma GapsOfTwoCharges(audit: seq<Audit>, gap: int)
    requires audit == [Stale(1, 0), Stale(1, gap)]
    ensures Sum(audit, StaleFor(1)) == gap
  {
    assert audit == [] + [Stale(1, 0)] + [Stale(1, gap)];
    SumAppend([], Stale(1, 0), StaleFor(1));
    SumAppend([] + [Stale(1, 0)], Stale(1, gap), StaleFor(1));
  }

  /** One charge that overwrites a balance it has not read: the ledger no longer holds.
      PointRuns has the statements that lead to such a gap. */
  lemma StaleChargeRun(gap: int) returns (s: State)
    requires gap != 0
    ensures Reachable(s) && s.audit == [Stale(1, 0), Stale(1, gap)]
    ensures P.Drift(s.points, 1) == gap && !P.Ledger(s.points)
  {
    s := TwoCharges(gap);
    GapsOfTwoCharges(s.audit, gap);
    LedgerHoldsExactlyWhen(s);
  }

  // ---------- failed duplicate checks ----------

  /** What a failed deduction, marked by the catch block, leaves. */
  predicate FailedAndMarked(s: State, i: nat, t: State)
    requires i < |s.tasks| && s.tasks[i].Executing?
  {
    var p, k := s.tasks[i].p, s.tasks[i].attempt;
    && t.tasks == s.tasks[i := if k < MAX_RETRY then RetryEvent(p, k + 1) else Done(p)]
    && t.audit == s.audit + [Attempt(p.tx)]
    && t.points == s.points && t.booking == s.booking && p.tx in t.payments
    && t.payments[p.tx].status == (if k < MAX_RETRY then PaymentRetrying else PaymentFailure)
  }

  lemma FailingMarks(s: State, i: nat)
    requires i < |s.tasks| && s.tasks[i].Executing? && s.tasks[i].p.tx in s.payments
    ensures var s1 := HandleExecuting(s, i, true);
            && |s1.tasks| == |s.tasks| && s1.tasks[i].AttemptFailed?
            && FailedAndMarked(s, i, HandleAttemptFailed(s1, i, false))
  {
  }

  lemma FailAndMark(s: State, i: nat) returns (t: State)
    requires BenignlyReachable(s) && i < |s.tasks| && s.tasks[i].Executing? && s.tasks[i].p.tx in s.payments
    ensures FailedAndMarked(s, i, t) && BenignlyReachable(t)
  {
    FailingMarks(s, i);
    FailDeduction(s, i);
    Mark(HandleExecuting(s, i, true), i);
    t := HandleAttemptFailed(HandleExecuting(s, i, true), i, false);
  }

  /** What a retry whose deduction fails leaves. */
  predicate FailedRetry(s: State, i: nat, t: State)
    requires i < |s.tasks| && s.tasks[i].RetryEvent? && 1 <= s.tasks[i].attempt
  {
    var p, k := s.tasks[i].p, s.tasks[i].attempt;
    && t.tasks == s.tasks[i := if k < MAX_RETRY then RetryEvent(p, k + 1) else Done(p)]
    && t.audit == s.audit + [Backoff(p.tx, Delay(k))] + [Attempt(p.tx)]
    && t.points == s.points && t.booking == s.booking && p.tx in t.payments
    && t.payments[p.tx].status == (if k < MAX_RETRY then PaymentRetrying else PaymentFailure)
  }

  lemma RetryThenFail(s: State, i: nat, t: State)
    requires i < |s.tasks| && s.tasks[i].RetryEvent? && 1 <= s.tasks[i].attempt
    requires FailedAndMarked(HandleRetry(s, i), i, t)
    ensures FailedRetry(s, i, t)
  {
  }

  lemma FailOnce(s: State, i: nat) returns (t: State)
    requires BenignlyReachable(s) && i < |s.tasks| && s.tasks[i].RetryEvent? && 1 <= s.tasks[i].attempt
    requires s.tasks[i].p.tx in s.payments
    ensures FailedRetry(s, i, t) && BenignlyReachable(t)
  {
    Retry(s, i);
    t := FailAndMark(HandleRetry(s, i), i);
    RetryThenFail(s, i, t);
  }

  lemma FailOnceCounts(s: State, t: State, tx: TxId, ms: nat)
    requires t.audit == s.audit + [Backoff(tx, ms)] + [Attempt(tx)]
    ensures Sum(t.audit, IsAttempt(tx)) == Sum(s.audit, IsAttempt(tx)) + 1
    ensures Sum(t.audit, IsRestart(tx)) == Sum(s.audit, IsRestart(tx))
    ensures Sum(t.audit, WaitFor(tx)) == Sum(s.audit, WaitFor(tx)) + ms
  {
    SumAppend(s.audit, Backoff(tx, ms), IsAttempt(tx));
    SumAppend(s.audit, Backoff(tx, ms), IsRestart(tx));
    SumAppend(s.audit, Backoff(tx, ms), WaitFor(tx));
    SumAppend(s.audit + [Backoff(tx, ms)], Attempt(tx), IsAttempt(tx));
    SumAppend(s.audit + [Backoff(tx, ms)], Attempt(tx), IsRestart(tx));
    SumAppend(s.audit + [Backoff(tx, ms)], Attempt(tx), WaitFor(tx));
  }

  /** All three retries fail: FAILURE after three more attempts. */
  lemma FailThrice(s: State, i: nat) returns (t: State)
    requires BenignlyReachable(s) && i < |s.tasks| && s.tasks[i].RetryEvent? && s.tasks[i].attempt == 1
    requires s.tasks[i].p.tx in s.payments
    ensures var tx := s.tasks[i].p.tx;
            && t.tasks == s.tasks[i := Done(s.tasks[i].p)] && t.points == s.points && t.booking == s.booking
            && tx in t.payments && t.payments[tx].status == PaymentFailure
            && Sum(t.audit, IsAttempt(tx)) == Sum(s.audit, IsAttempt(tx)) + 3
            && Sum(t.audit, IsRestart(tx)) == Sum(s.audit, IsRestart(tx))
            && Sum(t.audit, WaitFor(tx)) == Sum(s.audit, WaitFor(tx)) + 7000
    ensures BenignlyReachable(t)
  {
    var tx := s.tasks[i].p.tx;
    assert Delay(1) == 1000 && Delay(2) == 2000 && Delay(3) == 4000 by {
      WaitedByIsWaitedAfter(3);
    }
    var s1 := FailOnce(s, i);
    FailOnceCounts(s, s1, tx, Delay(1));
    var s2 := FailOnce(s1, i);
    FailOnceCounts(s1, s2, tx, Delay(2));
    t := FailOnce(s2, i);
    FailOnceCounts(s2, t, tx, Delay(3));
  }

  /** A redelivered payment.try whose duplicate check fails: the payment starts over. */
  lemma RestartLast(s: State) returns (t: State)
    requires BenignlyReachable(s) && s.tasks != [] && s.tasks[0].p.tx in s.payments
    ensures var p, n := s.tasks[0].p, |s.tasks|;
            && t.tasks == s.tasks + [RetryEvent(p, 1)] && t.audit == s.audit + [Restart(p.tx)]
            && t.points == s.points && t.booking == s.booking && p.tx in t.payments
    ensures BenignlyReachable(t)
  {
    var p, n := s.tasks[0].p, |s.tasks|;
    BenignStep(s, Redeliver(0));
    var s1 := Next(s, Redeliver(0));
    assert s1.tasks[n] == TryEvent(p);
    BenignHandle(s1, n, false, true);
    t := HandleTask(s1, n, false, true, 0);
    assert s1.tasks[n := RetryEvent(p, 1)] == s.tasks + [RetryEvent(p, 1)];
  }

  /** The bounds of SagaIsBounded on attempts and waiting are reached for every number of
      restarts. */
  lemma {:induction false} AttemptsBoundIsReached(r: nat) returns (s: State)
    ensures BenignlyReachable(s) && TallyOf(s, "x").restarts == r
    ensures TallyOf(s, "x").attempts == 4 + 3 * r && TallyOf(s, "x").waited == 7000 * (1 + r)
    ensures s.tasks != [] && s.tasks[0].p == PAYMENT && "x" in s.payments
    decreases r
  {
    if r == 0 {
      s := FirstAttemptFails();
      s := FailThrice(s, 0);
    } else {
      var before := AttemptsBoundIsReached(r - 1);
      var restarted := RestartLast(before);
      SumAppend(before.audit, Restart("x"), IsAttempt("x"));
      SumAppend(before.audit, Restart("x"), IsRestart("x"));
      SumAppend(before.audit, Restart("x"), WaitFor("x"));
      s := FailThrice(restarted, |before.tasks|);
    }
  }

  lemma FirstAttemptFails() returns (s: State)
    ensures BenignlyReachable(s) && s.tasks == [RetryEvent(PAYMENT, 1)] && "x" in s.payments
    ensures TallyOf(s, "x").restarts == 0 && TallyOf(s, "x").attempts == 1 && TallyOf(s, "x").waited == 0
  {
    RequestedIsReachable(30);
    Try(Requested(30), 0);
    s := FailAndMark(HandleTry(Requested(30), 0, false, false), 0);
    CountFirstAttempt(s.audit);
  }

  lemma CountFirstAttempt(audit: seq<Audit>)
    requires audit == [Stale(1, 0), Attempt("x")]
    ensures Sum(audit, IsAttempt("x")) == 1 && Sum(audit, IsRestart("x")) == 0 && Sum(audit, WaitFor("x")) == 0
  {
    assert audit == [] + [Stale(1, 0)] + [Attempt("x")];
    SumAppend([], Stale(1, 0), IsAttempt("x"));
    SumAppend([], Stale(1, 0), IsRestart("x"));
    SumAppend([], Stale(1, 0), WaitFor("x"));
    SumAppend([] + [Stale(1, 0)], Attempt("x"), IsAttempt("x"));
    SumAppend([] + [Stale(1, 0)], Attempt("x"), IsRestart("x"));
    SumAppend([] + [Stale(1, 0)], Attempt("x"), WaitFor("x"));
  }

  // ---------- the bounds on live tasks and deductions ----------

  lemma RestartCounts(s: State, t: State, p: Payload)
    requires t.tasks == s.tasks + [RetryEvent(p, 1)] && t.audit == s.audit + [Restart(p.tx)] && t.points == s.points
    ensures TallyOf(t, p.tx).restarts == TallyOf(s, p.tx).restarts + 1
    ensures TallyOf(t, p.tx).uses == TallyOf(s, p.tx).uses
    ensures LiveTasks(t, p.tx) == LiveTasks(s, p.tx) + 1
  {
    SumAppend(s.audit, Restart(p.tx), IsRestart(p.tx));
    SumAppend(s.tasks, RetryEvent(p, 1), IsLiveOf(p.tx));
  }

  /** A payment restarted r times can have 1 + r messages in flight at once. */
  lemma {:induction false} LiveBoundIsReached(r: nat) returns (s: State)
    ensures BenignlyReachable(s) && TallyOf(s, "x").restarts == r && LiveTasks(s, "x") == 1 + r
    ensures s.tasks != [] && s.tasks[0].p == PAYMENT && "x" in s.payments
    decreases r
  {
    if r == 0 {
      s := FirstAttemptFails();
      assert s.tasks == [] + [RetryEvent(PAYMENT, 1)];
      SumAppend([], RetryEvent(PAYMENT, 1), IsLiveOf("x"));
    } else {
      var before := LiveBoundIsReached(r - 1);
      s := RestartLast(before);
      RestartCounts(before, s, PAYMENT);
    }
  }

  /** At most one message or handler run past payment.try, in every run with r restarts,
      if and only if r is 0. */
  lemma OneLiveTaskExactlyWhen(r: nat)
    ensures (forall s, tx :: Reachable(s) && TallyOf(s, tx).restarts == r ==> LiveTasks(s, tx) <= 1) <==> r == 0
  {
    if r == 0 {
      forall s, tx | Reachable(s) && TallyOf(s, tx).restarts == r ensures LiveTasks(s, tx) <= 1 {
        SagaIsBounded(s, tx);
      }
    } else {
      var s := LiveBoundIsReached(r);
      BenignlyReachableIsClean(s);
      assert TallyOf(s, "x").restarts == r;
    }
  }

  /** User 1 charges enough for one more deduction. */
  lemma ChargeMore(s: State) returns (t: State)
    requires BenignlyReachable(s) && 1 in s.points.balances && s.points.balances[1] >= 0
    ensures BenignlyReachable(t) && t.tasks == s.tasks && t.payments == s.payments
    ensures 1 in t.points.balances && t.points.balances[1] >= 30
    ensures TallyOf(t, "x") == TallyOf(s, "x")
  {
    BenignStep(s, Action.Charge(1, 30, 0, false));
    t := HandleCharge(s, 1, 30, 0, false);
    TallyShifts(s, t, Some(HistoryRow(1, HistoryKind.Charge, 30, None)), Some(Stale(1, 0)), "x");
  }

  lemma RetryDeducts(s: State, i: nat) returns (t: State)
    requires BenignlyReachable(s) && i < |s.tasks| && s.tasks[i] == RetryEvent(PAYMENT, 1)
    requires 1 in s.points.balances && s.points.balances[1] >= 30
    ensures BenignlyReachable(t) && |t.tasks| == |s.tasks| && (i > 0 ==> t.tasks[0] == s.tasks[0])
    ensures t.payments == s.payments && 1 in t.points.balances && t.points.balances[1] >= 0
    ensures TallyOf(t, "x").uses == TallyOf(s, "x").uses + 1 && TallyOf(t, "x").restarts == TallyOf(s, "x").restarts
  {
    Retry(s, i);
    var s1 := HandleRetry(s, i);
    TallyShifts(s, s1, None, Some(Backoff("x", Delay(1))), "x");
    Deduct(s1, i);
    t := HandleExecuting(s1, i, false);
    TallyShifts(s1, t, Some(HistoryRow(1, Use, 30, Some("x"))), Some(Attempt("x")), "x");
  }

  /** A payment restarted r times can be deducted 1 + r times, with no deduction lost. */
  lemma {:induction false} DeductionsBoundIsReached(r: nat) returns (s: State)
    ensures BenignlyReachable(s) && TallyOf(s, "x").restarts == r && TallyOf(s, "x").uses == 1 + r
    ensures s.tasks != [] && s.tasks[0].p == PAYMENT && "x" in s.payments
    ensures 1 in s.points.balances && s.points.balances[1] >= 0
    decreases r
  {
    if r == 0 {
      s := FirstDeduction();
    } else {
      var before := DeductionsBoundIsReached(r - 1);
      var charged := ChargeMore(before);
      var restarted := RestartLast(charged);
      RestartCounts(charged, restarted, PAYMENT);
      s := RetryDeducts(restarted, |before.tasks|);
    }
  }

  lemma FirstDeduction() returns (s: State)
    ensures BenignlyReachable(s) && TallyOf(s, "x").restarts == 0 && TallyOf(s, "x").uses == 1
    ensures s.tasks != [] && s.tasks[0].p == PAYMENT && "x" in s.payments
    ensures 1 in s.points.balances && s.points.balances[1] >= 0
  {
    DeductedIsReachable(30);
    s := Deducted(30);
    CountFirstAttempt(s.audit);
    var charge, spend := HistoryRow(1, HistoryKind.Charge, 30, None), HistoryRow(1, Use, 30, Some("x"));
    SumAppend([], charge, IsRow("x", Use));
    SumAppend([charge], spend, IsRow("x", Use));
    assert [] + [charge] == [charge];
  }

  /** At most one deduction, in every run under the fault model with r restarts, if and
      only if r is 0. */
  lemma OneDeductionExactlyWhen(r: nat)
    ensures (forall s, tx :: BenignlyReachable(s) && TallyOf(s, tx).restarts == r ==> TallyOf(s, tx).uses <= 1)
            <==> r == 0
  {
    if r == 0 {
      forall s, tx | BenignlyReachable(s) && TallyOf(s, tx).restarts == r ensures TallyOf(s, tx).uses <= 1 {
        DeductedAtMostOnce(s, tx);
      }
    } else {
      var s := DeductionsBoundIsReached(r);
      assert TallyOf(s, "x").uses > 1;
    }
  }

  // ---------- the status of a paid payment ----------

  /** Four attempts are enough in every run with r restarts if and only if r is 0. */
  lemma FourAttemptsExactlyWhen(r: nat)
    ensures (forall s, tx :: Reachable(s) && TallyOf(s, tx).restarts == r ==> TallyOf(s, tx).attempts <= 4)
            <==> r == 0
  {
    if r == 0 {
      forall s, tx | Reachable(s) && TallyOf(s, tx).restarts == r ensures TallyOf(s, tx).attempts <= 4 {
        SagaIsBounded(s, tx);
      }
    } else {
      var s := AttemptsBoundIsReached(r);
      BenignlyReachableIsClean(s);
      assert TallyOf(s, "x").attempts > 4;
    }
  }

  /** The payment has confirmed its reservation and nothing is in flight. */
  lemma ConfirmedRun(c: int) returns (s: State)
    requires 30 <= c <= P.MAX_CHARGE_AMOUNT
    ensures BenignlyReachable(s) && s.tasks == [Done(PAYMENT)] && s.points == Deducted(c).points && "x" in s.payments
    ensures s.booking.reservations == [ReservationRow(1, 10, 30, Confirmed, Some(Stamp(0, "x")))]
    ensures s.audit == [Stale(1, 0), Attempt("x")]
  {
    SucceededIsReachable(c);
    Confirm(Succeeded(c), 0);
    s := HandleSuccess(Succeeded(c), 0, false, false, 0);
  }

  /** A restart of a paid payment, all retries failing: its reservation is CONFIRMED and
      paid for once, and its row says FAILURE. */
  lemma PaidPaymentMarkedFailure(c: int) returns (s: State)
    requires 30 <= c <= P.MAX_CHARGE_AMOUNT
    ensures BenignlyReachable(s) && Quiescent(s) && PaidFor(s, PAYMENT) && Net(s, "x") == 1
    ensures "x" in s.payments && s.payments["x"].status == PaymentFailure && P.BalanceOf(s.points, 1) == c - 30
  {
    var paid := ConfirmedRun(c);
    var restarted := RestartLast(paid);
    s := FailThrice(restarted, 1);
    DeductedOnce(c);
  }

  /** One more restart, all its retries failing. */
  lemma RestartAndFail(before: State) returns (s: State)
    requires BenignlyReachable(before) && before.tasks != [] && before.tasks[0].p == PAYMENT && "x" in before.payments
    ensures BenignlyReachable(s) && s.booking == before.booking && s.tasks != [] && s.tasks[0].p == PAYMENT
    ensures Sum(s.audit, IsRestart("x")) == Sum(before.audit, IsRestart("x")) + 1
    ensures "x" in s.payments && s.payments["x"].status == PaymentFailure
  {
    var restarted := RestartLast(before);
    SumAppend(before.audit, Restart("x"), IsRestart("x"));
    s := FailThrice(restarted, |before.tasks|);
  }

  /** A paid payment, restarted r times, all its retries failing. */
  lemma {:induction false} PaidThenFailing(r: nat) returns (s: State)
    ensures BenignlyReachable(s) && TallyOf(s, "x").restarts == r && HasPaid(s, "x") && "x" in s.payments
    ensures s.tasks != [] && s.tasks[0].p == PAYMENT
    ensures r >= 1 ==> s.payments["x"].status == PaymentFailure
    decreases r
  {
    if r == 0 {
      s := PaidRun();
    } else {
      var before := PaidThenFailing(r - 1);
      s := RestartAndFail(before);
      StillPaid(before, s, "x");
    }
  }

  lemma StillPaid(s: State, t: State, tx: TxId)
    requires HasPaid(s, tx) && t.booking == s.booking
    ensures HasPaid(t, tx)
  {
  }

  lemma PaidRun() returns (s: State)
    ensures BenignlyReachable(s) && TallyOf(s, "x").restarts == 0 && HasPaid(s, "x") && "x" in s.payments
    ensures s.tasks == [Done(PAYMENT)]
  {
    s := ConfirmedRun(30);
    CountFirstAttempt(s.audit);
    assert PaidBy(s.booking.reservations[0], "x");
  }

  /** A payment that has confirmed its reservation never reads FAILURE or CANCEL, in every
      run under the fault model with r restarts, if and only if r is 0. */
  lemma PaidNeverReadsFailedExactlyWhen(r: nat)
    ensures (forall s, tx :: BenignlyReachable(s) && TallyOf(s, tx).restarts == r && HasPaid(s, tx) ==>
               tx in s.payments && !IsTerminal(s.payments[tx]))
            <==> r == 0
  {
    if r == 0 {
      forall s, tx | BenignlyReachable(s) && TallyOf(s, tx).restarts == r && HasPaid(s, tx)
        ensures tx in s.payments && !IsTerminal(s.payments[tx])
      {
        RestartsAreCounted(s.audit, tx);
        PaidHoldsNothing(s, tx);
      }
    } else {
      var s := PaidThenFailing(r);
      assert TallyOf(s, "x").restarts == r && HasPaid(s, "x") && IsTerminal(s.payments["x"]);
    }
  }

  /** A restart of a paid payment, the deduction going through: it is deducted a second
      time, the confirmation finds the reservation CONFIRMED, the second deduction is
      refunded, and the row says CANCEL. */
  lemma PaidPaymentMarkedCancel(c: int) returns (s: State)
    requires 60 <= c <= P.MAX_CHARGE_AMOUNT
    ensures BenignlyReachable(s) && Quiescent(s) && PaidFor(s, PAYMENT) && Net(s, "x") == 1
    ensures "x" in s.payments && s.payments["x"].status == PaymentCancel && P.BalanceOf(s.points, 1) == c - 30
  {
    var paid := ConfirmedRun(c);
    var restarted := RestartLast(paid);
    var again := DeductAgain(restarted, c);
    s := RefundSecond(again, c);
    BenignlyReachableIsClean(s);
    CleanSlipsNothing(s, One("x"));
    PaymentIsAccountedFor(s, 0);
    DrainedAccount(s, PAYMENT);
  }

  lemma SecondDeduction(s: State, c: int)
    requires s.tasks == [Done(PAYMENT), RetryEvent(PAYMENT, 1)] && s.points == Deducted(c).points && c >= 60
    ensures var s1 := HandleRetry(s, 1);
            && s1.tasks == [Done(PAYMENT), Executing(PAYMENT, 1)]
            && var s2 := HandleExecuting(s1, 1, false);
               && s2.tasks == [Done(PAYMENT), Paid(PAYMENT, 1)]
               && s2.points.balances == map[1 := c - 60] && s2.booking == s.booking && s2.payments == s.payments
  {
  }

  lemma DeductAgain(s: State, c: int) returns (t: State)
    requires BenignlyReachable(s) && s.tasks == [Done(PAYMENT), RetryEvent(PAYMENT, 1)]
    requires s.points == Deducted(c).points && c >= 60 && "x" in s.payments
    ensures BenignlyReachable(t) && t.tasks == [Done(PAYMENT), SuccessEvent(PAYMENT)]
    ensures t.points.balances == map[1 := c - 60] && t.booking == s.booking && "x" in t.payments
  {
    SecondDeduction(s, c);
    Retry(s, 1);
    Deduct(HandleRetry(s, 1), 1);
    var paid := HandleExecuting(HandleRetry(s, 1), 1, false);
    Publish(paid, 1);
    t := HandlePaid(paid, 1, false);
  }

  lemma RefundSecond(s: State, c: int) returns (t: State)
    requires BenignlyReachable(s) && s.tasks == [Done(PAYMENT), SuccessEvent(PAYMENT)]
    requires s.points.balances == map[1 := c - 60] && "x" in s.payments
    requires s.booking.reservations == [ReservationRow(1, 10, 30, Confirmed, Some(Stamp(0, "x")))]
    ensures BenignlyReachable(t) && t.tasks == [Done(PAYMENT), Done(PAYMENT)]
    ensures P.BalanceOf(t.points, 1) == c - 30 && t.booking == s.booking
    ensures "x" in t.payments && t.payments["x"].status == PaymentCancel
  {
    Confirm(s, 1);
    var s1 := HandleSuccess(s, 1, false, false, 0);
    Compensate(s1, 1);
    var s2 := HandleReservationFailure(s1, 1, false);
    Return(s2, 1);
    t := HandleCancel(s2, 1, false);
  }

  // ---------- tokens and jobs ----------

  /** Users 1 and 2 have reserved seats 10 and 11. */
  lemma TwoReservations() returns (s: State)
    ensures BenignlyReachable(s) && s.tasks == []
    ensures s.booking.reservations ==
            [ReservationRow(1, 10, 30, Pending, None), ReservationRow(2, 11, 30, Pending, None)]
    ensures s.tokens == map["a" := Claim(1, 10, 0), "b" := Claim(2, 11, 1)]
  {
    InitialIsBenignlyReachable(SEATS);
    var s0 := Initial(SEATS);
    BenignStep(s0, Reserve(1, 10, "a", false, true, true));
    var s1 := HandleReserve(s0, 1, 10, "a", false, true, true);
    assert s1.booking.reservations == [ReservationRow(1, 10, 30, Pending, None)];
    assert s1.tokens == map["a" := Claim(1, 10, 0)];
    BenignStep(s1, Reserve(2, 11, "b", false, true, true));
    s := HandleReserve(s1, 2, 11, "b", false, true, true);
  }

  /** User 1's token for seat 10 lets user 1 pay for user 2's reservation of seat 11,
      even under the unique index and without any fault. */
  lemma TokenPaysForAnotherReservation() returns (s: State)
    ensures BenignlyReachable(s) && SeatsDiffer(s.booking.reservations) && |s.booking.reservations| == 2
    ensures s.booking.reservations[0].user == 1 && s.booking.reservations[1].user == 2
    ensures "a" in s.tokens && s.tokens["a"] == Claim(1, 10, 0)
    ensures s.tasks == [TryEvent(Payload(1, 1, 11, 30, "x", "a"))]
  {
    var before := TwoReservations();
    BenignStep(before, Request(1, 1, "a", "x"));
    s := HandleRequest(before, 1, 1, "a", "x");
  }

  /** An error after the reservation's commit leaves it PENDING without an expiry job,
      with or without a payment token: it will never expire, and its seat stays blocked
      unless somebody pays. */
  lemma ReservationWithoutJob(issued: bool) returns (s: State)
    ensures BenignlyReachable(s) && |s.booking.reservations| == 1
    ensures s.booking.reservations[0] == ReservationRow(1, 10, 30, Pending, None)
    ensures 10 in s.booking.seats && s.booking.seats[10].status == Reserved
    ensures s.jobs == {} && (s.tokens != map[] <==> issued)
    ensures forall actions :: Jobless(Run(s, actions), 0)
  {
    InitialIsBenignlyReachable(SEATS);
    BenignStep(Initial(SEATS), Reserve(1, 10, "a", false, issued, false));
    s := Next(Initial(SEATS), Reserve(1, 10, "a", false, issued, false));
    assert issued ==> "a" in s.tokens;
    forall actions ensures Jobless(Run(s, actions), 0) {
      WithoutJobNeverExpires(s, actions, 0);
    }
  }

  // ---------- negative amounts ----------

  /** A negative charge makes the first balance negative, without any fault. */
  lemma NegativeBalanceRun(amount: int) returns (s: State)
    requires amount < 0
    ensures BenignlyReachable(s) && 1 in s.points.balances && s.points.balances[1] == amount
  {
    InitialIsBenignlyReachable(SEATS);
    BenignStep(Initial(SEATS), Action.Charge(1, amount, 0, false));
    s := HandleCharge(Initial(SEATS), 1, amount, 0, false);
  }
}

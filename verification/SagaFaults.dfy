/** Which faults the saga survives: under them its theorems about money hold without
    the terms for errors after a commit and for stale charges. SagaWitnesses shows a
    run that goes wrong for each kind of fault left out. */
module SagaFaults {
  import opened Tables
  import opened Sums
  import opened Saga
  import opened SagaInvariant
  import opened SagaMoney
  import opened SagaBounds
  import opened SagaOutcome
  import P = Points

  // ---------- the fault model ----------

  /** Locks, balance transactions and confirmations may fail at any time, and so may
      the writes of a payment's status up to its success, and the duplicate check of
      payment.try; nothing fails after a commit, a compensation that has begun goes
      through, and no charge overwrites a balance it has not read. */
  predicate Benign(s: State, a: Action) {
    && (a.Charge? ==> a.gap == 0)
    && (a.Handle? && a.i < |s.tasks| ==>
          && (a.late ==> s.tasks[a.i].TryEvent?)
          && (a.fails ==> !s.tasks[a.i].ReservationFailureEvent? && !s.tasks[a.i].CancelEvent?))
  }

  ghost predicate AllBenign(s: State, actions: seq<Action>) {
    actions != [] ==>
      && AllBenign(s, actions[..|actions| - 1])
      && Benign(Run(s, actions[..|actions| - 1]), actions[|actions| - 1])
  }

  predicate IsSlip(a: Audit) {
    a.Lost? || a.Unreturned? || a.Gifted? || (a.Stale? && a.gap != 0)
  }

  predicate Clean(s: State) {
    forall i :: 0 <= i < |s.audit| ==> !IsSlip(s.audit[i])
  }

  lemma CompensationIsClean(s: State, i: nat)
    requires i < |s.tasks| && TaskOk(s, s.tasks[i]) && Clean(s)
    requires s.tasks[i].ReservationFailureEvent? || s.tasks[i].CancelEvent?
    ensures Clean(HandleTask(s, i, false, false, 0))
  {
  }

  lemma HandleKeepsClean(s: State, i: nat, fails: bool, late: bool, now: int)
    requires i < |s.tasks| && TaskOk(s, s.tasks[i]) && Clean(s)
    requires Benign(s, Handle(i, fails, late, now))
    ensures Clean(HandleTask(s, i, fails, late, now))
  {
    if s.tasks[i].ReservationFailureEvent? || s.tasks[i].CancelEvent? {
      CompensationIsClean(s, i);
    }
  }

  /** Under the fault model nothing slips: the payment's row and the payer's balance
      are always there for the compensation. */
  lemma {:induction false} NothingSlips(seats: map<int, SeatRow>, actions: seq<Action>)
    requires AllAvailable(seats) && AllBenign(Initial(seats), actions)
    ensures Clean(Run(Initial(seats), actions))
  {
    if actions != [] {
      var before, a := Run(Initial(seats), actions[..|actions| - 1]), actions[|actions| - 1];
      NothingSlips(seats, actions[..|actions| - 1]);
      RunKeepsInv(seats, actions[..|actions| - 1]);
      if a.Handle? && a.i < |before.tasks| {
        InvIsLocal(before, a.i);
        HandleKeepsClean(before, a.i, a.fails, a.late, a.now);
      }
    }
  }

  lemma CleanSlipsNothing(s: State, f: Weight)
    requires Clean(s)
    ensures Sum(s.audit, Slip(f)) == 0 && Sum(s.audit, StaleBy) == 0
  {
    forall i | 0 <= i < |s.audit| ensures Slip(f)(s.audit[i]) == 0 && StaleBy(s.audit[i]) == 0 {
      assert !IsSlip(s.audit[i]);
    }
    SumIsZero(s.audit, Slip(f));
    SumIsZero(s.audit, StaleBy);
  }

  // ---------- the theorems under it ----------

  /** Some run under the fault model leads to s. */
  ghost predicate BenignlyReachable(s: State) {
    exists seats, actions ::
      AllAvailable(seats) && AllBenign(Initial(seats), actions) && s == Run(Initial(seats), actions)
  }

  lemma BenignlyReachableIsClean(s: State)
    requires BenignlyReachable(s)
    ensures Reachable(s) && Clean(s)
  {
    var seats, actions :|
      AllAvailable(seats) && AllBenign(Initial(seats), actions) && s == Run(Initial(seats), actions);
    NothingSlips(seats, actions);
  }

  /** Balances, plus what is deducted but neither confirmed nor refunded, plus the
      prices of CONFIRMED reservations, is always exactly what was charged minus what
      the old endpoint spent; failed duplicate checks do not change that. */
  lemma MoneyIsConservedExactly(s: State)
    requires BenignlyReachable(s)
    ensures Total(s.points.balances) + Sum(s.tasks, InFlight) + Sum(s.booking.reservations, Revenue)
            == Sum(s.points.history, Charged) - Sum(s.points.history, Spent)
  {
    BenignlyReachableIsClean(s);
    CleanSlipsNothing(s, AMOUNT);
    MoneyIsConserved(s);
  }

  /** Every balance is charges minus uses plus refunds over its history. */
  lemma LedgerHolds(s: State)
    requires BenignlyReachable(s)
    ensures P.Ledger(s.points)
  {
    BenignlyReachableIsClean(s);
    forall u ensures Sum(s.audit, StaleFor(u)) == 0 {
      forall i | 0 <= i < |s.audit| ensures StaleFor(u)(s.audit[i]) == 0 {
        assert !IsSlip(s.audit[i]);
      }
      SumIsZero(s.audit, StaleFor(u));
    }
    LedgerHoldsExactlyWhen(s);
  }

  /** At quiescence every CONFIRMED reservation has exactly one deducted and
      unrefunded payment among those requested for it, and every other reservation
      none, whoever competed, whatever failed, whichever payments were restarted and
      whenever expiry struck. */
  lemma ExactlyOnePaymentPerReservation(s: State, r: nat)
    requires BenignlyReachable(s) && Quiescent(s) && r < |s.booking.reservations|
    ensures PaidOnce(s, r)
  {
    BenignlyReachableIsClean(s);
    forall i, k | 0 <= i < |s.tasks| && 0 <= k < |s.audit| ensures Slip(One(s.tasks[i].p.tx))(s.audit[k]) == 0 {
      assert !IsSlip(s.audit[k]);
    }
    forall i | 0 <= i < |s.tasks| ensures NoSlip(s, s.tasks[i].p.tx) {
    }
    ExactlyOnePayment(s, r);
  }

  lemma CleanLosesNothing(s: State, tx: TxId)
    requires Clean(s)
    ensures TallyOf(s, tx).losses == 0
  {
    forall i | 0 <= i < |s.audit| ensures IsLoss(tx)(s.audit[i]) == 0 {
      assert !IsSlip(s.audit[i]);
    }
    SumIsZero(s.audit, IsLoss(tx));
  }

  /** A payment is deducted at most once more than it was restarted, and refunded at
      most as often as deducted. */
  lemma DeductedAtMostOnce(s: State, tx: TxId)
    requires BenignlyReachable(s)
    ensures var y := TallyOf(s, tx); 0 <= y.refunds <= y.uses <= 1 + y.restarts
    ensures !Restarted(s.audit, tx) ==> TallyOf(s, tx).uses <= 1
  {
    BenignlyReachableIsClean(s);
    SagaIsBounded(s, tx);
    CleanLosesNothing(s, tx);
    RestartsAreCounted(s.audit, tx);
  }

  // ---------- what the status is worth ----------

  lemma NetIsUsesMinusRefunds(s: State, tx: TxId)
    ensures Net(s, tx) == TallyOf(s, tx).uses - TallyOf(s, tx).refunds
  {
    var zero := (h: HistoryRow) => 0;
    SumSplits(s.points.history, NetUse(One(tx)), IsRow(tx, Use), IsRow(tx, Refund), zero);
    SumIsZero(s.points.history, zero);
  }

  lemma CleanGivesNothingAway(s: State, tx: TxId)
    requires Clean(s)
    ensures !GivenAway(s.audit, tx)
  {
    forall k | 0 <= k < |s.audit| ensures !s.audit[k].Gifted? {
      assert !IsSlip(s.audit[k]);
    }
  }

  /** Deductions minus refunds: one while some task holds the money, and one for good
      once the reservation is confirmed. */
  lemma CleanAccount(s: State, i: nat)
    requires BenignlyReachable(s) && i < |s.tasks|
    ensures var y, tx := TallyOf(s, s.tasks[i].p.tx), s.tasks[i].p.tx;
            && y.uses - y.refunds == Sum(s.tasks, Held(One(tx))) + (if HasPaid(s, tx) then 1 else 0)
  {
    var p := s.tasks[i].p;
    BenignlyReachableIsClean(s);
    ReachableIsInv(s);
    PaymentIsAccountedFor(s, i);
    CleanSlipsNothing(s, One(p.tx));
    NetIsUsesMinusRefunds(s, p.tx);
    if r :| 0 <= r < |s.booking.reservations| && PaidBy(s.booking.reservations[r], p.tx) {
      PayerIsUnique(s, i, r);
    }
  }

  predicate IsHolding(t: Task, tx: TxId) {
    t.p.tx == tx && Holding(t)
  }

  lemma HeldExactlyWhen(s: State, tx: TxId)
    ensures Sum(s.tasks, Held(One(tx))) >= 0
    ensures Sum(s.tasks, Held(One(tx))) == 0 <==> forall i :: 0 <= i < |s.tasks| ==> !IsHolding(s.tasks[i], tx)
  {
    forall i | 0 <= i < |s.tasks| ensures Held(One(tx))(s.tasks[i]) == if IsHolding(s.tasks[i], tx) then 1 else 0 {
      HeldBy(s.tasks[i], One(tx));
    }
    SumIsNonNegative(s.tasks, Held(One(tx)));
    if i :| 0 <= i < |s.tasks| && IsHolding(s.tasks[i], tx) {
      SumAtLeast(s.tasks, i, Held(One(tx)));
    } else {
      SumIsZero(s.tasks, Held(One(tx)));
    }
  }

  /** A payment.cancel of this payment is in flight. */
  predicate Cancelling(s: State, tx: TxId) {
    exists i :: 0 <= i < |s.tasks| && s.tasks[i].p.tx == tx && s.tasks[i].CancelEvent?
  }

  lemma TerminalHoldsOnlyCancelling(s: State, tx: TxId)
    requires Inv(s) && tx in s.payments && IsTerminal(s.payments[tx]) && !Restarted(s.audit, tx)
    ensures (exists i :: 0 <= i < |s.tasks| && IsHolding(s.tasks[i], tx)) <==> Cancelling(s, tx)
  {
    forall i | 0 <= i < |s.tasks| && IsHolding(s.tasks[i], tx) ensures s.tasks[i].CancelEvent? {
      assert TaskOk(s, s.tasks[i]);
    }
    if i :| 0 <= i < |s.tasks| && s.tasks[i].p.tx == tx && s.tasks[i].CancelEvent? {
      assert IsHolding(s.tasks[i], tx);
    }
  }

  /** What FAILURE and CANCEL say. */
  predicate TerminalIsTruthful(status: PaymentStatus, y: Tally, paid: bool, cancelling: bool) {
    && (status == PaymentFailure ==> y.uses == 0 && y.refunds == 0 && !paid)
    && (status == PaymentCancel ==> y.uses == 1 && y.refunds == (if cancelling then 0 else 1) && !paid)
    && (y.refunds >= 1 ==> status == PaymentCancel)
    && (paid ==> y.uses == 1 && y.refunds == 0)
  }

  lemma TerminalHasNotPaid(s: State, tx: TxId)
    requires BenignlyReachable(s) && tx in s.payments && IsTerminal(s.payments[tx]) && !Restarted(s.audit, tx)
    ensures !HasPaid(s, tx)
  {
    BenignlyReachableIsClean(s);
    CleanGivesNothingAway(s, tx);
    if HasPaid(s, tx) {
      PaidIsNeverTerminal(s, tx);
    }
  }

  lemma PaidHoldsNothing(s: State, tx: TxId)
    requires BenignlyReachable(s) && HasPaid(s, tx) && !Restarted(s.audit, tx)
    ensures tx in s.payments && !IsTerminal(s.payments[tx]) && Sum(s.tasks, Held(One(tx))) == 0
  {
    BenignlyReachableIsClean(s);
    CleanGivesNothingAway(s, tx);
    PaidIsNeverTerminal(s, tx);
    HeldExactlyWhen(s, tx);
  }

  lemma TaskOf(s: State, tx: TxId) returns (i: nat)
    requires BenignlyReachable(s) && tx in s.payments
    ensures i < |s.tasks| && s.tasks[i].p.tx == tx
  {
    BenignlyReachableIsClean(s);
    ReachableIsInv(s);
    i :| 0 <= i < |s.tasks| && s.tasks[i].p.tx == tx;
  }

  /** For a payment that was never restarted the status a client polls for is truthful:
      FAILURE means never deducted; CANCEL means deducted once, its reservation not
      confirmed by it, and refunded unless payment.cancel is still in flight; nothing else
      is ever refunded; and a payment that confirmed its reservation is neither. */
  lemma StatusIsTruthful(s: State, tx: TxId)
    requires BenignlyReachable(s) && tx in s.payments && !Restarted(s.audit, tx)
    ensures TerminalIsTruthful(s.payments[tx].status, TallyOf(s, tx), HasPaid(s, tx), Cancelling(s, tx))
  {
    BenignlyReachableIsClean(s);
    ReachableIsInv(s);
    StatusTellsTheOutcome(s, tx);
    CleanLosesNothing(s, tx);
    DeductedAtMostOnce(s, tx);
    var i := TaskOf(s, tx);
    CleanAccount(s, i);
    HeldExactlyWhen(s, tx);
    if HasPaid(s, tx) {
      PaidHoldsNothing(s, tx);
    } else if IsTerminal(s.payments[tx]) {
      TerminalHoldsOnlyCancelling(s, tx);
    }
  }

  /** What the status and the confirmed reservation say of the books once all is done. */
  predicate SettledIsTruthful(status: PaymentStatus, y: Tally, paid: bool) {
    && 0 <= y.refunds <= y.uses <= 1
    && (y.uses == 1 && y.refunds == 0 <==> paid)
    && (y.uses == 1 && y.refunds == 1 <==> status == PaymentCancel)
    && (status == PaymentFailure ==> y.uses == 0 && !paid)
  }

  lemma TruthSettles(status: PaymentStatus, y: Tally, paid: bool)
    requires TerminalIsTruthful(status, y, paid, false) && 0 <= y.refunds <= y.uses <= 1
    requires y.uses == y.refunds + (if paid then 1 else 0)
    ensures SettledIsTruthful(status, y, paid)
  {
  }

  lemma QuiescentAccount(s: State, i: nat)
    requires BenignlyReachable(s) && Quiescent(s) && i < |s.tasks|
    ensures var tx := s.tasks[i].p.tx;
            TallyOf(s, tx).uses == TallyOf(s, tx).refunds + (if HasPaid(s, tx) then 1 else 0) && !Cancelling(s, tx)
  {
    CleanAccount(s, i);
    HeldExactlyWhen(s, s.tasks[i].p.tx);
  }

  /** Once its messages have drained, a payment that was never restarted is deducted for
      good exactly if it confirmed its reservation, and deducted and refunded exactly if
      its status is CANCEL; in every other case it was never deducted. */
  lemma SettledStatusIsTruthful(s: State, tx: TxId)
    requires BenignlyReachable(s) && Quiescent(s) && tx in s.payments && !Restarted(s.audit, tx)
    ensures SettledIsTruthful(s.payments[tx].status, TallyOf(s, tx), HasPaid(s, tx))
  {
    var i := TaskOf(s, tx);
    QuiescentAccount(s, i);
    StatusIsTruthful(s, tx);
    DeductedAtMostOnce(s, tx);
    TruthSettles(s.payments[tx].status, TallyOf(s, tx), HasPaid(s, tx));
  }

  // ---------- making runs longer ----------

  lemma InitialIsBenignlyReachable(seats: map<int, SeatRow>)
    requires AllAvailable(seats)
    ensures BenignlyReachable(Initial(seats))
  {
    assert AllBenign(Initial(seats), []) && Run(Initial(seats), []) == Initial(seats);
  }

  lemma BenignStep(s: State, a: Action)
    requires BenignlyReachable(s) && Benign(s, a)
    ensures BenignlyReachable(Next(s, a))
  {
    var seats, actions :|
      AllAvailable(seats) && AllBenign(Initial(seats), actions) && s == Run(Initial(seats), actions);
    assert (actions + [a])[..|actions|] == actions;
    assert AllBenign(Initial(seats), actions + [a]) && Run(Initial(seats), actions + [a]) == Next(s, a);
  }

  lemma BenignHandle(s: State, i: nat, fails: bool, late: bool)
    requires BenignlyReachable(s) && i < |s.tasks| && Benign(s, Handle(i, fails, late, 0))
    ensures BenignlyReachable(HandleTask(s, i, fails, late, 0))
  {
    BenignStep(s, Handle(i, fails, late, 0));
  }

  lemma Step(s: State, a: Action)
    requires Reachable(s)
    ensures Reachable(Next(s, a))
  {
    var seats, actions :| AllAvailable(seats) && s == Run(Initial(seats), actions);
    assert (actions + [a])[..|actions|] == actions;
    assert Run(Initial(seats), actions + [a]) == Next(s, a);
  }
}

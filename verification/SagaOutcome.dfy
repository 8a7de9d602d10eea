/** What the status a client polls for says about the payment's reservation. */
module SagaOutcome {
  import opened Tables
  import opened Sums
  import opened Saga
  import opened SagaInvariant
  import opened SagaMoney
  import opened SagaBounds
  import B = Booking

  predicate PaidBy(row: ReservationRow, tx: TxId) {
    row.paidAt.Some? && row.paidAt.value.tx == tx
  }

  /** The payment has confirmed a reservation. */
  predicate HasPaid(s: State, tx: TxId) {
    exists r :: 0 <= r < |s.booking.reservations| && PaidBy(s.booking.reservations[r], tx)
  }

  /** An error after its confirmation's commit gave the reservation away. */
  predicate GivenAway(audit: seq<Audit>, tx: TxId) {
    exists k :: 0 <= k < |audit| && audit[k].Gifted? && audit[k].tx == tx
  }

  predicate AtRest(s: State, tx: TxId) {
    && tx in s.payments && !IsTerminal(s.payments[tx])
    && forall i :: 0 <= i < |s.tasks| && s.tasks[i].p.tx == tx ==> !Live(s.tasks[i])
  }

  /** A payment that has confirmed its reservation is neither FAILURE nor CANCEL and has
      nothing more to do, unless it was restarted or given away. */
  predicate PaidRests(s: State, tx: TxId) {
    HasPaid(s, tx) && !Restarted(s.audit, tx) && !GivenAway(s.audit, tx) ==> AtRest(s, tx)
  }

  ghost predicate AllPaidRest(s: State) {
    forall tx :: PaidRests(s, tx)
  }

  // ---------- every step keeps it ----------

  lemma ExcusesStay(s: State, s': State, tx: TxId)
    requires |s.audit| <= |s'.audit| && s'.audit[..|s.audit|] == s.audit
    ensures Restarted(s.audit, tx) ==> Restarted(s'.audit, tx)
    ensures GivenAway(s.audit, tx) ==> GivenAway(s'.audit, tx)
  {
    assert forall k :: 0 <= k < |s.audit| ==> s'.audit[k] == s.audit[k];
  }

  /** A step that pays for nothing new and leaves the row and the live tasks alone. */
  lemma QuietStepRests(s: State, s': State, tx: TxId)
    requires PaidRests(s, tx) && (HasPaid(s', tx) ==> HasPaid(s, tx))
    requires |s.audit| <= |s'.audit| && s'.audit[..|s.audit|] == s.audit
    requires tx in s.payments ==> tx in s'.payments && s'.payments[tx] == s.payments[tx]
    requires forall i :: 0 <= i < |s'.tasks| && s'.tasks[i].p.tx == tx && Live(s'.tasks[i]) ==>
               i < |s.tasks| && s.tasks[i].p.tx == tx && Live(s.tasks[i])
    ensures PaidRests(s', tx)
  {
    ExcusesStay(s, s', tx);
  }

  lemma OnlySuccessPays(s: State, i: nat, fails: bool, late: bool, now: int, tx: TxId)
    requires i < |s.tasks| && HasPaid(HandleTask(s, i, fails, late, now), tx) && !HasPaid(s, tx)
    ensures s.tasks[i].SuccessEvent? && s.tasks[i].p.tx == tx
  {
    var s' := HandleTask(s, i, fails, late, now);
    var r :| 0 <= r < |s'.booking.reservations| && PaidBy(s'.booking.reservations[r], tx);
    assert r < |s.booking.reservations| && !PaidBy(s.booking.reservations[r], tx);
  }

  lemma HandlerKeepsOtherRows(s: State, i: nat, fails: bool, late: bool, now: int, tx: TxId)
    requires i < |s.tasks| && tx != s.tasks[i].p.tx && tx in s.payments
    ensures var s' := HandleTask(s, i, fails, late, now); tx in s'.payments && s'.payments[tx] == s.payments[tx]
  {
  }

  /** Another payment's handler. */
  lemma OtherHandlerRests(s: State, i: nat, fails: bool, late: bool, now: int, tx: TxId)
    requires i < |s.tasks| && tx != s.tasks[i].p.tx && PaidRests(s, tx)
    ensures PaidRests(HandleTask(s, i, fails, late, now), tx)
  {
    var s' := HandleTask(s, i, fails, late, now);
    var row, entry := HandlerMoves(s, i, fails, late, now);
    if HasPaid(s', tx) && !HasPaid(s, tx) {
      OnlySuccessPays(s, i, fails, late, now, tx);
    }
    if tx in s.payments {
      HandlerKeepsOtherRows(s, i, fails, late, now, tx);
    }
    QuietStepRests(s, s', tx);
  }

  /** A live task means that its payment has not paid, or is excused. */
  lemma LiveHasNotPaid(s: State, i: nat)
    requires i < |s.tasks| && Live(s.tasks[i]) && PaidRests(s, s.tasks[i].p.tx)
    ensures var tx := s.tasks[i].p.tx; !HasPaid(s, tx) || Restarted(s.audit, tx) || GivenAway(s.audit, tx)
  {
  }

  /** The confirmation leaves its payment at rest. */
  lemma SuccessRests(s: State, i: nat, fails: bool, late: bool, now: int)
    requires Local(s, i) && LiveApart(s.tasks, s.audit) && s.tasks[i].SuccessEvent?
    requires !HasPaid(s, s.tasks[i].p.tx) && !Restarted(s.audit, s.tasks[i].p.tx)
    ensures PaidRests(HandleSuccess(s, i, fails, late, now), s.tasks[i].p.tx)
  {
    var tx := s.tasks[i].p.tx;
    var s' := HandleSuccess(s, i, fails, late, now);
    if s'.tasks[i].Done? {
      assert forall j :: 0 <= j < |s.tasks| && j != i && s.tasks[j].p.tx == tx ==> !Live(s.tasks[j]);
      assert AtRest(s', tx);
    } else if s'.booking != s.booking {
      assert s'.audit[|s.audit|] == Gifted(tx, s.tasks[i].p.amount);
    }
  }

  /** The payment's own handler. */
  lemma OwnHandlerRests(s: State, i: nat, fails: bool, late: bool, now: int)
    requires Local(s, i) && LiveApart(s.tasks, s.audit) && PaidRests(s, s.tasks[i].p.tx)
    ensures PaidRests(HandleTask(s, i, fails, late, now), s.tasks[i].p.tx)
  {
    var tx := s.tasks[i].p.tx;
    var s' := HandleTask(s, i, fails, late, now);
    var row, entry := HandlerMoves(s, i, fails, late, now);
    ExcusesStay(s, s', tx);
    if Live(s.tasks[i]) {
      LiveHasNotPaid(s, i);
      if s.tasks[i].SuccessEvent? && !HasPaid(s, tx) && !Restarted(s.audit, tx) {
        SuccessRests(s, i, fails, late, now);
      } else if HasPaid(s', tx) && !HasPaid(s, tx) {
        OnlySuccessPays(s, i, fails, late, now, tx);
      }
    } else {
      TryRests(s, i, fails, late, now);
    }
  }

  /** A payment that has been seen before is not started again, or it is restarted. */
  lemma TryRests(s: State, i: nat, fails: bool, late: bool, now: int)
    requires i < |s.tasks| && !Live(s.tasks[i]) && PaidRests(s, s.tasks[i].p.tx)
    ensures PaidRests(HandleTask(s, i, fails, late, now), s.tasks[i].p.tx)
  {
    var tx := s.tasks[i].p.tx;
    var s' := HandleTask(s, i, fails, late, now);
    if HasPaid(s', tx) && !Restarted(s'.audit, tx) && !GivenAway(s'.audit, tx) {
      assert s'.booking == s.booking && s'.audit == s.audit;
      assert AtRest(s, tx);
    }
  }

  /** No reservation is newly paid. */
  predicate PaysNothing(s: B.Store, t: B.Store) {
    forall r :: 0 <= r < |t.reservations| && t.reservations[r].paidAt.Some? ==>
      r < |s.reservations| && s.reservations[r].paidAt == t.reservations[r].paidAt
  }

  lemma TablesPayNothing(s: State, a: Action)
    requires Inv(s) && (a.Reserve? || a.Expire?)
    ensures PaysNothing(s.booking, Next(s, a).booking)
  {
    if Next(s, a).booking != s.booking {
      var op := if a.Reserve? then B.ReserveOp(a.user, a.seat) else B.ExpireOp(a.id, a.seat);
      BookingStepIsMild(s.booking, op, s.jobs);
    }
  }

  lemma OutsideActionsKeepBooking(s: State, a: Action)
    requires !a.Reserve? && !a.Expire? && !a.Handle?
    ensures Next(s, a).booking == s.booking
  {
  }

  /** Only a confirmation pays. */
  lemma OtherActionsPayNothing(s: State, a: Action, tx: TxId)
    requires Inv(s) && !a.Handle? && HasPaid(Next(s, a), tx)
    ensures HasPaid(s, tx)
  {
    var s' := Next(s, a);
    if a.Reserve? || a.Expire? {
      TablesPayNothing(s, a);
    } else {
      OutsideActionsKeepBooking(s, a);
    }
    var r :| 0 <= r < |s'.booking.reservations| && PaidBy(s'.booking.reservations[r], tx);
    assert r < |s.booking.reservations| && PaidBy(s.booking.reservations[r], tx);
  }

  lemma OtherActionsKeepRows(s: State, a: Action)
    requires !a.Handle?
    ensures var s' := Next(s, a);
            && s'.payments == s.payments && |s.audit| <= |s'.audit| && s'.audit[..|s.audit|] == s.audit
            && |s.tasks| <= |s'.tasks| && s'.tasks[..|s.tasks|] == s.tasks
            && forall i :: |s.tasks| <= i < |s'.tasks| ==> !Live(s'.tasks[i])
  {
  }

  lemma NextRests(s: State, a: Action)
    requires Inv(s) && AllPaidRest(s)
    ensures AllPaidRest(Next(s, a))
  {
    forall tx ensures PaidRests(Next(s, a), tx) {
      assert PaidRests(s, tx);
      if !a.Handle? {
        OtherActionsKeepRows(s, a);
        if HasPaid(Next(s, a), tx) {
          OtherActionsPayNothing(s, a, tx);
        }
        assert forall i :: 0 <= i < |s.tasks| ==> Next(s, a).tasks[..|s.tasks|][i] == Next(s, a).tasks[i];
        QuietStepRests(s, Next(s, a), tx);
      } else if a.i < |s.tasks| {
        InvIsLocal(s, a.i);
        if tx == s.tasks[a.i].p.tx {
          OwnHandlerRests(s, a.i, a.fails, a.late, a.now);
        } else {
          OtherHandlerRests(s, a.i, a.fails, a.late, a.now, tx);
        }
      }
    }
  }

  lemma {:induction false} RunRests(seats: map<int, SeatRow>, actions: seq<Action>)
    requires AllAvailable(seats)
    ensures AllPaidRest(Run(Initial(seats), actions))
  {
    if actions != [] {
      RunRests(seats, actions[..|actions| - 1]);
      RunKeepsInv(seats, actions[..|actions| - 1]);
      NextRests(Run(Initial(seats), actions[..|actions| - 1]), actions[|actions| - 1]);
    }
  }

  /** In every reachable state a payment that has confirmed its reservation is neither
      FAILURE nor CANCEL, and no message or handler of it is left, unless a failed
      duplicate check restarted it or an error after the confirmation gave it away. */
  lemma PaidIsNeverTerminal(s: State, tx: TxId)
    requires Reachable(s) && HasPaid(s, tx) && !Restarted(s.audit, tx) && !GivenAway(s.audit, tx)
    ensures AtRest(s, tx)
  {
    var seats, actions :| AllAvailable(seats) && s == Run(Initial(seats), actions);
    RunRests(seats, actions);
    assert PaidRests(s, tx);
  }
}

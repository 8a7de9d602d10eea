/** Where the money is. One weighted count over history, tasks, reservations and
    audit is kept by every step; weighing each payment by its amount gives
    conservation of money, weighing one payment by one counts its deductions. */
module SagaMoney {
  import opened Tables
  import opened Sums
  import opened Saga
  import opened SagaInvariant
  import P = Points
  import B = Booking

  type Weight = (TxId, int) -> int

  /** Deductions minus refunds, from the history. */
  function NetUse(f: Weight): HistoryRow -> int {
    (h: HistoryRow) =>
      if h.tx.None? then 0
      else match h.kind case Use => f(h.tx.value, h.amount) case Refund => -f(h.tx.value, h.amount) case Charge => 0
  }

  function Held(f: Weight): Task -> int {
    (t: Task) => if Holding(t) then f(t.p.tx, t.p.amount) else 0
  }

  function Earned(f: Weight): ReservationRow -> int {
    (r: ReservationRow) => if r.paidAt.Some? then f(r.paidAt.value.tx, r.price) else 0
  }

  /** Errors after a commit: positive if the payer lost, negative if they gained. */
  function Slip(f: Weight): Audit -> int {
    (a: Audit) =>
      match a
      case Lost(tx, amount) => f(tx, amount)
      case Unreturned(tx, amount) => f(tx, amount)
      case Gifted(tx, amount) => -f(tx, amount)
      case _ => 0
  }

  ghost predicate Balanced(s: State, f: Weight) {
    Sum(s.points.history, NetUse(f))
    == Sum(s.tasks, Held(f)) + Sum(s.booking.reservations, Earned(f)) + Sum(s.audit, Slip(f))
  }

  lemma HeldBy(t: Task, f: Weight)
    ensures Held(f)(t) == if Holding(t) then f(t.p.tx, t.p.amount) else 0
  {
  }

  lemma ConfirmEarns(s: B.Store, id: nat, stamp: Stamp, f: Weight)
    requires B.Agreement(s) && B.Confirm(s, id, stamp).Success?
    ensures Sum(B.Confirm(s, id, stamp).value.reservations, Earned(f))
            == Sum(s.reservations, Earned(f)) + f(stamp.tx, s.reservations[id].price)
  {
    assert B.RowOk(s, s.reservations[id]);
    SumUpdate(s.reservations, id, s.reservations[id].(status := Confirmed, paidAt := Some(stamp)), Earned(f));
  }

  function NetOf(row: Option<HistoryRow>, f: Weight): int {
    if row.Some? then NetUse(f)(row.value) else 0
  }

  function SlipOf(entry: Option<Audit>, f: Weight): int {
    if entry.Some? then Slip(f)(entry.value) else 0
  }

  /** The sides of the balance before and after a step on task i that adds at
      most one history row and one audit entry, and earns so much. */
  lemma StepShiftsBalance(s: State, s': State, i: nat, row: Option<HistoryRow>, entry: Option<Audit>, earned: int,
                          f: Weight)
    requires i < |s.tasks| == |s'.tasks| && s'.tasks == s.tasks[i := s'.tasks[i]] && s'.tasks[i].p == s.tasks[i].p
    requires s'.points.history == s.points.history + AsSeq(row) && s'.audit == s.audit + AsSeq(entry)
    requires Sum(s'.booking.reservations, Earned(f)) == Sum(s.booking.reservations, Earned(f)) + earned
    requires NetOf(row, f) == Held(f)(s'.tasks[i]) - Held(f)(s.tasks[i]) + earned + SlipOf(entry, f)
    requires Balanced(s, f)
    ensures Balanced(s', f)
  {
    SumUpdate(s.tasks, i, s'.tasks[i], Held(f));
    SumAppendsAny(s.points.history, row, NetUse(f));
    SumAppendsAny(s.audit, entry, Slip(f));
  }

  /** A move that touches no reservation balances on its own. */
  lemma MoveBalances(t: Task, t': Task, row: Option<HistoryRow>, entry: Option<Audit>, f: Weight)
    requires Moves(t, t', row, entry) && !t.SuccessEvent?
    ensures NetOf(row, f) == Held(f)(t') - Held(f)(t) + SlipOf(entry, f)
  {
    HeldBy(t, f);
    HeldBy(t', f);
  }

  /** What the confirmation earns is what its task held; a late error gives it away. */
  lemma SuccessStepEarns(s: State, i: nat, fails: bool, late: bool, now: int, f: Weight)
    returns (entry: Option<Audit>, earned: int)
    requires i < |s.tasks| && s.tasks[i].SuccessEvent? && TaskOk(s, s.tasks[i]) && B.Agreement(s.booking)
    ensures var s' := HandleSuccess(s, i, fails, late, now);
            && s'.audit == s.audit + AsSeq(entry) && s'.points == s.points
            && s'.tasks == s.tasks[i := s'.tasks[i]] && |s'.tasks| == |s.tasks| && s'.tasks[i].p == s.tasks[i].p
            && Sum(s'.booking.reservations, Earned(f)) == Sum(s.booking.reservations, Earned(f)) + earned
            && 0 == Held(f)(s'.tasks[i]) - Held(f)(s.tasks[i]) + earned + SlipOf(entry, f)
  {
    var p := s.tasks[i].p;
    if fails || B.Confirm(s.booking, p.reservation, Stamp(now, p.tx)).Failure? {
      entry, earned := None, 0;
    } else {
      ConfirmEarns(s.booking, p.reservation, Stamp(now, p.tx), f);
      entry, earned := if late then Some(Gifted(p.tx, p.amount)) else None, f(p.tx, p.amount);
    }
    HeldBy(s.tasks[i], f);
    HeldBy(HandleSuccess(s, i, fails, late, now).tasks[i], f);
  }

  lemma HandleKeepsBalanced(s: State, i: nat, fails: bool, late: bool, now: int, f: Weight)
    requires Local(s, i) && Balanced(s, f)
    ensures Balanced(HandleTask(s, i, fails, late, now), f)
  {
    if s.tasks[i].SuccessEvent? {
      var entry, earned := SuccessStepEarns(s, i, fails, late, now, f);
      StepShiftsBalance(s, HandleSuccess(s, i, fails, late, now), i, None, entry, earned, f);
    } else {
      var row, entry := HandlerMoves(s, i, fails, late, now);
      MovedKeepsBalanced(s, HandleTask(s, i, fails, late, now), i, row, entry, f);
    }
  }

  lemma MovedKeepsBalanced(s: State, s': State, i: nat, row: Option<HistoryRow>, entry: Option<Audit>, f: Weight)
    requires Moved(s, s', i, row, entry) && !s.tasks[i].SuccessEvent? && Balanced(s, f)
    ensures Balanced(s', f)
  {
    MoveBalances(s.tasks[i], s'.tasks[i], row, entry, f);
    StepShiftsBalance(s, s', i, row, entry, 0, f);
  }

  lemma PublishKeepsBalanced(s: State, p: Payload, f: Weight)
    requires Balanced(s, f)
    ensures Balanced(s.(tasks := s.tasks + [TryEvent(p)]), f)
  {
    SumAppend(s.tasks, TryEvent(p), Held(f));
    HeldBy(TryEvent(p), f);
  }

  /** Reserving or expiring earns nothing. */
  lemma BookingEarnsNothing(s: B.Store, op: B.Op, f: Weight)
    requires B.Agreement(s) && !op.ConfirmOp? && B.Perform(s, op).Success?
    ensures Sum(B.Perform(s, op).value.reservations, Earned(f)) == Sum(s.reservations, Earned(f))
  {
    var t := B.Perform(s, op).value;
    if op.ReserveOp? {
      SumAppend(s.reservations, t.reservations[|s.reservations|], Earned(f));
    } else {
      assert B.RowOk(s, s.reservations[op.id]);
      SumUpdate(s.reservations, op.id, t.reservations[op.id], Earned(f));
    }
  }

  lemma UntaggedRowKeepsBalanced(s: State, s': State, row: HistoryRow, f: Weight)
    requires Balanced(s, f) && row.tx.None? && s'.points.history == s.points.history + [row]
    requires s'.tasks == s.tasks && s'.booking == s.booking && s'.audit == s.audit
    ensures Balanced(s', f)
  {
    SumAppend(s.points.history, row, NetUse(f));
  }

  lemma ChargeKeepsBalanced(s: State, user: int, amount: int, gap: int, fails: bool, f: Weight)
    requires Balanced(s, f)
    ensures Balanced(HandleCharge(s, user, amount, gap, fails), f)
  {
    if HandleCharge(s, user, amount, gap, fails) != s {
      SumAppend(s.points.history, HistoryRow(user, HistoryKind.Charge, amount, None), NetUse(f));
      SumAppend(s.audit, Stale(user, gap), Slip(f));
    }
  }

  lemma PointsKeepBalanced(s: State, op: P.Op, fails: bool, f: Weight)
    requires Balanced(s, f) && (op.ChargeOp? || op.tx.None?)
    ensures Balanced(PerformPoints(s, op, fails), f)
  {
    if !fails && P.Perform(s.points, op).Success? {
      UntaggedRowKeepsBalanced(s, PerformPoints(s, op, fails), P.RowFor(op), f);
    }
  }

  lemma NextKeepsBalanced(s: State, a: Action, f: Weight)
    requires Inv(s) && Balanced(s, f)
    ensures Balanced(Next(s, a), f)
  {
    match a
    case Charge(user, amount, gap, fails) => ChargeKeepsBalanced(s, user, amount, gap, fails, f);
    case Spend(user, amount, fails) => PointsKeepBalanced(s, P.UseOp(user, amount, None), fails, f);
    case Reserve(user, seat, _, _, _, _) =>
      if Next(s, a) != s {
        BookingEarnsNothing(s.booking, B.ReserveOp(user, seat), f);
      }
    case Expire(id, seat, _) =>
      if Next(s, a) != s {
        BookingEarnsNothing(s.booking, B.ExpireOp(id, seat), f);
      }
    case Request(user, reservation, token, tx) =>
      if Next(s, a) != s {
        var r := s.booking.reservations[reservation];
        PublishKeepsBalanced(s, Payload(reservation, user, r.seat, r.price, tx, token), f);
      }
    case Redeliver(i) =>
      if i < |s.tasks| {
        PublishKeepsBalanced(s, s.tasks[i].p, f);
      }
    case Handle(i, fails, late, now) =>
      if i < |s.tasks| {
        InvIsLocal(s, i);
        HandleKeepsBalanced(s, i, fails, late, now, f);
      }
    case ForgetToken(_) =>
  }

  lemma {:induction false} RunKeepsBalanced(seats: map<int, SeatRow>, actions: seq<Action>, f: Weight)
    requires AllAvailable(seats)
    ensures Balanced(Run(Initial(seats), actions), f)
  {
    if actions != [] {
      RunKeepsBalanced(seats, actions[..|actions| - 1], f);
      RunKeepsInv(seats, actions[..|actions| - 1]);
      NextKeepsBalanced(Run(Initial(seats), actions[..|actions| - 1]), actions[|actions| - 1], f);
    }
  }

  lemma ReachableIsBalanced(s: State, f: Weight)
    requires Reachable(s)
    ensures Balanced(s, f)
  {
    var seats, actions :| AllAvailable(seats) && s == Run(Initial(seats), actions);
    RunKeepsBalanced(seats, actions, f);
  }

  // ---------- the ledger, up to stale charges ----------

  function StaleBy(a: Audit): int {
    if a.Stale? then a.gap else 0
  }

  function StaleFor(user: int): Audit -> int {
    (a: Audit) => if a.Stale? && a.user == user then a.gap else 0
  }

  /** Each balance, and their total, misses the history by the gaps of its charges. */
  ghost predicate Drifts(s: State) {
    && (forall u :: P.Drift(s.points, u) == Sum(s.audit, StaleFor(u)))
    && P.TotalDrift(s.points) == Sum(s.audit, StaleBy)
  }

  predicate NotStale(entry: Option<Audit>) {
    entry.Some? ==> !entry.value.Stale?
  }

  lemma PlainStepDrifts(s: State, s': State, op: Option<P.Op>, entry: Option<Audit>, u: int)
    requires P.Drift(s.points, u) == Sum(s.audit, StaleFor(u)) && P.TotalDrift(s.points) == Sum(s.audit, StaleBy)
    requires s'.audit == s.audit + AsSeq(entry) && NotStale(entry)
    requires if op == None then s'.points == s.points
             else P.Gap(op.value) == 0 && P.Perform(s.points, op.value) == Success(s'.points)
    ensures P.Drift(s'.points, u) == Sum(s'.audit, StaleFor(u)) && P.TotalDrift(s'.points) == Sum(s'.audit, StaleBy)
  {
    SumAppendsAny(s.audit, entry, StaleFor(u));
    SumAppendsAny(s.audit, entry, StaleBy);
    if op.Some? {
      P.PerformDrifts(s.points, op.value, u);
    }
  }

  /** A step whose balance transaction, if any, leaves no gap. */
  lemma PlainStepKeepsDrifts(s: State, s': State, op: Option<P.Op>, entry: Option<Audit>)
    requires Drifts(s) && s'.audit == s.audit + AsSeq(entry) && NotStale(entry)
    requires if op == None then s'.points == s.points
             else P.Gap(op.value) == 0 && P.Perform(s.points, op.value) == Success(s'.points)
    ensures Drifts(s')
  {
    forall u ensures P.Drift(s'.points, u) == Sum(s'.audit, StaleFor(u)) {
      assert P.Drift(s.points, u) == Sum(s.audit, StaleFor(u));
      PlainStepDrifts(s, s', op, entry, u);
    }
    assert P.Drift(s.points, 0) == Sum(s.audit, StaleFor(0));
    PlainStepDrifts(s, s', op, entry, 0);
  }

  /** The balance transaction a handler step commits. */
  lemma HandlerOp(s: State, i: nat, fails: bool, late: bool, now: int) returns (op: Option<P.Op>)
    requires i < |s.tasks|
    ensures var s' := HandleTask(s, i, fails, late, now);
            if op == None then s'.points == s.points
            else P.Gap(op.value) == 0 && P.Perform(s.points, op.value) == Success(s'.points)
  {
    var p := s.tasks[i].p;
    if HandleTask(s, i, fails, late, now).points == s.points {
      op := None;
    } else if s.tasks[i].Executing? {
      op := Some(P.UseOp(p.user, p.amount, Some(p.tx)));
    } else {
      op := Some(P.RefundOp(p.user, p.amount, Some(p.tx)));
    }
  }

  lemma MovesAreNotStale(t: Task, t': Task, row: Option<HistoryRow>, entry: Option<Audit>)
    requires Moves(t, t', row, entry)
    ensures NotStale(entry)
  {
  }

  lemma HandlerKeepsDrifts(s: State, i: nat, fails: bool, late: bool, now: int)
    requires Drifts(s) && i < |s.tasks|
    ensures Drifts(HandleTask(s, i, fails, late, now))
  {
    var row, entry := HandlerMoves(s, i, fails, late, now);
    var op := HandlerOp(s, i, fails, late, now);
    MovesAreNotStale(s.tasks[i], HandleTask(s, i, fails, late, now).tasks[i], row, entry);
    PlainStepKeepsDrifts(s, HandleTask(s, i, fails, late, now), op, entry);
  }

  lemma ChargeDrifts(points: P.Store, audit: seq<Audit>, user: int, amount: int, gap: int, u: int)
    requires P.ChargeTx(points, user, amount, gap).Success?
    requires P.Drift(points, u) == Sum(audit, StaleFor(u)) && P.TotalDrift(points) == Sum(audit, StaleBy)
    ensures var points', audit' := P.ChargeTx(points, user, amount, gap).value, audit + [Stale(user, gap)];
            P.Drift(points', u) == Sum(audit', StaleFor(u)) && P.TotalDrift(points') == Sum(audit', StaleBy)
  {
    P.PerformDrifts(points, P.ChargeOp(user, amount, gap), u);
    SumAppend(audit, Stale(user, gap), StaleFor(u));
    SumAppend(audit, Stale(user, gap), StaleBy);
  }

  lemma ChargeKeepsDrifts(s: State, user: int, amount: int, gap: int, fails: bool)
    requires Drifts(s)
    ensures Drifts(HandleCharge(s, user, amount, gap, fails))
  {
    var s' := HandleCharge(s, user, amount, gap, fails);
    if s' != s {
      forall u ensures P.Drift(s'.points, u) == Sum(s'.audit, StaleFor(u)) {
        ChargeDrifts(s.points, s.audit, user, amount, gap, u);
      }
      ChargeDrifts(s.points, s.audit, user, amount, gap, user);
    }
  }

  lemma NextKeepsDrifts(s: State, a: Action)
    requires Drifts(s)
    ensures Drifts(Next(s, a))
  {
    match a
    case Charge(user, amount, gap, fails) => ChargeKeepsDrifts(s, user, amount, gap, fails);
    case Spend(user, amount, fails) =>
      var op := P.UseOp(user, amount, None);
      PlainStepKeepsDrifts(s, Next(s, a), if Next(s, a) == s then None else Some(op), None);
    case Handle(i, fails, late, now) =>
      if i < |s.tasks| {
        HandlerKeepsDrifts(s, i, fails, late, now);
      }
    case _ => PlainStepKeepsDrifts(s, Next(s, a), None, None);
  }

  lemma {:induction false} RunKeepsDrifts(seats: map<int, SeatRow>, actions: seq<Action>)
    ensures Drifts(Run(Initial(seats), actions))
  {
    if actions != [] {
      RunKeepsDrifts(seats, actions[..|actions| - 1]);
      NextKeepsDrifts(Run(Initial(seats), actions[..|actions| - 1]), actions[|actions| - 1]);
    }
  }

  /** Every balance is charges minus uses plus refunds over its history, plus the gaps
      its charges left; the ledger holds if and only if no user's gaps add up. */
  lemma LedgerHoldsExactlyWhen(s: State)
    requires Reachable(s)
    ensures forall u :: P.Drift(s.points, u) == Sum(s.audit, StaleFor(u))
    ensures P.Ledger(s.points) <==> forall u :: Sum(s.audit, StaleFor(u)) == 0
  {
    var seats, actions :| AllAvailable(seats) && s == Run(Initial(seats), actions);
    RunKeepsDrifts(seats, actions);
    if forall u :: Sum(s.audit, StaleFor(u)) == 0 {
      SumIsZeroByKey(s.audit, (a: Audit) => if a.Stale? then a.user else 0, StaleBy, StaleFor);
    } else {
      var u :| Sum(s.audit, StaleFor(u)) != 0;
      assert P.Drift(s.points, u) != 0;
    }
  }

  // ---------- conservation of money ----------

  const AMOUNT: Weight := (tx, amount) => amount

  function Charged(h: HistoryRow): int {
    if h.kind.Charge? then h.amount else 0
  }

  /** Outflow of the old endpoint, and nothing else: no refund is untagged. */
  function Spent(h: HistoryRow): int {
    if h.tx.Some? then 0 else match h.kind case Use => h.amount case Refund => -h.amount case Charge => 0
  }

  function Revenue(r: ReservationRow): int {
    if r.status == Confirmed then r.price else 0
  }

  function InFlight(t: Task): int {
    if Holding(t) then t.p.amount else 0
  }

  lemma HistorySplits(h: seq<HistoryRow>)
    requires forall i :: 0 <= i < |h| && h[i].kind.Charge? ==> h[i].tx.None?
    ensures Sum(h, P.Signed) == Sum(h, Charged) - Sum(h, Spent) - Sum(h, NetUse(AMOUNT))
  {
    SumSplits(h, P.Signed, Charged, Spent, NetUse(AMOUNT));
  }

  ghost predicate ChargesUntagged(s: State) {
    forall i :: 0 <= i < |s.points.history| && s.points.history[i].kind.Charge? ==> s.points.history[i].tx.None?
  }

  lemma NextKeepsChargesUntagged(s: State, a: Action)
    requires ChargesUntagged(s)
    ensures ChargesUntagged(Next(s, a))
  {
    if a.Handle? && a.i < |s.tasks| {
      HandlerKeepsChargesUntagged(s, a.i, a.fails, a.late, a.now);
    }
  }

  lemma HandlerKeepsChargesUntagged(s: State, i: nat, fails: bool, late: bool, now: int)
    requires ChargesUntagged(s) && i < |s.tasks|
    ensures ChargesUntagged(HandleTask(s, i, fails, late, now))
  {
    var row, entry := HandlerMoves(s, i, fails, late, now);
  }

  lemma {:induction false} RunKeepsChargesUntagged(seats: map<int, SeatRow>, actions: seq<Action>)
    ensures ChargesUntagged(Run(Initial(seats), actions))
  {
    if actions != [] {
      RunKeepsChargesUntagged(seats, actions[..|actions| - 1]);
      NextKeepsChargesUntagged(Run(Initial(seats), actions[..|actions| - 1]), actions[|actions| - 1]);
    }
  }

  lemma ReachableChargesUntagged(s: State)
    requires Reachable(s)
    ensures ChargesUntagged(s)
  {
    var seats, actions :| AllAvailable(seats) && s == Run(Initial(seats), actions);
    RunKeepsChargesUntagged(seats, actions);
  }

  /** Money is conserved in every reachable state: what users have, plus what is
      deducted but neither confirmed nor refunded, plus the prices of the CONFIRMED
      reservations, is what was charged minus what the old endpoint spent. Errors
      after a commit move money between the payer and nobody, by `slips`; charges that
      overwrite a balance they have not read create or destroy it, by `gaps`. */
  lemma MoneyIsConserved(s: State)
    requires Reachable(s)
    ensures var slips, gaps := Sum(s.audit, Slip(AMOUNT)), Sum(s.audit, StaleBy);
            Total(s.points.balances) + Sum(s.tasks, InFlight) + Sum(s.booking.reservations, Revenue) + slips
            == Sum(s.points.history, Charged) - Sum(s.points.history, Spent) + gaps
  {
    var seats, actions :| AllAvailable(seats) && s == Run(Initial(seats), actions);
    RunKeepsDrifts(seats, actions);
    ReachableIsInv(s);
    ReachableIsBalanced(s, AMOUNT);
    ReachableChargesUntagged(s);
    HistorySplits(s.points.history);
    SumsAgree(s.tasks, InFlight, Held(AMOUNT));
    forall r | 0 <= r < |s.booking.reservations|
      ensures Revenue(s.booking.reservations[r]) == Earned(AMOUNT)(s.booking.reservations[r])
    {
      assert B.RowOk(s.booking, s.booking.reservations[r]);
    }
    SumsAgree(s.booking.reservations, Revenue, Earned(AMOUNT));
  }

  // ---------- exactly one payment ----------

  /** Counts one payment. */
  function One(tx: TxId): Weight {
    (t, amount) => if t == tx then 1 else 0
  }

  /** Deductions minus refunds of one payment. */
  function Net(s: State, tx: TxId): int {
    Sum(s.points.history, NetUse(One(tx)))
  }

  predicate PaidFor(s: State, p: Payload) {
    && p.reservation < |s.booking.reservations|
    && s.booking.reservations[p.reservation].paidAt.Some?
    && s.booking.reservations[p.reservation].paidAt.value.tx == p.tx
  }

  /** What a payment earned shows in one reservation: the one it was requested for. */
  lemma EarnedByOnePayment(s: State, i: nat)
    requires Inv(s) && i < |s.tasks|
    ensures Sum(s.booking.reservations, Earned(One(s.tasks[i].p.tx))) == if PaidFor(s, s.tasks[i].p) then 1 else 0
  {
    var p := s.tasks[i].p;
    assert TaskOk(s, s.tasks[i]);
    forall r | 0 <= r < |s.booking.reservations| && r != p.reservation
      ensures Earned(One(p.tx))(s.booking.reservations[r]) == 0
    {
      PayerIsUnique(s, i, r);
    }
    SumIsOne(s.booking.reservations, p.reservation, Earned(One(p.tx)));
  }

  lemma PayerIsUnique(s: State, i: nat, r: nat)
    requires Inv(s) && i < |s.tasks| && r < |s.booking.reservations|
    ensures s.booking.reservations[r].paidAt.Some? && s.booking.reservations[r].paidAt.value.tx == s.tasks[i].p.tx
            ==> r == s.tasks[i].p.reservation
  {
    if s.booking.reservations[r].paidAt.Some? && s.booking.reservations[r].paidAt.value.tx == s.tasks[i].p.tx {
      var j :| 0 <= j < |s.tasks| && s.tasks[j].p.tx == s.tasks[i].p.tx && s.tasks[j].p.reservation == r;
    }
  }

  /** The account of payment p, up to errors after a commit. */
  ghost predicate AccountedFor(s: State, p: Payload) {
    Net(s, p.tx) == Sum(s.tasks, Held(One(p.tx))) + (if PaidFor(s, p) then 1 else 0) + Sum(s.audit, Slip(One(p.tx)))
  }

  /** In every reachable state, a payment is deducted once more than refunded while
      a message or handler holds it and once it has confirmed its reservation, and
      not otherwise, up to the errors after a commit that struck this payment. */
  lemma PaymentIsAccountedFor(s: State, i: nat)
    requires Reachable(s) && i < |s.tasks|
    ensures AccountedFor(s, s.tasks[i].p)
  {
    ReachableIsInv(s);
    ReachableIsBalanced(s, One(s.tasks[i].p.tx));
    EarnedByOnePayment(s, i);
  }

  predicate NoSlip(s: State, tx: TxId) {
    forall i :: 0 <= i < |s.audit| ==> Slip(One(tx))(s.audit[i]) == 0
  }

  lemma DrainedAccount(s: State, p: Payload)
    requires AccountedFor(s, p) && Quiescent(s)
    ensures Net(s, p.tx) == (if PaidFor(s, p) then 1 else 0) + Sum(s.audit, Slip(One(p.tx)))
    ensures NoSlip(s, p.tx) ==> Sum(s.audit, Slip(One(p.tx))) == 0
  {
    forall i | 0 <= i < |s.tasks| ensures Held(One(p.tx))(s.tasks[i]) == 0 {
      HeldBy(s.tasks[i], One(p.tx));
    }
    SumIsZero(s.tasks, Held(One(p.tx)));
    if NoSlip(s, p.tx) {
      SumIsZero(s.audit, Slip(One(p.tx)));
    }
  }

  /** Once its messages have drained, a payment is settled exactly once (deducted
      and kept if it confirmed its reservation, otherwise fully undone) if and only
      if the errors after a commit that struck it cancel out; in particular if there
      were none. */
  lemma SettledExactlyWhen(s: State, i: nat)
    requires Reachable(s) && Quiescent(s) && i < |s.tasks|
    ensures var p := s.tasks[i].p;
            var once := Net(s, p.tx) == if PaidFor(s, p) then 1 else 0;
            (once <==> Sum(s.audit, Slip(One(p.tx))) == 0) && (NoSlip(s, p.tx) ==> once)
  {
    PaymentIsAccountedFor(s, i);
    DrainedAccount(s, s.tasks[i].p);
  }

  /** Reservation r is CONFIRMED exactly if some payment requested for it paid, and of
      all payments requested for it that one is deducted and not refunded, and no other. */
  ghost predicate PaidOnce(s: State, r: nat)
    requires r < |s.booking.reservations|
  {
    var row := s.booking.reservations[r];
    && (row.status == Confirmed <==> row.paidAt.Some?)
    && (row.paidAt.Some? ==> IssuedFor(s.tasks, row.paidAt.value.tx, r))
    && forall i :: 0 <= i < |s.tasks| && s.tasks[i].p.reservation == r ==>
         Net(s, s.tasks[i].p.tx) == if row.paidAt.Some? && row.paidAt.value.tx == s.tasks[i].p.tx then 1 else 0
  }

  /** With no saga message in flight and no error after a commit, every CONFIRMED
      reservation has exactly one deducted and unrefunded payment, and every other
      reservation has none, however many requests competed for it. */
  lemma ExactlyOnePayment(s: State, r: nat)
    requires Reachable(s) && Quiescent(s) && r < |s.booking.reservations|
    requires forall i :: 0 <= i < |s.tasks| ==> NoSlip(s, s.tasks[i].p.tx)
    ensures PaidOnce(s, r)
  {
    ReachableIsInv(s);
    assert B.RowOk(s.booking, s.booking.reservations[r]);
    forall i | 0 <= i < |s.tasks| && s.tasks[i].p.reservation == r
      ensures Net(s, s.tasks[i].p.tx) == if PaidFor(s, s.tasks[i].p) then 1 else 0
    {
      assert NoSlip(s, s.tasks[i].p.tx);
      SettledExactlyWhen(s, i);
    }
  }

  // ---------- why errors after a commit matter ----------

  /** An error after the deduction committed (deleting the lock or the token, say)
      makes the retry charge the same payment again. */
  lemma LostPaymentIsChargedAgain(s: State, i: nat)
    requires i < |s.tasks| && s.tasks[i].Paid? && s.tasks[i].attempt < MAX_RETRY
    requires s.tasks[i].p.tx in s.payments
    requires s.tasks[i].p.user in s.points.balances && s.points.balances[s.tasks[i].p.user] >= s.tasks[i].p.amount
    ensures var s1 := HandlePaid(s, i, true);                 // the error
            var s2 := HandleAttemptFailed(s1, i, false);      // marked for retry
            var s3 := HandleRetry(s2, i);                     // after the backoff
            var s4 := HandleExecuting(s3, i, false);          // deducted again
            && s4.tasks[i].Paid? && s4.tasks[i].p == s.tasks[i].p
            && s4.points.balances[s.tasks[i].p.user] == s.points.balances[s.tasks[i].p.user] - s.tasks[i].p.amount
            && Net(s4, s.tasks[i].p.tx) == Net(s, s.tasks[i].p.tx) + 1
  {
    var p := s.tasks[i].p;
    SumAppend(s.points.history, HistoryRow(p.user, Use, p.amount, Some(p.tx)), NetUse(One(p.tx)));
  }

  /** An error after the confirmation committed (updating the ranking, say) refunds
      a CONFIRMED reservation. */
  lemma GiftedReservationIsRefunded(s: State, i: nat)
    requires i < |s.tasks| && s.tasks[i].SuccessEvent?
    requires s.tasks[i].p.tx in s.payments && s.tasks[i].p.user in s.points.balances
    requires B.Confirm(s.booking, s.tasks[i].p.reservation, Stamp(0, s.tasks[i].p.tx)).Success?
    ensures var s1 := HandleSuccess(s, i, false, true, 0);         // confirmed, then the error
            var s2 := HandleReservationFailure(s1, i, false);      // marked CANCEL
            var s3 := HandleCancel(s2, i, false);                  // refunded
            && s3.tasks[i].Done?
            && s3.booking.reservations[s.tasks[i].p.reservation].status == Confirmed
            && s3.points.balances[s.tasks[i].p.user] == s.points.balances[s.tasks[i].p.user] + s.tasks[i].p.amount
  {
  }
}

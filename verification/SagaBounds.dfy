/** How often a payment is attempted, deducted and refunded, how long it waits, what
    its status tells about it, and that the saga drains. */
module SagaBounds {
  import opened Tables
  import opened Sums
  import opened Saga
  import opened SagaInvariant
  import P = Points
  import B = Booking

  // ---------- counting per payment ----------

  function IsRow(tx: TxId, kind: HistoryKind): HistoryRow -> int {
    (h: HistoryRow) => if h.tx == Some(tx) && h.kind == kind then 1 else 0
  }

  function IsAttempt(tx: TxId): Audit -> int {
    (a: Audit) => if a == Attempt(tx) then 1 else 0
  }

  function IsLoss(tx: TxId): Audit -> int {
    (a: Audit) => if a.Lost? && a.tx == tx then 1 else 0
  }

  function IsRestart(tx: TxId): Audit -> int {
    (a: Audit) => if a == Restart(tx) then 1 else 0
  }

  function WaitFor(tx: TxId): Audit -> int {
    (a: Audit) => if a.Backoff? && a.tx == tx then a.ms else 0
  }

  datatype Tally = Tally(uses: int, refunds: int, attempts: int, waited: int, losses: int, restarts: int)

  predicate IsZero(y: Tally) {
    y.uses == 0 && y.refunds == 0 && y.attempts == 0 && y.waited == 0 && y.losses == 0 && y.restarts == 0
  }

  function TallyOf(s: State, tx: TxId): Tally {
    Tally(Sum(s.points.history, IsRow(tx, Use)), Sum(s.points.history, IsRow(tx, Refund)),
          Sum(s.audit, IsAttempt(tx)), Sum(s.audit, WaitFor(tx)), Sum(s.audit, IsLoss(tx)), Sum(s.audit, IsRestart(tx)))
  }

  /** What one history row and one audit entry, if any, add to the tally. */
  function Adds(tx: TxId, row: Option<HistoryRow>, entry: Option<Audit>): Tally {
    Tally(if row.Some? && row.value.tx == Some(tx) && row.value.kind == Use then 1 else 0,
          if row.Some? && row.value.tx == Some(tx) && row.value.kind == Refund then 1 else 0,
          if entry == Some(Attempt(tx)) then 1 else 0,
          if entry.Some? && entry.value.Backoff? && entry.value.tx == tx then entry.value.ms else 0,
          if entry.Some? && entry.value.Lost? && entry.value.tx == tx then 1 else 0,
          if entry == Some(Restart(tx)) then 1 else 0)
  }

  function Plus(y: Tally, d: Tally): Tally {
    Tally(y.uses + d.uses, y.refunds + d.refunds, y.attempts + d.attempts, y.waited + d.waited, y.losses + d.losses,
          y.restarts + d.restarts)
  }

  lemma TallyShifts(s: State, s': State, row: Option<HistoryRow>, entry: Option<Audit>, tx: TxId)
    requires s'.points.history == s.points.history + AsSeq(row) && s'.audit == s.audit + AsSeq(entry)
    ensures TallyOf(s', tx) == Plus(TallyOf(s, tx), Adds(tx, row, entry))
  {
    SumAppendsAny(s.points.history, row, IsRow(tx, Use));
    SumAppendsAny(s.points.history, row, IsRow(tx, Refund));
    SumAppendsAny(s.audit, entry, IsAttempt(tx));
    SumAppendsAny(s.audit, entry, WaitFor(tx));
    SumAppendsAny(s.audit, entry, IsLoss(tx));
    SumAppendsAny(s.audit, entry, IsRestart(tx));
  }

  lemma RestartsAreCounted(audit: seq<Audit>, tx: TxId)
    ensures Sum(audit, IsRestart(tx)) >= 0
    ensures Sum(audit, IsRestart(tx)) == 0 <==> !Restarted(audit, tx)
  {
    SumIsNonNegative(audit, IsRestart(tx));
    if Restarted(audit, tx) {
      var k :| 0 <= k < |audit| && audit[k] == Restart(tx);
      SumAtLeast(audit, k, IsRestart(tx));
    } else {
      SumIsZero(audit, IsRestart(tx));
    }
  }

  // ---------- backoffs ----------

  /** The backoff behind a payment after k retries. */
  function WaitedAfter(k: nat): nat {
    Pow2Positive(k);
    (Pow2(k) - 1) * BACKOFF_MS
  }

  lemma NextWait(k: nat)
    requires k >= 1
    ensures WaitedAfter(k) == WaitedAfter(k - 1) + Delay(k)
  {
  }

  lemma {:induction false} Pow2Positive(n: nat)
    ensures Pow2(n) >= 1
  {
    if n > 0 {
      Pow2Positive(n - 1);
    }
  }

  /** Backoffs 1 to n add up to (2^n - 1) times the first. */
  lemma {:induction false} BackoffTotal(n: nat, delays: seq<nat>)
    requires |delays| == n && forall k :: 0 <= k < n ==> delays[k] == Delay(k + 1)
    ensures Sum(delays, (d: nat) => d) == (Pow2(n) - 1) * BACKOFF_MS == WaitedAfter(n)
  {
    if n > 0 {
      BackoffTotal(n - 1, delays[..n - 1]);
      NextWait(n);
    }
  }

  const MAX_WAIT := 7000

  /** The same for the three retries there are. */
  function WaitedBy(k: nat): nat {
    if k == 0 then 0 else if k == 1 then 1000 else if k == 2 then 3000 else MAX_WAIT
  }

  lemma WaitedByIsWaitedAfter(k: nat)
    requires k <= MAX_RETRY
    ensures WaitedBy(k) == WaitedAfter(k)
    ensures k >= 1 ==> WaitedBy(k) == WaitedBy(k - 1) + Delay(k)
  {
    assert Pow2(1) == 2 && Pow2(2) == 4 && Pow2(3) == 8;
  }

  // ---------- the bounded saga ----------

  /** What a task may still do for its payment: attempts, waiting and deductions to
      come, whether it is live and whether it holds a deduction. */
  datatype Stake = Stake(attempts: int, waits: int, uses: int, live: int, held: int)

  function StakeOf(t: Task): Stake {
    match t
    case Executing(_, k) => Stake(MAX_RETRY + 1 - k, MAX_WAIT - WaitedBy(k), 1, 1, 0)
    case Paid(_, k) => Stake(MAX_RETRY - k, MAX_WAIT - WaitedBy(k), 0, 1, 1)
    case AttemptFailed(_, k) => Stake(MAX_RETRY - k, MAX_WAIT - WaitedBy(k), 1, 1, 0)
    case RetryEvent(_, k) => Stake(MAX_RETRY + 1 - k, MAX_WAIT - (if k >= 1 then WaitedBy(k - 1) else 0), 1, 1, 0)
    case TryEvent(_) => Stake(0, 0, 0, 0, 0)
    case Done(_) => Stake(0, 0, 0, 0, 0)
    case _ => Stake(0, 0, 0, 1, 1)
  }

  datatype Part = Attempts | Waits | Uses | Alive | Holds

  function PartOf(k: Stake, part: Part): int {
    match part
    case Attempts => k.attempts
    case Waits => k.waits
    case Uses => k.uses
    case Alive => k.live
    case Holds => k.held
  }

  function Staked(tx: TxId, part: Part): Task -> int {
    (t: Task) => if t.p.tx == tx then PartOf(StakeOf(t), part) else 0
  }

  /** All stakes in one payment. */
  function Stakes(tasks: seq<Task>, tx: TxId): Stake {
    Stake(Sum(tasks, Staked(tx, Attempts)), Sum(tasks, Staked(tx, Waits)), Sum(tasks, Staked(tx, Uses)),
          Sum(tasks, Staked(tx, Alive)), Sum(tasks, Staked(tx, Holds)))
  }

  /** k with a replaced by b. */
  function Swap(k: Stake, a: Stake, b: Stake): Stake {
    Stake(k.attempts - a.attempts + b.attempts, k.waits - a.waits + b.waits, k.uses - a.uses + b.uses,
          k.live - a.live + b.live, k.held - a.held + b.held)
  }

  /** A row is worth one try and three retries, a restart three retries; a deduction is
      held, refunded, lost, or settled. */
  predicate Within(y: Tally, k: Stake, row: int) {
    && y.attempts + k.attempts <= 4 * row + 3 * y.restarts
    && y.waited + k.waits <= 7000 * (row + y.restarts)
    && y.uses + k.uses <= row + y.restarts + y.losses
    && k.live <= row + y.restarts
    && y.refunds + k.held <= y.uses - y.losses
  }

  function RowCount(s: State, tx: TxId): int {
    if tx in s.payments then 1 else 0
  }

  ghost predicate Budgeted(s: State) {
    forall tx :: Within(TallyOf(s, tx), Stakes(s.tasks, tx), RowCount(s, tx))
  }

  function RowOf(s: State, tx: TxId): Option<PaymentRow> {
    if tx in s.payments then Some(s.payments[tx]) else None
  }

  /** What a handler step that turns t into t' does to the payment's row. */
  predicate RowMoves(t: Task, t': Task, row: Option<PaymentRow>, row': Option<PaymentRow>) {
    match t
    case TryEvent(p) =>
      if t'.Executing? then row == None && row' == Some(PaymentRow(p.user, p.seat, PaymentPending, 0))
      else if t'.RetryEvent? then row.Some? && row' == Some(row.value.(status := PaymentRetrying, retryCount := 1))
      else row' == row
    case AttemptFailed(_, k) =>
      if t'.RetryEvent? then row.Some? && row' == Some(row.value.(status := PaymentRetrying, retryCount := k + 1))
      else row' == row || (k >= MAX_RETRY && row.Some? && row' == Some(row.value.(status := PaymentFailure)))
    case ReservationFailureEvent(_) =>
      if t'.CancelEvent? then row.Some? && row' == Some(row.value.(status := PaymentCancel)) else row' == row
    case _ => row' == row
  }

  lemma HandlerMovesRow(s: State, i: nat, fails: bool, late: bool, now: int)
    requires i < |s.tasks|
    ensures var s', tx := HandleTask(s, i, fails, late, now), s.tasks[i].p.tx;
            && |s'.tasks| == |s.tasks| && RowMoves(s.tasks[i], s'.tasks[i], RowOf(s, tx), RowOf(s', tx))
            && forall o :: o != tx ==> RowOf(s', o) == RowOf(s, o)
  {
  }

  /** What one move adds to the tally, to the stakes and to the rows is within budget. */
  ghost predicate MoveWithin(t: Task, t': Task, row: Option<HistoryRow>, entry: Option<Audit>, rows: int) {
    var d, a, b := Adds(t.p.tx, row, entry), StakeOf(t), StakeOf(t');
    && d.attempts + b.attempts <= a.attempts + 4 * rows + 3 * d.restarts
    && d.waited + b.waits <= a.waits + 7000 * (rows + d.restarts)
    && d.uses + b.uses <= a.uses + rows + d.restarts + d.losses
    && b.live <= a.live + rows + d.restarts
    && d.refunds + b.held <= a.held + d.uses - d.losses
  }

  lemma TryIsWithin(t: Task, t': Task, row: Option<HistoryRow>, entry: Option<Audit>)
    requires Moves(t, t', row, entry) && t.TryEvent?
    ensures MoveWithin(t, t', row, entry, if t'.Executing? then 1 else 0)
  {
  }

  lemma AttemptIsWithin(t: Task, t': Task, row: Option<HistoryRow>, entry: Option<Audit>)
    requires Moves(t, t', row, entry) && AttemptOk(t) && (t.Executing? || t.AttemptFailed? || t.Paid?)
    ensures MoveWithin(t, t', row, entry, 0)
  {
  }

  lemma BackoffIsWithin(t: Task, t': Task, row: Option<HistoryRow>, entry: Option<Audit>)
    requires Moves(t, t', row, entry) && AttemptOk(t) && t.RetryEvent?
    ensures MoveWithin(t, t', row, entry, 0)
  {
    WaitedByIsWaitedAfter(t.attempt);
  }

  lemma SettlingIsWithin(t: Task, t': Task, row: Option<HistoryRow>, entry: Option<Audit>)
    requires Moves(t, t', row, entry)
    requires t.SuccessEvent? || t.ReservationFailureEvent? || t.CancelEvent? || t.Done?
    ensures MoveWithin(t, t', row, entry, 0)
  {
  }

  lemma EveryMoveIsWithin(t: Task, t': Task, row: Option<HistoryRow>, entry: Option<Audit>)
    requires Moves(t, t', row, entry) && AttemptOk(t)
    ensures MoveWithin(t, t', row, entry, if t.TryEvent? && t'.Executing? then 1 else 0)
  {
    if t.TryEvent? {
      TryIsWithin(t, t', row, entry);
    } else if t.Executing? || t.AttemptFailed? || t.Paid? {
      AttemptIsWithin(t, t', row, entry);
    } else if t.RetryEvent? {
      BackoffIsWithin(t, t', row, entry);
    } else {
      SettlingIsWithin(t, t', row, entry);
    }
  }

  lemma WithinAddsUp(y: Tally, k: Stake, rows: int, t: Task, t': Task, row: Option<HistoryRow>, entry: Option<Audit>,
                     more: int)
    requires Within(y, k, rows) && MoveWithin(t, t', row, entry, more)
    ensures Within(Plus(y, Adds(t.p.tx, row, entry)), Swap(k, StakeOf(t), StakeOf(t')), rows + more)
  {
  }

  /** Only the first payment.try of a payment creates its row. */
  lemma RowsMoveOnlyOnTry(t: Task, t': Task, before: Option<PaymentRow>, after: Option<PaymentRow>)
    requires RowMoves(t, t', before, after)
    ensures (if after.Some? then 1 else 0) ==
            (if before.Some? then 1 else 0) + (if t.TryEvent? && t'.Executing? then 1 else 0)
  {
  }

  lemma PutShiftsStakes(tasks: seq<Task>, i: nat, t: Task, tx: TxId)
    requires i < |tasks| && t.p == tasks[i].p
    ensures Stakes(tasks[i := t], tx) ==
            if tx == t.p.tx then Swap(Stakes(tasks, tx), StakeOf(tasks[i]), StakeOf(t)) else Stakes(tasks, tx)
  {
    SumUpdate(tasks, i, t, Staked(tx, Attempts));
    SumUpdate(tasks, i, t, Staked(tx, Waits));
    SumUpdate(tasks, i, t, Staked(tx, Uses));
    SumUpdate(tasks, i, t, Staked(tx, Alive));
    SumUpdate(tasks, i, t, Staked(tx, Holds));
  }

  lemma ForeignMoveAddsNothing(t: Task, t': Task, row: Option<HistoryRow>, entry: Option<Audit>, tx: TxId)
    requires Moves(t, t', row, entry)
    ensures t'.p == t.p && (tx != t.p.tx ==> IsZero(Adds(tx, row, entry)))
  {
  }

  lemma MovedKeepsBudget(s: State, s': State, i: nat, row: Option<HistoryRow>, entry: Option<Audit>, tx: TxId)
    requires Moved(s, s', i, row, entry) && AttemptOk(s.tasks[i])
    requires var own := s.tasks[i].p.tx;
             && RowMoves(s.tasks[i], s'.tasks[i], RowOf(s, own), RowOf(s', own))
             && (tx != own ==> RowOf(s', tx) == RowOf(s, tx))
    requires Within(TallyOf(s, tx), Stakes(s.tasks, tx), RowCount(s, tx))
    ensures Within(TallyOf(s', tx), Stakes(s'.tasks, tx), RowCount(s', tx))
  {
    var t, t' := s.tasks[i], s'.tasks[i];
    ForeignMoveAddsNothing(t, t', row, entry, tx);
    TallyShifts(s, s', row, entry, tx);
    PutShiftsStakes(s.tasks, i, t', tx);
    if tx == t.p.tx {
      EveryMoveIsWithin(t, t', row, entry);
      RowsMoveOnlyOnTry(t, t', RowOf(s, tx), RowOf(s', tx));
      WithinAddsUp(TallyOf(s, tx), Stakes(s.tasks, tx), RowCount(s, tx), t, t', row, entry,
                   if t.TryEvent? && t'.Executing? then 1 else 0);
    }
  }

  lemma HandleKeepsBudget(s: State, i: nat, fails: bool, late: bool, now: int)
    requires i < |s.tasks| && TaskOk(s, s.tasks[i]) && Budgeted(s)
    ensures Budgeted(HandleTask(s, i, fails, late, now))
  {
    var row, entry := HandlerMoves(s, i, fails, late, now);
    var s' := HandleTask(s, i, fails, late, now);
    HandlerMovesRow(s, i, fails, late, now);
    forall tx ensures Within(TallyOf(s', tx), Stakes(s'.tasks, tx), RowCount(s', tx)) {
      MovedKeepsBudget(s, s', i, row, entry, tx);
    }
  }

  lemma PublishKeepsStakes(tasks: seq<Task>, p: Payload, tx: TxId)
    ensures Stakes(tasks + [TryEvent(p)], tx) == Stakes(tasks, tx)
  {
    SumAppend(tasks, TryEvent(p), Staked(tx, Attempts));
    SumAppend(tasks, TryEvent(p), Staked(tx, Waits));
    SumAppend(tasks, TryEvent(p), Staked(tx, Uses));
    SumAppend(tasks, TryEvent(p), Staked(tx, Alive));
    SumAppend(tasks, TryEvent(p), Staked(tx, Holds));
  }

  /** A step that is not a handler's: at most a new payment.try, no tagged row, and no
      audit entry but a charge's. */
  ghost predicate Outside(s: State, s': State, row: Option<HistoryRow>, entry: Option<Audit>) {
    && s'.payments == s.payments
    && (s'.tasks == s.tasks || exists p :: s'.tasks == s.tasks + [TryEvent(p)])
    && s'.points.history == s.points.history + AsSeq(row) && (row.Some? ==> row.value.tx.None?)
    && s'.audit == s.audit + AsSeq(entry) && (entry.Some? ==> entry.value.Stale?)
  }

  lemma OutsideStep(s: State, a: Action) returns (row: Option<HistoryRow>, entry: Option<Audit>)
    requires !a.Handle?
    ensures Outside(s, Next(s, a), row, entry)
  {
    row := Added(s.points.history, Next(s, a).points.history);
    entry := Added(s.audit, Next(s, a).audit);
    if Next(s, a).tasks != s.tasks {
      assert Next(s, a).tasks == s.tasks + [TryEvent(Next(s, a).tasks[|s.tasks|].p)];
    }
  }

  lemma OutsideKeepsTally(s: State, s': State, row: Option<HistoryRow>, entry: Option<Audit>, tx: TxId)
    requires Outside(s, s', row, entry)
    ensures TallyOf(s', tx) == TallyOf(s, tx) && Stakes(s'.tasks, tx) == Stakes(s.tasks, tx)
  {
    TallyShifts(s, s', row, entry, tx);
    assert IsZero(Adds(tx, row, entry));
    if s'.tasks != s.tasks {
      var p :| s'.tasks == s.tasks + [TryEvent(p)];
      PublishKeepsStakes(s.tasks, p, tx);
    }
  }

  lemma NextKeepsBudget(s: State, a: Action)
    requires TasksOk(s) && Budgeted(s)
    ensures Budgeted(Next(s, a))
  {
    if !a.Handle? {
      var row, entry := OutsideStep(s, a);
      forall tx ensures Within(TallyOf(Next(s, a), tx), Stakes(Next(s, a).tasks, tx), RowCount(Next(s, a), tx)) {
        OutsideKeepsTally(s, Next(s, a), row, entry, tx);
        assert Within(TallyOf(s, tx), Stakes(s.tasks, tx), RowCount(s, tx));
      }
    } else if a.i < |s.tasks| {
      assert TaskOk(s, s.tasks[a.i]);
      HandleKeepsBudget(s, a.i, a.fails, a.late, a.now);
    }
  }

  lemma {:induction false} RunKeepsBudget(seats: map<int, SeatRow>, actions: seq<Action>)
    requires AllAvailable(seats)
    ensures Budgeted(Run(Initial(seats), actions))
  {
    if actions != [] {
      RunKeepsInv(seats, actions[..|actions| - 1]);
      RunKeepsBudget(seats, actions[..|actions| - 1]);
      NextKeepsBudget(Run(Initial(seats), actions[..|actions| - 1]), actions[|actions| - 1]);
    }
  }

  lemma StakesAreNonNegative(s: State, tx: TxId)
    requires TasksOk(s)
    ensures var k := Stakes(s.tasks, tx); k.attempts >= 0 && k.waits >= 0 && k.uses >= 0 && k.live >= 0 && k.held >= 0
  {
    forall i | 0 <= i < |s.tasks|
      ensures var k := StakeOf(s.tasks[i]); k.attempts >= 0 && k.waits >= 0 && k.uses >= 0 && k.live >= 0 && k.held >= 0
    {
      assert TaskOk(s, s.tasks[i]);
    }
    SumIsNonNegative(s.tasks, Staked(tx, Attempts));
    SumIsNonNegative(s.tasks, Staked(tx, Waits));
    SumIsNonNegative(s.tasks, Staked(tx, Uses));
    SumIsNonNegative(s.tasks, Staked(tx, Alive));
    SumIsNonNegative(s.tasks, Staked(tx, Holds));
  }

  lemma CountsAreNonNegative(s: State, tx: TxId)
    ensures TallyOf(s, tx).refunds >= 0 && TallyOf(s, tx).losses >= 0 && TallyOf(s, tx).restarts >= 0
  {
    SumIsNonNegative(s.points.history, IsRow(tx, Refund));
    SumIsNonNegative(s.audit, IsLoss(tx));
    SumIsNonNegative(s.audit, IsRestart(tx));
  }

  /** The number of messages and handler runs past payment.try for one payment. */
  function LiveTasks(s: State, tx: TxId): int {
    Sum(s.tasks, IsLiveOf(tx))
  }

  function IsLiveOf(tx: TxId): Task -> int {
    (t: Task) => if t.p.tx == tx && Live(t) then 1 else 0
  }

  lemma LiveTasksAreStakes(s: State, tx: TxId)
    ensures LiveTasks(s, tx) == Stakes(s.tasks, tx).live
  {
    SumsAgree(s.tasks, IsLiveOf(tx), Staked(tx, Alive));
  }

  /** The bounded saga, in every reachable state: with r failed duplicate checks that
      restarted it, a payment is attempted at most 4 + 3r times, waits at most 7 seconds
      for retries 1 + r times, has at most 1 + r live tasks, and is deducted at most
      1 + r times plus once for each deduction that an error after its commit lost;
      deductions that were not lost are refunded at most once each. */
  lemma SagaIsBounded(s: State, tx: TxId)
    requires Reachable(s)
    ensures var y := TallyOf(s, tx);
            && y.attempts <= 4 + 3 * y.restarts
            && y.waited <= 7000 * (1 + y.restarts)
            && LiveTasks(s, tx) <= 1 + y.restarts
            && y.uses <= 1 + y.restarts + y.losses
            && 0 <= y.refunds <= y.uses - y.losses
            && 0 <= y.losses && 0 <= y.restarts
  {
    var seats, actions :| AllAvailable(seats) && s == Run(Initial(seats), actions);
    RunKeepsBudget(seats, actions);
    RunKeepsInv(seats, actions);
    StakesAreNonNegative(s, tx);
    CountsAreNonNegative(s, tx);
    LiveTasksAreStakes(s, tx);
    assert Within(TallyOf(s, tx), Stakes(s.tasks, tx), RowCount(s, tx));
  }

  // ---------- what the status tells ----------

  /** The tally of a payment that was never restarted and whose live task is t. */
  predicate TallyAt(t: Task, y: Tally) {
    && y.refunds == 0
    && y.uses == y.losses + (if Holding(t) then 1 else 0)
    && match t
       case Executing(_, k) => y.attempts == k
       case Paid(_, k) => y.attempts == k + 1
       case AttemptFailed(_, k) => y.attempts == k + 1
       case RetryEvent(_, k) => y.attempts == k
       case _ => true
  }

  /** What the row of a payment that was never restarted tells about it. */
  predicate Told(row: PaymentRow, y: Tally) {
    && (row.status == PaymentPending || row.status == PaymentRetrying ==>
          row.retryCount <= y.attempts <= row.retryCount + 1)
    && (row.status == PaymentFailure ==> y.attempts == MAX_RETRY + 1 && y.uses == y.losses && y.refunds == 0)
    && (row.status == PaymentCancel ==> y.uses == y.losses + 1)
    && (y.refunds != 0 ==> row.status == PaymentCancel)
  }

  ghost predicate TallyInv(s: State) {
    && (forall tx :: tx in s.payments && !Restarted(s.audit, tx) ==> Told(s.payments[tx], TallyOf(s, tx)))
    && (forall i :: 0 <= i < |s.tasks| && Live(s.tasks[i]) && !Restarted(s.audit, s.tasks[i].p.tx) ==>
          TallyAt(s.tasks[i], TallyOf(s, s.tasks[i].p.tx)))
    && (forall tx :: tx !in s.payments ==> IsZero(TallyOf(s, tx)))
  }

  lemma PlusZero(y: Tally, d: Tally)
    requires IsZero(d)
    ensures Plus(y, d) == y
  {
  }

  /** payment.try, unless it restarts the payment, and a finished task add nothing. */
  lemma QuietMoveAddsNothing(t: Task, t': Task, row: Option<HistoryRow>, entry: Option<Audit>)
    requires Moves(t, t', row, entry) && entry != Some(Restart(t.p.tx)) && !Live(t)
    ensures IsZero(Adds(t.p.tx, row, entry))
  {
  }

  lemma FirstMoveStartsTally(t: Task, t': Task, row: Option<HistoryRow>, entry: Option<Audit>, y: Tally)
    requires Moves(t, t', row, entry) && entry != Some(Restart(t.p.tx)) && !Live(t) && Live(t') && IsZero(y)
    ensures TallyAt(t', y)
  {
  }

  lemma LiveMoveKeepsTally(t: Task, t': Task, y: Tally, row: Option<HistoryRow>, entry: Option<Audit>)
    requires Moves(t, t', row, entry) && Live(t) && TallyAt(t, y)
    ensures Live(t') ==> TallyAt(t', Plus(y, Adds(t.p.tx, row, entry)))
  {
  }

  lemma LiveMoveKeepsTold(t: Task, t': Task, before: PaymentRow, after: Option<PaymentRow>, y: Tally,
                          row: Option<HistoryRow>, entry: Option<Audit>)
    requires Moves(t, t', row, entry) && RowMoves(t, t', Some(before), after) && Live(t)
    requires Told(before, y) && PhaseOk(t, before) && TallyAt(t, y)
    ensures after.Some? ==> Told(after.value, Plus(y, Adds(t.p.tx, row, entry)))
  {
  }

  lemma QuietMoveKeepsTold(t: Task, t': Task, before: Option<PaymentRow>, after: Option<PaymentRow>, y: Tally,
                           row: Option<HistoryRow>, entry: Option<Audit>)
    requires Moves(t, t', row, entry) && RowMoves(t, t', before, after) && entry != Some(Restart(t.p.tx)) && !Live(t)
    requires if before.Some? then Told(before.value, y) else IsZero(y)
    ensures after.Some? ==> Told(after.value, y)
  {
  }

  /** Task i moved; only its payment's tally may have changed, and only if it was live
      or the payment is restarted. */
  ghost predicate OnlyOwnTally(s: State, s': State, i: nat) {
    && i < |s.tasks| == |s'.tasks| && s'.tasks == s.tasks[i := s'.tasks[i]] && s'.tasks[i].p == s.tasks[i].p
    && (forall tx :: Restarted(s.audit, tx) ==> Restarted(s'.audit, tx))
    && (forall tx :: tx != s.tasks[i].p.tx ==> TallyOf(s', tx) == TallyOf(s, tx))
    && (!Live(s.tasks[i]) && !Restarted(s'.audit, s.tasks[i].p.tx) ==>
          TallyOf(s', s.tasks[i].p.tx) == TallyOf(s, s.tasks[i].p.tx))
  }

  lemma LiveTalliesAddUp(s: State, s': State, i: nat)
    requires TallyInv(s) && LiveApart(s.tasks, s.audit) && OnlyOwnTally(s, s', i)
    requires Live(s'.tasks[i]) && !Restarted(s'.audit, s.tasks[i].p.tx) ==>
               TallyAt(s'.tasks[i], TallyOf(s', s.tasks[i].p.tx))
    ensures forall j :: 0 <= j < |s'.tasks| && Live(s'.tasks[j]) && !Restarted(s'.audit, s'.tasks[j].p.tx) ==>
              TallyAt(s'.tasks[j], TallyOf(s', s'.tasks[j].p.tx))
  {
    forall j | 0 <= j < |s'.tasks| && Live(s'.tasks[j]) && !Restarted(s'.audit, s'.tasks[j].p.tx)
      ensures TallyAt(s'.tasks[j], TallyOf(s', s'.tasks[j].p.tx))
    {
      if j != i {
        assert TallyAt(s.tasks[j], TallyOf(s, s.tasks[j].p.tx));
        assert s.tasks[j].p.tx == s.tasks[i].p.tx ==> !Live(s.tasks[i]);
      }
    }
  }

  lemma RowTalliesAddUp(s: State, s': State, i: nat)
    requires TallyInv(s) && OnlyOwnTally(s, s', i)
    requires forall o :: o != s.tasks[i].p.tx ==> RowOf(s', o) == RowOf(s, o)
    requires var own := s.tasks[i].p.tx;
             && (own !in s'.payments ==> IsZero(TallyOf(s', own)))
             && (own in s'.payments && !Restarted(s'.audit, own) ==> Told(s'.payments[own], TallyOf(s', own)))
    ensures forall tx :: tx in s'.payments && !Restarted(s'.audit, tx) ==> Told(s'.payments[tx], TallyOf(s', tx))
    ensures forall tx :: tx !in s'.payments ==> IsZero(TallyOf(s', tx))
  {
    forall tx | tx != s.tasks[i].p.tx
      ensures TallyOf(s', tx) == TallyOf(s, tx) && RowOf(s', tx) == RowOf(s, tx)
    {
    }
  }

  /** What a move leaves of its payment's tally and row. */
  ghost predicate OwnTallyOk(s: State, s': State, i: nat)
    requires i < |s.tasks| == |s'.tasks|
  {
    var own, y, y' := s.tasks[i].p.tx, TallyOf(s, s.tasks[i].p.tx), TallyOf(s', s.tasks[i].p.tx);
    && (Live(s'.tasks[i]) ==> TallyAt(s'.tasks[i], y')) && (!Live(s.tasks[i]) ==> y' == y)
    && (if own in s'.payments then Told(s'.payments[own], y') else IsZero(y'))
  }

  lemma LiveTallyMoves(s: State, s': State, i: nat, row: Option<HistoryRow>, entry: Option<Audit>)
    requires Moved(s, s', i, row, entry) && TaskOk(s, s.tasks[i]) && TallyInv(s) && Live(s.tasks[i])
    requires RowMoves(s.tasks[i], s'.tasks[i], RowOf(s, s.tasks[i].p.tx), RowOf(s', s.tasks[i].p.tx))
    requires !Restarted(s.audit, s.tasks[i].p.tx)
    ensures OwnTallyOk(s, s', i)
  {
    var own := s.tasks[i].p.tx;
    var y := TallyOf(s, own);
    LiveMoveKeepsTally(s.tasks[i], s'.tasks[i], y, row, entry);
    LiveMoveKeepsTold(s.tasks[i], s'.tasks[i], s.payments[own], RowOf(s', own), y, row, entry);
    TallyShifts(s, s', row, entry, own);
  }

  lemma QuietTallyStays(s: State, s': State, i: nat, row: Option<HistoryRow>, entry: Option<Audit>)
    requires Moved(s, s', i, row, entry) && !Live(s.tasks[i]) && entry != Some(Restart(s.tasks[i].p.tx))
    ensures TallyOf(s', s.tasks[i].p.tx) == TallyOf(s, s.tasks[i].p.tx)
  {
    var own := s.tasks[i].p.tx;
    QuietMoveAddsNothing(s.tasks[i], s'.tasks[i], row, entry);
    TallyShifts(s, s', row, entry, own);
    PlusZero(TallyOf(s, own), Adds(own, row, entry));
  }

  lemma QuietTallyMoves(s: State, s': State, i: nat, row: Option<HistoryRow>, entry: Option<Audit>)
    requires Moved(s, s', i, row, entry) && TallyInv(s) && !Live(s.tasks[i])
    requires RowMoves(s.tasks[i], s'.tasks[i], RowOf(s, s.tasks[i].p.tx), RowOf(s', s.tasks[i].p.tx))
    requires !Restarted(s.audit, s.tasks[i].p.tx) && entry != Some(Restart(s.tasks[i].p.tx))
    ensures OwnTallyOk(s, s', i)
  {
    var own := s.tasks[i].p.tx;
    QuietTallyStays(s, s', i, row, entry);
    QuietMoveKeepsTold(s.tasks[i], s'.tasks[i], RowOf(s, own), RowOf(s', own), TallyOf(s, own), row, entry);
    if Live(s'.tasks[i]) {
      FirstMoveStartsTally(s.tasks[i], s'.tasks[i], row, entry, TallyOf(s, own));
    }
  }

  lemma OtherTalliesStay(s: State, s': State, i: nat, row: Option<HistoryRow>, entry: Option<Audit>)
    requires Moved(s, s', i, row, entry)
    ensures forall tx :: tx != s.tasks[i].p.tx ==> TallyOf(s', tx) == TallyOf(s, tx)
    ensures forall tx :: Restarted(s.audit, tx) ==> Restarted(s'.audit, tx)
  {
    forall tx | tx != s.tasks[i].p.tx ensures TallyOf(s', tx) == TallyOf(s, tx) {
      ForeignMoveAddsNothing(s.tasks[i], s'.tasks[i], row, entry, tx);
      TallyShifts(s, s', row, entry, tx);
    }
  }

  lemma MovedKeepsTally(s: State, s': State, i: nat, row: Option<HistoryRow>, entry: Option<Audit>)
    requires Moved(s, s', i, row, entry) && s'.tasks[i].p == s.tasks[i].p
    requires TaskOk(s, s.tasks[i]) && LiveApart(s.tasks, s.audit) && TallyInv(s)
    requires RowMoves(s.tasks[i], s'.tasks[i], RowOf(s, s.tasks[i].p.tx), RowOf(s', s.tasks[i].p.tx))
    requires forall o :: o != s.tasks[i].p.tx ==> RowOf(s', o) == RowOf(s, o)
    requires Restarted(s'.audit, s.tasks[i].p.tx) ==> s.tasks[i].p.tx in s'.payments
    ensures TallyInv(s')
  {
    OtherTalliesStay(s, s', i, row, entry);
    if !Restarted(s'.audit, s.tasks[i].p.tx) {
      assert !Restarted(s.audit, s.tasks[i].p.tx) && entry != Some(Restart(s.tasks[i].p.tx));
      if Live(s.tasks[i]) {
        LiveTallyMoves(s, s', i, row, entry);
      } else {
        QuietTallyMoves(s, s', i, row, entry);
      }
    }
    LiveTalliesAddUp(s, s', i);
    RowTalliesAddUp(s, s', i);
  }

  lemma RestartedHasRow(s: State, tx: TxId)
    requires TallyInv(s) && Restarted(s.audit, tx)
    ensures tx in s.payments
  {
    RestartsAreCounted(s.audit, tx);
  }

  lemma HandleKeepsTally(s: State, i: nat, fails: bool, late: bool, now: int)
    requires Local(s, i) && LiveApart(s.tasks, s.audit) && TallyInv(s)
    ensures TallyInv(HandleTask(s, i, fails, late, now))
  {
    HandlerMovesRow(s, i, fails, late, now);
    var row, entry := HandlerMoves(s, i, fails, late, now);
    var s' := HandleTask(s, i, fails, late, now);
    ForeignMoveAddsNothing(s.tasks[i], s'.tasks[i], row, entry, s.tasks[i].p.tx);
    if Restarted(s.audit, s.tasks[i].p.tx) {
      RestartedHasRow(s, s.tasks[i].p.tx);
    }
    MovedKeepsTally(s, s', i, row, entry);
  }

  lemma OutsideKeepsTallyInv(s: State, s': State, row: Option<HistoryRow>, entry: Option<Audit>)
    requires TallyInv(s) && Outside(s, s', row, entry)
    ensures TallyInv(s')
  {
    forall tx ensures TallyOf(s', tx) == TallyOf(s, tx) && (Restarted(s'.audit, tx) <==> Restarted(s.audit, tx)) {
      OutsideKeepsTally(s, s', row, entry, tx);
    }
    forall j | 0 <= j < |s'.tasks| && Live(s'.tasks[j]) && !Restarted(s'.audit, s'.tasks[j].p.tx)
      ensures TallyAt(s'.tasks[j], TallyOf(s', s'.tasks[j].p.tx))
    {
      assert s'.tasks[j] == s.tasks[j];
    }
  }

  lemma NextKeepsTally(s: State, a: Action)
    requires Inv(s) && TallyInv(s)
    ensures TallyInv(Next(s, a))
  {
    if !a.Handle? {
      var row, entry := OutsideStep(s, a);
      OutsideKeepsTallyInv(s, Next(s, a), row, entry);
    } else if a.i < |s.tasks| {
      InvIsLocal(s, a.i);
      HandleKeepsTally(s, a.i, a.fails, a.late, a.now);
    }
  }

  lemma {:induction false} RunKeepsTally(seats: map<int, SeatRow>, actions: seq<Action>)
    requires AllAvailable(seats)
    ensures TallyInv(Run(Initial(seats), actions))
  {
    if actions != [] {
      RunKeepsInv(seats, actions[..|actions| - 1]);
      RunKeepsTally(seats, actions[..|actions| - 1]);
      NextKeepsTally(Run(Initial(seats), actions[..|actions| - 1]), actions[|actions| - 1]);
    }
  }

  /** What the status a client polls for means, in every reachable state, for a payment
      that was never restarted: FAILURE only after four attempts none of which deducted
      anything, CANCEL only for a payment that was deducted (both up to deductions lost
      to errors after the commit); a refund only under CANCEL; and the retry count is
      the number of attempts made, or one less. */
  lemma StatusTellsTheOutcome(s: State, tx: TxId)
    requires Reachable(s) && tx in s.payments && !Restarted(s.audit, tx)
    ensures var row, y := s.payments[tx], TallyOf(s, tx);
            && row.status != PaymentSuccess
            && (row.status == PaymentFailure ==> y.attempts == 4 && y.uses == y.losses && y.refunds == 0)
            && (row.status == PaymentCancel ==> y.uses == y.losses + 1)
            && (y.refunds != 0 ==> row.status == PaymentCancel)
            && (row.status == PaymentPending || row.status == PaymentRetrying ==>
                  row.retryCount <= y.attempts <= row.retryCount + 1)
  {
    var seats, actions :| AllAvailable(seats) && s == Run(Initial(seats), actions);
    RunKeepsTally(seats, actions);
    RunKeepsInv(seats, actions);
    assert Told(s.payments[tx], TallyOf(s, tx));
  }

  // ---------- whose money ----------

  predicate WrittenFor(p: Payload, h: HistoryRow) {
    h.tx == Some(p.tx) && p.user == h.user && p.amount == h.amount
  }

  ghost predicate RequestFor(tasks: seq<Task>, h: HistoryRow) {
    exists i :: 0 <= i < |tasks| && WrittenFor(tasks[i].p, h)
  }

  ghost predicate HistoryOk(s: State) {
    forall k :: 0 <= k < |s.points.history| && s.points.history[k].tx.Some? ==> RequestFor(s.tasks, s.points.history[k])
  }

  /** Tasks keep their payloads, and a new row is untagged or written for a task. */
  lemma StepKeepsHistoryOk(s: State, s': State, rows: seq<HistoryRow>)
    requires HistoryOk(s)
    requires |s.tasks| <= |s'.tasks| && forall i :: 0 <= i < |s.tasks| ==> s'.tasks[i].p == s.tasks[i].p
    requires s'.points.history == s.points.history + rows
    requires forall h :: h in rows && h.tx.Some? ==> RequestFor(s.tasks, h)
    ensures HistoryOk(s')
  {
    forall k | 0 <= k < |s'.points.history| && s'.points.history[k].tx.Some?
      ensures RequestFor(s'.tasks, s'.points.history[k])
    {
      var h := s'.points.history[k];
      assert RequestFor(s.tasks, h) by {
        if k < |s.points.history| {
          assert h == s.points.history[k];
        } else {
          assert h in rows;
        }
      }
      var i :| 0 <= i < |s.tasks| && WrittenFor(s.tasks[i].p, h);
      assert WrittenFor(s'.tasks[i].p, h);
    }
  }

  lemma ChargeKeepsHistoryOk(s: State, user: int, amount: int, gap: int, fails: bool)
    requires HistoryOk(s)
    ensures HistoryOk(HandleCharge(s, user, amount, gap, fails))
  {
    if HandleCharge(s, user, amount, gap, fails) != s {
      var row := HistoryRow(user, HistoryKind.Charge, amount, None);
      StepKeepsHistoryOk(s, HandleCharge(s, user, amount, gap, fails), [row]);
    }
  }

  lemma PointsKeepHistoryOk(s: State, op: P.Op, fails: bool)
    requires HistoryOk(s) && (op.ChargeOp? || op.tx.None?)
    ensures HistoryOk(PerformPoints(s, op, fails))
  {
    if !fails && P.Perform(s.points, op).Success? {
      var s' := PerformPoints(s, op, fails);
      StepKeepsHistoryOk(s, s', [s'.points.history[|s.points.history|]]);
    }
  }

  lemma HandleKeepsHistoryOk(s: State, i: nat, fails: bool, late: bool, now: int)
    requires HistoryOk(s) && i < |s.tasks|
    ensures HistoryOk(HandleTask(s, i, fails, late, now))
  {
    var row, entry := HandlerMoves(s, i, fails, late, now);
    StepKeepsHistoryOk(s, HandleTask(s, i, fails, late, now), AsSeq(row));
  }

  lemma NextKeepsHistoryOk(s: State, a: Action)
    requires HistoryOk(s)
    ensures HistoryOk(Next(s, a))
  {
    match a
    case Charge(user, amount, gap, fails) => ChargeKeepsHistoryOk(s, user, amount, gap, fails);
    case Spend(user, amount, fails) => PointsKeepHistoryOk(s, P.UseOp(user, amount, None), fails);
    case Handle(i, fails, late, now) =>
      if i < |s.tasks| {
        HandleKeepsHistoryOk(s, i, fails, late, now);
      }
    case _ => StepKeepsHistoryOk(s, Next(s, a), []);
  }

  lemma {:induction false} RunKeepsHistoryOk(seats: map<int, SeatRow>, actions: seq<Action>)
    ensures HistoryOk(Run(Initial(seats), actions))
  {
    if actions != [] {
      RunKeepsHistoryOk(seats, actions[..|actions| - 1]);
      NextKeepsHistoryOk(Run(Initial(seats), actions[..|actions| - 1]), actions[|actions| - 1]);
    }
  }

  /** A refund goes back to the user who was charged, with the amount that was
      taken: all history rows of a payment agree on both. */
  lemma RefundMatchesDeduction(s: State, j: nat, k: nat)
    requires Reachable(s) && j < |s.points.history| && k < |s.points.history|
    requires s.points.history[j].tx.Some? && s.points.history[j].tx == s.points.history[k].tx
    ensures s.points.history[j].user == s.points.history[k].user
    ensures s.points.history[j].amount == s.points.history[k].amount
  {
    var seats, actions :| AllAvailable(seats) && s == Run(Initial(seats), actions);
    RunKeepsInv(seats, actions);
    RunKeepsHistoryOk(seats, actions);
    assert RequestFor(s.tasks, s.points.history[j]) && RequestFor(s.tasks, s.points.history[k]);
  }

  // ---------- termination ----------

  /** The most handler steps a task can still take. */
  function StepsLeft(t: Task): int {
    match t
    case TryEvent(_) => 18
    case Executing(_, k) => if k < MAX_RETRY then 4 * (MAX_RETRY - k) + 5 else 5
    case Paid(_, k) => if k < MAX_RETRY then 4 * (MAX_RETRY - k) + 4 else 4
    case AttemptFailed(_, k) => if k < MAX_RETRY then 4 * (MAX_RETRY - k) + 3 else 3
    case RetryEvent(_, k) => if k < MAX_RETRY then 4 * (MAX_RETRY - k) + 6 else 6
    case SuccessEvent(_) => 3
    case ReservationFailureEvent(_) => 2
    case CancelEvent(_) => 1
    case Done(_) => 0
  }

  function WorkLeft(s: State): int {
    Sum(s.tasks, StepsLeft)
  }

  lemma MovesDecreaseSteps(t: Task, t': Task, row: Option<HistoryRow>, entry: Option<Audit>)
    requires Moves(t, t', row, entry) && !t.Done?
    ensures StepsLeft(t') < StepsLeft(t)
  {
  }

  lemma HandleDecreasesWork(s: State, i: nat, fails: bool, late: bool, now: int)
    requires i < |s.tasks| && !s.tasks[i].Done?
    ensures WorkLeft(HandleTask(s, i, fails, late, now)) < WorkLeft(s)
  {
    var row, entry := HandlerMoves(s, i, fails, late, now);
    var t' := HandleTask(s, i, fails, late, now).tasks[i];
    MovesDecreaseSteps(s.tasks[i], t', row, entry);
    SumUpdate(s.tasks, i, t', StepsLeft);
  }

  lemma {:induction false} WorkIsAtMost(tasks: seq<Task>)
    ensures Sum(tasks, StepsLeft) <= 18 * |tasks|
  {
    if tasks != [] {
      WorkIsAtMost(tasks[..|tasks| - 1]);
    }
  }

  /** No payment is requested and no payment.try redelivered; anything else may happen. */
  predicate NothingNew(actions: seq<Action>) {
    forall k :: 0 <= k < |actions| ==> !actions[k].Request? && !actions[k].Redeliver?
  }

  /** A handler step that does something. */
  predicate Works(s: State, a: Action) {
    a.Handle? && a.i < |s.tasks| && !s.tasks[a.i].Done?
  }

  /** How many of the actions are such steps. */
  function StepsTaken(s: State, actions: seq<Action>): nat {
    if actions == [] then 0
    else
      var n := |actions| - 1;
      StepsTaken(s, actions[..n]) + (if Works(Run(s, actions[..n]), actions[n]) then 1 else 0)
  }

  lemma OtherActionsKeepTasks(s: State, a: Action)
    requires !a.Request? && !a.Redeliver? && !Works(s, a)
    ensures Next(s, a).tasks == s.tasks
  {
  }

  /** Without new requests the saga drains, whatever charges, uses, reservations, jobs
      and expiring tokens come in between: at most WorkLeft handler steps are taken, at
      most 18 per message, and unless one more can be taken every task is done. */
  lemma {:induction false} RunsDrain(s: State, actions: seq<Action>)
    requires NothingNew(actions)
    ensures StepsTaken(s, actions) <= WorkLeft(s) - WorkLeft(Run(s, actions)) <= 18 * |s.tasks|
    ensures Quiescent(Run(s, actions)) || exists a :: Works(Run(s, actions), a)
  {
    if actions != [] {
      var n := |actions| - 1;
      var before, a := Run(s, actions[..n]), actions[n];
      RunsDrain(s, actions[..n]);
      if Works(before, a) {
        HandleDecreasesWork(before, a.i, a.fails, a.late, a.now);
      } else {
        OtherActionsKeepTasks(before, a);
      }
    }
    WorkIsAtMost(s.tasks);
    WorkIsNonNegative(Run(s, actions).tasks);
    if i :| 0 <= i < |Run(s, actions).tasks| && !Run(s, actions).tasks[i].Done? {
      assert Works(Run(s, actions), Handle(i, false, false, 0));
    }
  }

  lemma WorkIsNonNegative(tasks: seq<Task>)
    ensures Sum(tasks, StepsLeft) >= 0
  {
    SumIsNonNegative(tasks, StepsLeft);
  }

  // ---------- balances stay at or above zero ----------

  /** Amounts and the balances that charges read have the sign their callers intend;
      the request DTOs do not check the former, PointRuns proves the latter. */
  predicate AmountOk(s: State, a: Action) {
    a.Charge? ==> a.amount >= 0 && P.BalanceOf(s.points, a.user) + a.gap >= 0
  }

  ghost predicate AmountsOk(s: State, actions: seq<Action>) {
    actions != [] ==>
      AmountsOk(s, actions[..|actions| - 1]) && AmountOk(Run(s, actions[..|actions| - 1]), actions[|actions| - 1])
  }

  ghost predicate PricesOk(s: State) {
    && (forall r :: 0 <= r < |s.booking.reservations| ==> s.booking.reservations[r].price >= 0)
    && (forall k :: k in s.booking.seats ==> s.booking.seats[k].price >= 0)
  }

  lemma OtherActionKeepsNonNegative(s: State, a: Action)
    requires P.NonNegative(s.points) && AmountOk(s, a) && !a.Handle?
    ensures P.NonNegative(Next(s, a).points)
  {
  }

  /** What a payment adds to or takes from a balance is a price. */
  lemma HandleKeepsNonNegative(s: State, i: nat, fails: bool, late: bool, now: int)
    requires P.NonNegative(s.points) && i < |s.tasks| && TaskOk(s, s.tasks[i]) && PricesOk(s)
    ensures P.NonNegative(HandleTask(s, i, fails, late, now).points)
  {
  }

  lemma NextKeepsNonNegative(s: State, a: Action)
    requires TasksOk(s) && P.NonNegative(s.points) && AmountOk(s, a) && PricesOk(s)
    ensures P.NonNegative(Next(s, a).points)
  {
    if !a.Handle? {
      OtherActionKeepsNonNegative(s, a);
    } else if a.i < |s.tasks| {
      HandleKeepsNonNegative(s, a.i, a.fails, a.late, a.now);
    }
  }

  lemma BookingKeepsPrices(s: State, s': State, op: B.Op)
    requires PricesOk(s) && B.Perform(s.booking, op) == Success(s'.booking)
    ensures PricesOk(s')
  {
  }

  lemma NextKeepsPricesOk(s: State, a: Action)
    requires PricesOk(s)
    ensures PricesOk(Next(s, a))
  {
    if Next(s, a).booking != s.booking {
      var op := match a
        case Reserve(user, seat, _, _, _, _) => B.ReserveOp(user, seat)
        case Expire(id, seat, _) => B.ExpireOp(id, seat)
        case Handle(i, _, _, now) => B.ConfirmOp(s.tasks[i].p.reservation, Stamp(now, s.tasks[i].p.tx))
        case _ => B.ReserveOp(0, 0);
      BookingKeepsPrices(s, Next(s, a), op);
    }
  }

  lemma {:induction false} RunKeepsNonNegative(seats: map<int, SeatRow>, actions: seq<Action>)
    requires AllAvailable(seats) && (forall k :: k in seats ==> seats[k].price >= 0)
    requires AmountsOk(Initial(seats), actions)
    ensures P.NonNegative(Run(Initial(seats), actions).points) && PricesOk(Run(Initial(seats), actions))
  {
    if actions != [] {
      var n := |actions| - 1;
      RunKeepsNonNegative(seats, actions[..n]);
      RunKeepsInv(seats, actions[..n]);
      NextKeepsNonNegative(Run(Initial(seats), actions[..n]), actions[n]);
      NextKeepsPricesOk(Run(Initial(seats), actions[..n]), actions[n]);
    }
  }

  /** Some run without negative charges, reads and prices leads to s. */
  ghost predicate SoundlyReachable(s: State) {
    exists seats: map<int, SeatRow>, actions ::
      && AllAvailable(seats) && (forall k :: k in seats ==> seats[k].price >= 0)
      && AmountsOk(Initial(seats), actions) && s == Run(Initial(seats), actions)
  }

  /** In every such state no balance is negative. */
  lemma BalancesAreNonNegative(s: State)
    requires SoundlyReachable(s)
    ensures P.NonNegative(s.points)
  {
    var seats: map<int, SeatRow>, actions :|
      && AllAvailable(seats) && (forall k :: k in seats ==> seats[k].price >= 0)
      && AmountsOk(Initial(seats), actions) && s == Run(Initial(seats), actions);
    RunKeepsNonNegative(seats, actions);
  }
}

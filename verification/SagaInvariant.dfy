/** What every step of the saga keeps. */
module SagaInvariant {
  import opened Tables
  import opened Sums
  import opened Saga
  import P = Points
  import B = Booking

  /** Row status and retry count after `attempt` retries. */
  predicate RowAt(row: PaymentRow, attempt: nat) {
    row.retryCount == attempt <= MAX_RETRY && row.status == (if attempt == 0 then PaymentPending else PaymentRetrying)
  }

  /** The payment row agrees with where its task is. */
  predicate PhaseOk(t: Task, row: PaymentRow) {
    match t
    case Executing(_, k) => RowAt(row, k)
    case Paid(_, k) => RowAt(row, k)
    case AttemptFailed(_, k) => RowAt(row, k)
    case RetryEvent(_, k) => k >= 1 && RowAt(row, k)
    case SuccessEvent(_) => RowAt(row, row.retryCount)
    case ReservationFailureEvent(_) => RowAt(row, row.retryCount)
    case CancelEvent(_) => row.status == PaymentCancel && row.retryCount <= MAX_RETRY
    case _ => true
  }

  predicate AttemptOk(t: Task) {
    match t
    case Executing(_, k) => k <= MAX_RETRY
    case Paid(_, k) => k <= MAX_RETRY
    case AttemptFailed(_, k) => k <= MAX_RETRY
    case RetryEvent(_, k) => 1 <= k <= MAX_RETRY
    case _ => true
  }

  /** Its duplicate check has failed at least once. */
  predicate Restarted(audit: seq<Audit>, tx: TxId) {
    Restart(tx) in audit
  }

  predicate TaskOk(s: State, t: Task) {
    && t.p.reservation < |s.booking.reservations|
    && t.p.amount == s.booking.reservations[t.p.reservation].price
    && AttemptOk(t)
    && (Live(t) ==> t.p.tx in s.payments && (Restarted(s.audit, t.p.tx) || PhaseOk(t, s.payments[t.p.tx])))
    && (Holding(t) ==> t.p.user in s.points.balances)
  }

  ghost predicate TasksOk(s: State) {
    forall i :: 0 <= i < |s.tasks| ==> TaskOk(s, s.tasks[i])
  }

  /** A payment id stands for one request ... */
  ghost predicate PayloadsAgree(tasks: seq<Task>) {
    forall i, j :: 0 <= i < |tasks| && 0 <= j < |tasks| && tasks[i].p.tx == tasks[j].p.tx ==> tasks[i].p == tasks[j].p
  }

  /** ... and has at most one live task, unless it was restarted. */
  ghost predicate LiveApart(tasks: seq<Task>, audit: seq<Audit>) {
    forall i, j :: 0 <= i < j < |tasks| && Live(tasks[i]) && Live(tasks[j]) && tasks[i].p.tx == tasks[j].p.tx ==>
      Restarted(audit, tasks[i].p.tx)
  }

  predicate RowStatusOk(row: PaymentRow) {
    row.status != PaymentSuccess && row.retryCount <= MAX_RETRY
  }

  ghost predicate Issued(tasks: seq<Task>, tx: TxId) {
    exists i :: 0 <= i < |tasks| && tasks[i].p.tx == tx
  }

  ghost predicate IssuedFor(tasks: seq<Task>, tx: TxId, reservation: nat) {
    exists i :: 0 <= i < |tasks| && tasks[i].p.tx == tx && tasks[i].p.reservation == reservation
  }

  ghost predicate PaymentsOk(tasks: seq<Task>, payments: map<TxId, PaymentRow>) {
    forall tx :: tx in payments ==> Issued(tasks, tx) && RowStatusOk(payments[tx])
  }

  /** A paid reservation was paid by a request made for it. */
  ghost predicate PayersOk(tasks: seq<Task>, reservations: seq<ReservationRow>) {
    forall r :: 0 <= r < |reservations| && reservations[r].paidAt.Some? ==>
      IssuedFor(tasks, reservations[r].paidAt.value.tx, r)
  }

  ghost predicate JobsOk(jobs: set<(nat, int)>, reservations: seq<ReservationRow>) {
    forall j :: j in jobs ==> j.0 < |reservations| && reservations[j.0].seat == j.1
  }

  /** A payment token names the reservation it was issued with, its owner and seat. */
  ghost predicate TokensOk(tokens: map<Token, Claim>, reservations: seq<ReservationRow>) {
    forall token :: token in tokens ==>
      && tokens[token].reservation < |reservations|
      && reservations[tokens[token].reservation].user == tokens[token].user
      && reservations[tokens[token].reservation].seat == tokens[token].seat
  }

  ghost predicate Inv(s: State) {
    && B.Agreement(s.booking)
    && TasksOk(s)
    && PayloadsAgree(s.tasks)
    && LiveApart(s.tasks, s.audit)
    && PaymentsOk(s.tasks, s.payments)
    && PayersOk(s.tasks, s.booking.reservations)
    && JobsOk(s.jobs, s.booking.reservations)
    && TokensOk(s.tokens, s.booking.reservations)
  }

  // ---------- parts of a step ----------

  lemma MoreTasksKeepIssued(tasks: seq<Task>, tasks': seq<Task>, payments: map<TxId, PaymentRow>,
                            reservations: seq<ReservationRow>)
    requires |tasks| <= |tasks'| && forall i :: 0 <= i < |tasks| ==> tasks'[i].p == tasks[i].p
    ensures PaymentsOk(tasks, payments) ==> PaymentsOk(tasks', payments)
    ensures PayersOk(tasks, reservations) ==> PayersOk(tasks', reservations)
  {
    if PaymentsOk(tasks, payments) {
      forall tx | tx in payments ensures Issued(tasks', tx) {
        var i :| 0 <= i < |tasks| && tasks[i].p.tx == tx;
        assert tasks'[i].p.tx == tx;
      }
    }
    if PayersOk(tasks, reservations) {
      forall r | 0 <= r < |reservations| && reservations[r].paidAt.Some?
        ensures IssuedFor(tasks', reservations[r].paidAt.value.tx, r)
      {
        var tx := reservations[r].paidAt.value.tx;
        var i :| 0 <= i < |tasks| && tasks[i].p.tx == tx && tasks[i].p.reservation == r;
        assert tasks'[i].p.tx == tx && tasks'[i].p.reservation == r;
      }
    }
  }

  /** The reservations of `s` are all still there, for the same user, seat and price. */
  predicate BookingGrows(s: B.Store, t: B.Store) {
    && |s.reservations| <= |t.reservations|
    && forall r :: 0 <= r < |s.reservations| ==>
         && t.reservations[r].user == s.reservations[r].user
         && t.reservations[r].seat == s.reservations[r].seat
         && t.reservations[r].price == s.reservations[r].price
  }

  /** Task i is the live one of its payment, or its first, or a restarted one. */
  predicate MayWrite(s: State, s': State, i: nat)
    requires i < |s.tasks|
  {
    Live(s.tasks[i]) || s.tasks[i].p.tx !in s.payments || Restarted(s'.audit, s.tasks[i].p.tx)
  }

  /** What replacing task i must leave behind for the invariant to survive. */
  ghost predicate GoodPut(s: State, s': State, i: nat) {
    && i < |s.tasks| && |s'.tasks| == |s.tasks| && s'.tasks == s.tasks[i := s'.tasks[i]]
    && s'.tasks[i].p == s.tasks[i].p && TaskOk(s', s'.tasks[i])
    && (forall tx :: Restarted(s.audit, tx) ==> Restarted(s'.audit, tx))
    && (Live(s'.tasks[i]) ==> MayWrite(s, s', i))
    && B.Agreement(s'.booking) && s'.jobs == s.jobs && s'.tokens.Items <= s.tokens.Items
    && BookingGrows(s.booking, s'.booking) && s.points.balances.Keys <= s'.points.balances.Keys
    && (s'.payments == s.payments
        || (&& MayWrite(s, s', i)
            && s.tasks[i].p.tx in s'.payments
            && s'.payments == s.payments[s.tasks[i].p.tx := s'.payments[s.tasks[i].p.tx]]
            && RowStatusOk(s'.payments[s.tasks[i].p.tx])))
    && (s'.booking.reservations == s.booking.reservations || PayersOk(s.tasks, s'.booking.reservations))
  }

  lemma PutKeepsTasksOk(s: State, s': State, i: nat)
    requires TasksOk(s) && LiveApart(s.tasks, s.audit) && GoodPut(s, s', i)
    ensures TasksOk(s')
  {
    forall j | 0 <= j < |s'.tasks| ensures TaskOk(s', s'.tasks[j]) {
      assert TaskOk(s, s.tasks[j]);
    }
  }

  lemma PutKeepsLiveApart(s: State, s': State, i: nat)
    requires TasksOk(s) && LiveApart(s.tasks, s.audit) && GoodPut(s, s', i)
    ensures LiveApart(s'.tasks, s'.audit)
  {
    forall j, k | 0 <= j < k < |s'.tasks| && Live(s'.tasks[j]) && Live(s'.tasks[k])
        && s'.tasks[j].p.tx == s'.tasks[k].p.tx
      ensures Restarted(s'.audit, s'.tasks[j].p.tx)
    {
      assert TaskOk(s, s.tasks[j]) && TaskOk(s, s.tasks[k]);
    }
  }

  lemma PutKeepsInv(s: State, s': State, i: nat)
    requires Inv(s) && GoodPut(s, s', i)
    ensures Inv(s')
  {
    PutKeepsTasksOk(s, s', i);
    PutKeepsLiveApart(s, s', i);
    MoreTasksKeepIssued(s.tasks, s'.tasks, s.payments, s'.booking.reservations);
    assert Issued(s'.tasks, s.tasks[i].p.tx) by {
      assert s'.tasks[i].p.tx == s.tasks[i].p.tx;
    }
    forall token | token in s'.tokens ensures token in s.tokens && s.tokens[token] == s'.tokens[token] {
      assert (token, s'.tokens[token]) in s'.tokens.Items;
    }
  }

  /** A confirmed reservation joins the paid ones. */
  lemma ConfirmKeepsPayersOk(tasks: seq<Task>, booking: B.Store, i: nat, stamp: Stamp)
    requires PayersOk(tasks, booking.reservations) && i < |tasks| && stamp.tx == tasks[i].p.tx
    requires B.Confirm(booking, tasks[i].p.reservation, stamp).Success?
    ensures PayersOk(tasks, B.Confirm(booking, tasks[i].p.reservation, stamp).value.reservations)
  {
    var reservations := B.Confirm(booking, tasks[i].p.reservation, stamp).value.reservations;
    forall r | 0 <= r < |reservations| && reservations[r].paidAt.Some?
      ensures IssuedFor(tasks, reservations[r].paidAt.value.tx, r)
    {
      if r != tasks[i].p.reservation {
        assert reservations[r] == booking.reservations[r];
      }
    }
  }

  // ---------- the handlers ----------

  /** The part of the invariant that a handler of task i looks at. */
  ghost predicate Local(s: State, i: nat) {
    && i < |s.tasks| && TaskOk(s, s.tasks[i])
    && B.Agreement(s.booking)
    && (s.tasks[i].p.tx in s.payments ==> RowStatusOk(s.payments[s.tasks[i].p.tx]))
  }

  lemma TryIsGood(s: State, i: nat, fails: bool, late: bool)
    requires Local(s, i) && s.tasks[i].TryEvent?
    ensures GoodPut(s, HandleTry(s, i, fails, late), i)
  {
  }

  lemma ExecutingIsGood(s: State, i: nat, fails: bool)
    requires Local(s, i) && s.tasks[i].Executing?
    ensures GoodPut(s, HandleExecuting(s, i, fails), i)
  {
  }

  lemma PaidIsGood(s: State, i: nat, late: bool)
    requires Local(s, i) && s.tasks[i].Paid?
    ensures GoodPut(s, HandlePaid(s, i, late), i)
  {
  }

  lemma AttemptFailedIsGood(s: State, i: nat, fails: bool)
    requires Local(s, i) && s.tasks[i].AttemptFailed?
    ensures GoodPut(s, HandleAttemptFailed(s, i, fails), i)
  {
  }

  lemma RetryIsGood(s: State, i: nat)
    requires Local(s, i) && s.tasks[i].RetryEvent?
    ensures GoodPut(s, HandleRetry(s, i), i)
  {
  }

  lemma SuccessIsGood(s: State, i: nat, fails: bool, late: bool, now: int)
    requires Local(s, i) && s.tasks[i].SuccessEvent? && PayersOk(s.tasks, s.booking.reservations)
    ensures GoodPut(s, HandleSuccess(s, i, fails, late, now), i)
  {
    var p := s.tasks[i].p;
    if HandleSuccess(s, i, fails, late, now).booking != s.booking {
      B.PerformKeepsAgreement(s.booking, B.ConfirmOp(p.reservation, Stamp(now, p.tx)));
      ConfirmKeepsPayersOk(s.tasks, s.booking, i, Stamp(now, p.tx));
    }
  }

  lemma ReservationFailureIsGood(s: State, i: nat, fails: bool)
    requires Local(s, i) && s.tasks[i].ReservationFailureEvent?
    ensures GoodPut(s, HandleReservationFailure(s, i, fails), i)
  {
  }

  lemma CancelIsGood(s: State, i: nat, fails: bool)
    requires Local(s, i) && s.tasks[i].CancelEvent?
    ensures GoodPut(s, HandleCancel(s, i, fails), i)
  {
  }

  lemma HandleIsGood(s: State, i: nat, fails: bool, late: bool, now: int)
    requires Local(s, i) && !s.tasks[i].Done? && PayersOk(s.tasks, s.booking.reservations)
    ensures GoodPut(s, HandleTask(s, i, fails, late, now), i)
  {
    match s.tasks[i]
    case TryEvent(_) => TryIsGood(s, i, fails, late);
    case Executing(_, _) => ExecutingIsGood(s, i, fails);
    case Paid(_, _) => PaidIsGood(s, i, late);
    case AttemptFailed(_, _) => AttemptFailedIsGood(s, i, fails);
    case RetryEvent(_, _) => RetryIsGood(s, i);
    case SuccessEvent(_) => SuccessIsGood(s, i, fails, late, now);
    case ReservationFailureEvent(_) => ReservationFailureIsGood(s, i, fails);
    case CancelEvent(_) => CancelIsGood(s, i, fails);
  }

  lemma InvIsLocal(s: State, i: nat)
    requires Inv(s) && i < |s.tasks|
    ensures Local(s, i)
  {
    assert TaskOk(s, s.tasks[i]);
  }

  lemma HandleKeepsInv(s: State, i: nat, fails: bool, late: bool, now: int)
    requires Inv(s) && i < |s.tasks|
    ensures Inv(HandleTask(s, i, fails, late, now))
  {
    InvIsLocal(s, i);
    if !s.tasks[i].Done? {
      HandleIsGood(s, i, fails, late, now);
      PutKeepsInv(s, HandleTask(s, i, fails, late, now), i);
    }
  }

  // ---------- how a task moves ----------

  /** The saga's transitions: what a handler step may make of task t, with the
      history row and the audit entry that go with it. */
  predicate Moves(t: Task, t': Task, row: Option<HistoryRow>, entry: Option<Audit>) {
    var p := t.p;
    match t
    case TryEvent(_) =>
      && row == None
      && (|| (entry == None && (t' == Done(p) || t' == Executing(p, 0)))
          || (entry == Some(Restart(p.tx)) && t' == RetryEvent(p, 1)))
    case Executing(_, k) =>
      && entry == Some(Attempt(p.tx))
      && (|| (t' == AttemptFailed(p, k) && row == None)
          || (t' == Paid(p, k) && row == Some(HistoryRow(p.user, Use, p.amount, Some(p.tx)))))
    case Paid(_, k) =>
      && row == None
      && (|| (t' == AttemptFailed(p, k) && entry == Some(Lost(p.tx, p.amount)))
          || (t' == SuccessEvent(p) && entry == None))
    case AttemptFailed(_, k) =>
      row == None && entry == None && (t' == Done(p) || (k < MAX_RETRY && t' == RetryEvent(p, k + 1)))
    case RetryEvent(_, k) =>
      t' == Executing(p, k) && row == None && entry == Some(Backoff(p.tx, if k >= 1 then Delay(k) else 0))
    case SuccessEvent(_) =>
      && row == None
      && (|| (t' == Done(p) && entry == None)
          || (t' == ReservationFailureEvent(p) && (entry == None || entry == Some(Gifted(p.tx, p.amount)))))
    case ReservationFailureEvent(_) =>
      && row == None
      && (|| (t' == Done(p) && entry == Some(Unreturned(p.tx, p.amount)))
          || (t' == CancelEvent(p) && entry == None))
    case CancelEvent(_) =>
      && t' == Done(p)
      && (|| (row == None && entry == Some(Unreturned(p.tx, p.amount)))
          || (row == Some(HistoryRow(p.user, Refund, p.amount, Some(p.tx))) && entry == None))
    case Done(_) => t' == t && row == None && entry == None
  }

  /** s' is s with task i moved, and row and entry appended, if any. */
  predicate Moved(s: State, s': State, i: nat, row: Option<HistoryRow>, entry: Option<Audit>) {
    && i < |s.tasks| == |s'.tasks| && s'.tasks == s.tasks[i := s'.tasks[i]]
    && Moves(s.tasks[i], s'.tasks[i], row, entry)
    && s'.points.history == s.points.history + AsSeq(row)
    && s'.audit == s.audit + AsSeq(entry)
    && (!s.tasks[i].SuccessEvent? ==> s'.booking == s.booking)
  }

  lemma SumAppendsAny<T>(s: seq<T>, x: Option<T>, g: T -> int)
    ensures Sum(s + AsSeq(x), g) == Sum(s, g) + if x.Some? then g(x.value) else 0
  {
    if x.Some? {
      SumAppend(s, x.value, g);
    } else {
      assert s + AsSeq(x) == s;
    }
  }

  /** What `after` has in addition to `before`. */
  function Added<T>(before: seq<T>, after: seq<T>): Option<T> {
    if |before| < |after| then Some(after[|before|]) else None
  }

  lemma PaymentMoves(s: State, i: nat, fails: bool, late: bool, now: int)
    requires i < |s.tasks| && (s.tasks[i].TryEvent? || s.tasks[i].Executing? || s.tasks[i].Paid?)
    ensures var s' := HandleTask(s, i, fails, late, now);
            Moved(s, s', i, Added(s.points.history, s'.points.history), Added(s.audit, s'.audit))
  {
  }

  lemma RetryMoves(s: State, i: nat, fails: bool, late: bool, now: int)
    requires i < |s.tasks| && (s.tasks[i].AttemptFailed? || s.tasks[i].RetryEvent? || s.tasks[i].Done?)
    ensures var s' := HandleTask(s, i, fails, late, now);
            Moved(s, s', i, Added(s.points.history, s'.points.history), Added(s.audit, s'.audit))
  {
  }

  lemma SettlingMoves(s: State, i: nat, fails: bool, late: bool, now: int)
    requires i < |s.tasks|
    requires s.tasks[i].SuccessEvent? || s.tasks[i].ReservationFailureEvent? || s.tasks[i].CancelEvent?
    ensures var s' := HandleTask(s, i, fails, late, now);
            Moved(s, s', i, Added(s.points.history, s'.points.history), Added(s.audit, s'.audit))
  {
  }

  lemma HandlerMoves(s: State, i: nat, fails: bool, late: bool, now: int)
    returns (row: Option<HistoryRow>, entry: Option<Audit>)
    requires i < |s.tasks|
    ensures Moved(s, HandleTask(s, i, fails, late, now), i, row, entry)
  {
    row := Added(s.points.history, HandleTask(s, i, fails, late, now).points.history);
    entry := Added(s.audit, HandleTask(s, i, fails, late, now).audit);
    if s.tasks[i].TryEvent? || s.tasks[i].Executing? || s.tasks[i].Paid? {
      PaymentMoves(s, i, fails, late, now);
    } else if s.tasks[i].AttemptFailed? || s.tasks[i].RetryEvent? || s.tasks[i].Done? {
      RetryMoves(s, i, fails, late, now);
    } else {
      SettlingMoves(s, i, fails, late, now);
    }
  }

  // ---------- the other actions ----------

  lemma PublishKeepsPayloads(tasks: seq<Task>, p: Payload)
    requires PayloadsAgree(tasks)
    requires (forall i :: 0 <= i < |tasks| ==> tasks[i].p.tx != p.tx) || exists i :: 0 <= i < |tasks| && tasks[i].p == p
    ensures PayloadsAgree(tasks + [TryEvent(p)])
  {
    if i :| 0 <= i < |tasks| && tasks[i].p == p {
      assert forall j :: 0 <= j < |tasks| && tasks[j].p.tx == p.tx ==> tasks[j].p == tasks[i].p;
    }
  }

  lemma PublishKeepsTasksOk(s: State, p: Payload)
    requires TasksOk(s) && LiveApart(s.tasks, s.audit)
    requires p.reservation < |s.booking.reservations| && p.amount == s.booking.reservations[p.reservation].price
    ensures TasksOk(s.(tasks := s.tasks + [TryEvent(p)])) && LiveApart(s.tasks + [TryEvent(p)], s.audit)
  {
    var s' := s.(tasks := s.tasks + [TryEvent(p)]);
    forall j | 0 <= j < |s'.tasks| ensures TaskOk(s', s'.tasks[j]) {
      assert j < |s.tasks| ==> TaskOk(s, s.tasks[j]);
    }
  }

  /** A new payment.try message, for a fresh id or as a duplicate. */
  lemma PublishKeepsInv(s: State, p: Payload)
    requires Inv(s)
    requires p.reservation < |s.booking.reservations| && p.amount == s.booking.reservations[p.reservation].price
    requires Fresh(s, p.tx) || exists i :: 0 <= i < |s.tasks| && s.tasks[i].p == p
    ensures Inv(s.(tasks := s.tasks + [TryEvent(p)]))
  {
    var s' := s.(tasks := s.tasks + [TryEvent(p)]);
    PublishKeepsPayloads(s.tasks, p);
    PublishKeepsTasksOk(s, p);
    MoreTasksKeepIssued(s.tasks, s'.tasks, s.payments, s.booking.reservations);
  }

  /** A transaction outside the saga on one of the two stores. */
  lemma TablesKeepInv(s: State, s': State)
    requires Inv(s) && s'.tasks == s.tasks && s'.payments == s.payments
    requires forall tx :: Restarted(s'.audit, tx) <==> Restarted(s.audit, tx)
    requires B.Agreement(s'.booking) && JobsOk(s'.jobs, s'.booking.reservations)
    requires TokensOk(s'.tokens, s'.booking.reservations)
    requires BookingGrows(s.booking, s'.booking) && s.points.balances.Keys <= s'.points.balances.Keys
    requires forall r :: 0 <= r < |s'.booking.reservations| && s'.booking.reservations[r].paidAt.Some? ==>
               r < |s.booking.reservations| && s.booking.reservations[r].paidAt == s'.booking.reservations[r].paidAt
    ensures Inv(s')
  {
    forall j | 0 <= j < |s'.tasks| ensures TaskOk(s', s'.tasks[j]) {
      assert TaskOk(s, s.tasks[j]);
    }
  }

  /** Reserving and expiring keep rows, prices, payers and the jobs' seats. */
  lemma BookingStepIsMild(s: B.Store, op: B.Op, jobs: set<(nat, int)>)
    requires B.Agreement(s) && !op.ConfirmOp? && B.Perform(s, op).Success? && JobsOk(jobs, s.reservations)
    ensures var t := B.Perform(s, op).value;
            && BookingGrows(s, t) && JobsOk(jobs, t.reservations)
            && (op.ReserveOp? ==>
                  && |t.reservations| == |s.reservations| + 1
                  && t.reservations[|s.reservations|].seat == op.seat
                  && t.reservations[|s.reservations|].user == op.user)
            && forall r :: 0 <= r < |t.reservations| && t.reservations[r].paidAt.Some? ==>
                 r < |s.reservations| && s.reservations[r].paidAt == t.reservations[r].paidAt
  {
  }

  /** A new reservation's token and job name it. */
  lemma NewClaimIsOk(s: B.Store, t: B.Store, user: int, seat: int, token: Token, tokens: map<Token, Claim>,
                     jobs: set<(nat, int)>)
    requires TokensOk(tokens, s.reservations) && JobsOk(jobs, t.reservations) && BookingGrows(s, t)
    requires |t.reservations| == |s.reservations| + 1
    requires t.reservations[|s.reservations|].user == user && t.reservations[|s.reservations|].seat == seat
    ensures TokensOk(tokens, t.reservations)
    ensures TokensOk(tokens[token := Claim(user, seat, |s.reservations|)], t.reservations)
    ensures JobsOk(jobs + {(|s.reservations|, seat)}, t.reservations)
  {
  }

  lemma ReserveKeepsInv(s: State, a: Action)
    requires Inv(s) && a.Reserve?
    ensures Inv(Next(s, a))
  {
    var s' := HandleReserve(s, a.user, a.seat, a.token, a.fails, a.tokenIssued, a.jobQueued);
    if s' != s {
      B.PerformKeepsAgreement(s.booking, B.ReserveOp(a.user, a.seat));
      BookingStepIsMild(s.booking, B.ReserveOp(a.user, a.seat), s.jobs);
      NewClaimIsOk(s.booking, s'.booking, a.user, a.seat, a.token, s.tokens, s.jobs);
      TablesKeepInv(s, s');
    }
  }

  lemma ExpireKeepsInv(s: State, a: Action)
    requires Inv(s) && a.Expire?
    ensures Inv(Next(s, a))
  {
    if Next(s, a) != s {
      assert (a.id, a.seat) in s.jobs;
      B.PerformKeepsAgreement(s.booking, B.ExpireOp(a.id, a.seat));
      BookingStepIsMild(s.booking, B.ExpireOp(a.id, a.seat), s.jobs);
      TablesKeepInv(s, Next(s, a));
    }
  }

  lemma PointsKeepInv(s: State, op: P.Op, fails: bool)
    requires Inv(s)
    ensures Inv(PerformPoints(s, op, fails))
  {
    if PerformPoints(s, op, fails) != s {
      TablesKeepInv(s, PerformPoints(s, op, fails));
    }
  }

  lemma ChargeKeepsInv(s: State, user: int, amount: int, gap: int, fails: bool)
    requires Inv(s)
    ensures Inv(HandleCharge(s, user, amount, gap, fails))
  {
    if HandleCharge(s, user, amount, gap, fails) != s {
      TablesKeepInv(s, HandleCharge(s, user, amount, gap, fails));
    }
  }

  lemma NextKeepsInv(s: State, a: Action)
    requires Inv(s)
    ensures Inv(Next(s, a))
  {
    match a
    case Charge(user, amount, gap, fails) => ChargeKeepsInv(s, user, amount, gap, fails);
    case Spend(user, amount, fails) => PointsKeepInv(s, P.UseOp(user, amount, None), fails);
    case Reserve(_, _, _, _, _, _) => ReserveKeepsInv(s, a);
    case Request(user, reservation, token, tx) =>
      if Next(s, a) != s {
        var r := s.booking.reservations[reservation];
        PublishKeepsInv(s, Payload(reservation, user, r.seat, r.price, tx, token));
      }
    case Redeliver(i) =>
      if i < |s.tasks| {
        assert TaskOk(s, s.tasks[i]);
        PublishKeepsInv(s, s.tasks[i].p);
      }
    case Handle(i, fails, late, now) =>
      if i < |s.tasks| {
        HandleKeepsInv(s, i, fails, late, now);
      }
    case Expire(_, _, _) => ExpireKeepsInv(s, a);
    case ForgetToken(_) => TablesKeepInv(s, Next(s, a));
  }

  predicate AllAvailable(seats: map<int, SeatRow>) {
    forall seat :: seat in seats ==> seats[seat].status == Available
  }

  /** The invariant holds in every reachable state, whatever fails. */
  lemma {:induction false} RunKeepsInv(seats: map<int, SeatRow>, actions: seq<Action>)
    requires AllAvailable(seats)
    ensures Inv(Run(Initial(seats), actions))
  {
    if actions != [] {
      RunKeepsInv(seats, actions[..|actions| - 1]);
      NextKeepsInv(Run(Initial(seats), actions[..|actions| - 1]), actions[|actions| - 1]);
    }
  }

  // ---------- what clients may rely on ----------

  /** Some run from a sale that has not begun leads to s. */
  ghost predicate Reachable(s: State) {
    exists seats, actions :: AllAvailable(seats) && s == Run(Initial(seats), actions)
  }

  lemma ReachableIsInv(s: State)
    requires Reachable(s)
    ensures Inv(s)
  {
    var seats, actions :| AllAvailable(seats) && s == Run(Initial(seats), actions);
    RunKeepsInv(seats, actions);
  }

  /** Unless its duplicate check ever failed, at most one message or handler run past
      payment.try exists for a payment at any moment, and its row's status and retry
      count say which one. No row is ever marked SUCCESS. */
  lemma PhaseInvariant(s: State, i: nat)
    requires Reachable(s) && i < |s.tasks|
    ensures Live(s.tasks[i]) && !Restarted(s.audit, s.tasks[i].p.tx) ==>
              && s.tasks[i].p.tx in s.payments && PhaseOk(s.tasks[i], s.payments[s.tasks[i].p.tx])
              && forall j :: 0 <= j < |s.tasks| && Live(s.tasks[j]) && s.tasks[j].p.tx == s.tasks[i].p.tx ==> j == i
    ensures forall tx :: tx in s.payments ==> s.payments[tx].status != PaymentSuccess
  {
    ReachableIsInv(s);
    assert TaskOk(s, s.tasks[i]);
    forall j | 0 <= j < |s.tasks| && Live(s.tasks[j]) && s.tasks[j].p.tx == s.tasks[i].p.tx
        && Live(s.tasks[i]) && !Restarted(s.audit, s.tasks[i].p.tx)
      ensures j == i
    {
    }
  }

  predicate IsTerminal(row: PaymentRow) {
    row.status == PaymentFailure || row.status == PaymentCancel
  }

  /** The step handles a message of this payment and writes its status: after a failed
      duplicate check, for a retry, for the final failure, or for the cancellation. */
  predicate Overwrites(s: State, a: Action, tx: TxId)
    requires tx in s.payments
  {
    && a.Handle? && a.i < |s.tasks| && s.tasks[a.i].p.tx == tx && !a.fails
    && match s.tasks[a.i]
       case TryEvent(_) => a.late
       case AttemptFailed(_, k) => k < MAX_RETRY || s.payments[tx].status == PaymentCancel
       case ReservationFailureEvent(_) => s.payments[tx].status == PaymentFailure
       case _ => false
  }

  /** A FAILURE or CANCEL row changes in a step if and only if the step overwrites it. */
  lemma TerminalRowChangesExactlyWhen(s: State, a: Action, tx: TxId)
    requires tx in s.payments && IsTerminal(s.payments[tx])
    ensures tx in Next(s, a).payments
    ensures Next(s, a).payments[tx] != s.payments[tx] <==> Overwrites(s, a, tx)
  {
    if a.Handle? && a.i < |s.tasks| {
      HandlerChangesTerminalRow(s, a.i, a.fails, a.late, a.now, tx);
    }
  }

  lemma HandlerChangesTerminalRow(s: State, i: nat, fails: bool, late: bool, now: int, tx: TxId)
    requires i < |s.tasks| && tx in s.payments && IsTerminal(s.payments[tx])
    ensures var s' := HandleTask(s, i, fails, late, now);
            tx in s'.payments && (s'.payments[tx] != s.payments[tx] <==> Overwrites(s, Handle(i, fails, late, now), tx))
  {
  }

  /** FAILURE and CANCEL are absorbing for a payment whose duplicate check never failed:
      only that fault lets a step overwrite them. */
  lemma TerminalStatusIsAbsorbing(s: State, a: Action, tx: TxId)
    requires Reachable(s) && tx in s.payments && IsTerminal(s.payments[tx])
    requires !Restarted(Next(s, a).audit, tx)
    ensures tx in Next(s, a).payments && Next(s, a).payments[tx] == s.payments[tx]
  {
    ReachableIsInv(s);
    TerminalRowChangesExactlyWhen(s, a, tx);
    if Overwrites(s, a, tx) {
      InvIsLocal(s, a.i);
      OverwriteMeansRestart(s, a.i, a.late, a.now);
    }
  }

  lemma OverwriteMeansRestart(s: State, i: nat, late: bool, now: int)
    requires Local(s, i) && s.tasks[i].p.tx in s.payments && IsTerminal(s.payments[s.tasks[i].p.tx])
    requires Overwrites(s, Handle(i, false, late, now), s.tasks[i].p.tx)
    ensures Restarted(HandleTask(s, i, false, late, now).audit, s.tasks[i].p.tx)
  {
  }

  /** A refund never meets a missing balance row. */
  lemma RefundFindsItsUser(s: State, i: nat)
    requires Reachable(s) && i < |s.tasks| && s.tasks[i].CancelEvent?
    ensures P.RefundTx(s.points, s.tasks[i].p.user, s.tasks[i].p.amount, Some(s.tasks[i].p.tx)).Success?
  {
    ReachableIsInv(s);
    assert TaskOk(s, s.tasks[i]);
  }

  // ---------- payment tokens and reservations ----------

  /** A request is accepted if and only if its token is stored and names the caller and
      the reservation exists; it then publishes exactly one payment.try, for that
      reservation's seat and price. */
  lemma RequestAcceptedExactlyWhen(s: State, user: int, reservation: nat, token: Token, tx: TxId)
    requires Fresh(s, tx)
    ensures var s' := Next(s, Request(user, reservation, token, tx));
            var accepted := token in s.tokens && s.tokens[token].user == user && reservation < |s.booking.reservations|;
            && (s' != s <==> accepted)
            && (accepted ==>
                  var r := s.booking.reservations[reservation];
                  s'.tasks == s.tasks + [TryEvent(Payload(reservation, user, r.seat, r.price, tx, token))])
  {
    var s' := Next(s, Request(user, reservation, token, tx));
    assert s' != s ==> |s'.tasks| == |s.tasks| + 1;
  }

  /** When payment.success is published, the payment's token is no longer stored; nobody
      else's token is touched. */
  lemma SuccessTakesToken(s: State, a: Action, i: nat)
    requires i < |s.tasks| && !s.tasks[i].SuccessEvent?
    requires i < |Next(s, a).tasks| && Next(s, a).tasks[i].SuccessEvent?
    ensures Next(s, a).tokens == s.tokens - {s.tasks[i].p.token}
    ensures Next(s, a).tasks[i].p.token !in Next(s, a).tokens
  {
    if a.Handle? && a.i < |s.tasks| {
      var row, entry := HandlerMoves(s, a.i, a.fails, a.late, a.now);
      assert s.tasks[i].Paid?;
    }
  }

  lemma HandlerTakesToken(s: State, i: nat, fails: bool, late: bool, now: int, token: Token)
    requires i < |s.tasks|
    ensures token in HandleTask(s, i, fails, late, now).tokens <==>
            token in s.tokens && !(s.tasks[i].Paid? && !late && s.tasks[i].p.token == token)
  {
  }

  /** This step issues the token with a reservation that commits. */
  predicate Issues(s: State, a: Action, token: Token) {
    a.Reserve? && a.token == token && a.tokenIssued && !a.fails && B.Reserve(s.booking, a.user, a.seat).Success?
  }

  /** This step deletes it: it runs out, or its payment is published as a success. */
  predicate Deletes(s: State, a: Action, token: Token) {
    || a == ForgetToken(token)
    || (a.Handle? && a.i < |s.tasks| && s.tasks[a.i].Paid? && !a.late && s.tasks[a.i].p.token == token)
  }

  /** The life of a token: stored after a step exactly if the step issues it, or it was
      stored and the step does not delete it. */
  lemma TokenStoredExactlyWhen(s: State, a: Action, token: Token)
    ensures token in Next(s, a).tokens <==> Issues(s, a, token) || (token in s.tokens && !Deletes(s, a, token))
  {
    if a.Handle? && a.i < |s.tasks| {
      HandlerTakesToken(s, a.i, a.fails, a.late, a.now, token);
    }
  }

  /** No reservation issues this token anew. */
  predicate NeverIssued(actions: seq<Action>, token: Token) {
    forall a :: a in actions ==> !(a.Reserve? && a.tokenIssued && a.token == token)
  }

  /** A token that is not stored, a deleted one for instance, is refused in every
      continuation that does not issue it again. */
  lemma {:induction false} UsedTokenIsRefused(s: State, actions: seq<Action>, token: Token)
    requires token !in s.tokens && NeverIssued(actions, token)
    ensures token !in Run(s, actions).tokens
    ensures forall user, reservation, tx ::
              Next(Run(s, actions), Request(user, reservation, token, tx)) == Run(s, actions)
  {
    if actions != [] {
      assert actions[|actions| - 1] in actions;
      UsedTokenIsRefused(s, actions[..|actions| - 1], token);
      TokenStoredExactlyWhen(Run(s, actions[..|actions| - 1]), actions[|actions| - 1], token);
    }
  }

  /** No seat ever had two reservations: the unique index on reservations.seat_id. */
  predicate SeatsDiffer(reservations: seq<ReservationRow>) {
    forall i, j :: 0 <= i < j < |reservations| ==> reservations[i].seat != reservations[j].seat
  }

  /** Under the unique index, an accepted request pays for the reservation its token was
      issued with if and only if that reservation's seat is the one the token names, a
      check the program does not make; and then the reservation is the payer's own. */
  lemma RequestMatchesTokenExactlyWhen(s: State, user: int, reservation: nat, token: Token)
    requires Reachable(s) && SeatsDiffer(s.booking.reservations)
    requires token in s.tokens && s.tokens[token].user == user && reservation < |s.booking.reservations|
    ensures reservation == s.tokens[token].reservation
            <==> s.booking.reservations[reservation].seat == s.tokens[token].seat
    ensures reservation == s.tokens[token].reservation ==> s.booking.reservations[reservation].user == user
  {
    ReachableIsInv(s);
  }

  // ---------- expiry jobs ----------

  ghost predicate Jobless(s: State, id: nat) {
    && id < |s.booking.reservations| && s.booking.reservations[id].status != Expired
    && forall j :: j in s.jobs ==> j.0 != id
  }

  lemma NextKeepsJobless(s: State, a: Action, id: nat)
    requires Jobless(s, id)
    ensures Jobless(Next(s, a), id)
  {
    if a.Handle? && a.i < |s.tasks| {
      HandlerKeepsJobless(s, a.i, a.fails, a.late, a.now, id);
    }
  }

  lemma HandlerKeepsJobless(s: State, i: nat, fails: bool, late: bool, now: int, id: nat)
    requires i < |s.tasks| && Jobless(s, id)
    ensures Jobless(HandleTask(s, i, fails, late, now), id)
  {
  }

  /** A reservation left without an expiry job never expires, in any continuation. */
  lemma {:induction false} WithoutJobNeverExpires(s: State, actions: seq<Action>, id: nat)
    requires Jobless(s, id)
    ensures Jobless(Run(s, actions), id)
  {
    if actions != [] {
      WithoutJobNeverExpires(s, actions[..|actions| - 1], id);
      NextKeepsJobless(Run(s, actions[..|actions| - 1]), actions[|actions| - 1], id);
    }
  }

  predicate IsExpired(s: B.Store, id: nat) {
    id < |s.reservations| && s.reservations[id].status == Expired
  }

  ghost predicate MayExpire(s: State, id: nat) {
    exists actions :: IsExpired(Run(s, actions).booking, id)
  }

  lemma JobExpires(s: State, id: nat, seat: int)
    requires B.Agreement(s.booking) && JobsOk(s.jobs, s.booking.reservations) && (id, seat) in s.jobs
    requires id < |s.booking.reservations| && s.booking.reservations[id].status == Pending
    ensures IsExpired(Next(s, Expire(id, seat, false)).booking, id)
  {
    B.CommitsExactlyWhen(s.booking, B.ExpireOp(id, seat));
  }

  lemma OneStepExpires(s: State, a: Action, id: nat)
    requires IsExpired(Next(s, a).booking, id)
    ensures MayExpire(s, id)
  {
    assert [a][..0] == [];
    assert Run(s, [a]) == Next(s, a);
  }

  lemma JoblessMayNotExpire(s: State, id: nat)
    requires Jobless(s, id)
    ensures !MayExpire(s, id)
  {
    forall actions ensures !IsExpired(Run(s, actions).booking, id) {
      WithoutJobNeverExpires(s, actions, id);
    }
  }

  /** A PENDING reservation can expire in some continuation if and only if its expiry job
      was queued. */
  lemma ExpiresExactlyWhen(s: State, id: nat)
    requires Reachable(s) && id < |s.booking.reservations| && s.booking.reservations[id].status == Pending
    ensures MayExpire(s, id) <==> exists seat :: (id, seat) in s.jobs
  {
    ReachableIsInv(s);
    if seat :| (id, seat) in s.jobs {
      JobExpires(s, id, seat);
      OneStepExpires(s, Expire(id, seat, false), id);
    } else {
      assert forall j :: j in s.jobs ==> j == (j.0, j.1);
      JoblessMayNotExpire(s, id);
    }
  }
}

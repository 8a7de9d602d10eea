/** The payment service and its Kafka consumer, statement by statement, each proved
    to take the saga's steps. One caller runs at a time here; what interleaving adds
    is the subject of PointRuns and of the saga modules. */
module Payments {
  import opened Tables
  import opened Entities
  import opened Backend
  import opened Saga
  import P = Points

  /** What goes wrong during one handler run. */
  datatype Env = Env(lookupFails: bool, insertFails: bool, lockGranted: bool, deductFails: bool, releaseFails: bool,
                     tokenDeleteFails: bool, statusFails: bool)

  /** The database may refuse a transaction that got through its guards. */
  function Outcome(r: Result<P.Store, P.Error>, fails: bool): Result<P.Store, P.Error> {
    if r.Success? && fails then Failure(P.DbFailure) else r
  }

  /** What the caller of a balance transaction under the lock gets: the new balance, or
      the error. */
  function Answer(r: Result<P.Store, P.Error>, user: int, lockGranted: bool, releaseFails: bool): Result<int, P.Error> {
    if !lockGranted || releaseFails then Failure(P.LockFailure)
    else match r case Success(points) => Success(P.BalanceOf(points, user)) case Failure(e) => Failure(e)
  }

  // ---------- handler runs with nobody in between ----------

  /** executePayment. */
  function PayRun(s: State, i: nat, env: Env): State
    requires i < |s.tasks| && s.tasks[i].Executing?
  {
    var s := HandleExecuting(s, i, !env.lockGranted || env.deductFails);
    if s.tasks[i].Paid? then HandlePaid(s, i, env.releaseFails || env.tokenDeleteFails) else s
  }

  /** And the catch block around it. */
  function AttemptRun(s: State, i: nat, env: Env): State
    requires i < |s.tasks| && s.tasks[i].Executing?
  {
    var s := PayRun(s, i, env);
    if s.tasks[i].AttemptFailed? then HandleAttemptFailed(s, i, env.statusFails) else s
  }

  function TryRun(s: State, i: nat, env: Env): State
    requires i < |s.tasks| && s.tasks[i].TryEvent?
  {
    if env.lookupFails then HandleTry(s, i, env.statusFails, true)
    else
      var s := HandleTry(s, i, env.insertFails, false);
      if s.tasks[i].Executing? then AttemptRun(s, i, env) else s
  }

  function RetryRun(s: State, i: nat, env: Env): State
    requires i < |s.tasks| && s.tasks[i].RetryEvent?
  {
    AttemptRun(HandleRetry(s, i), i, env)
  }

  lemma RunTwo(s: State, actions: seq<Action>, a: Action)
    ensures Run(s, actions + [a]) == Next(Run(s, actions), a)
  {
    assert (actions + [a])[..|actions|] == actions;
  }

  lemma HandleStep(from: State, before: seq<Action>, s: State, i: nat, fails: bool, late: bool)
    returns (actions: seq<Action>)
    requires i < |s.tasks| && Run(from, before) == s
    ensures Run(from, actions) == HandleTask(s, i, fails, late, 0)
  {
    actions := before + [Handle(i, fails, late, 0)];
    RunTwo(from, before, Handle(i, fails, late, 0));
  }

  /** A handler that runs alone is a run of the saga: everything proved of saga runs
      holds for the methods below. */
  lemma AttemptRunIsSagaRun(s: State, i: nat, env: Env, before: seq<Action>, from: State)
    returns (actions: seq<Action>)
    requires i < |s.tasks| && s.tasks[i].Executing? && Run(from, before) == s
    ensures Run(from, actions) == AttemptRun(s, i, env)
  {
    var s1 := HandleExecuting(s, i, !env.lockGranted || env.deductFails);
    actions := HandleStep(from, before, s, i, !env.lockGranted || env.deductFails, false);
    if s1.tasks[i].Paid? {
      var late := env.releaseFails || env.tokenDeleteFails;
      actions := HandleStep(from, actions, s1, i, false, late);
      if late {
        actions := HandleStep(from, actions, HandlePaid(s1, i, late), i, env.statusFails, false);
      }
    } else {
      actions := HandleStep(from, actions, s1, i, env.statusFails, false);
    }
  }

  lemma TryRunIsSagaRun(s: State, i: nat, env: Env) returns (actions: seq<Action>)
    requires i < |s.tasks| && s.tasks[i].TryEvent?
    ensures Run(s, actions) == TryRun(s, i, env)
  {
    if env.lookupFails {
      actions := HandleStep(s, [], s, i, env.statusFails, true);
      return;
    }
    var s1 := HandleTry(s, i, env.insertFails, false);
    actions := HandleStep(s, [], s, i, env.insertFails, false);
    if s1.tasks[i].Executing? {
      actions := AttemptRunIsSagaRun(s1, i, env, actions, s);
    }
  }

  lemma RetryRunIsSagaRun(s: State, i: nat, env: Env) returns (actions: seq<Action>)
    requires i < |s.tasks| && s.tasks[i].RetryEvent?
    ensures Run(s, actions) == RetryRun(s, i, env)
  {
    RunTwo(s, [], Handle(i, false, false, 0));
    actions := AttemptRunIsSagaRun(HandleRetry(s, i), i, env, [] + [Handle(i, false, false, 0)], s);
  }

  // ---------- what a handler run comes to ----------

  /** The balance the attempt may deduct from. */
  predicate Affordable(s: State, p: Payload) {
    p.user in s.points.balances && s.points.balances[p.user] >= p.amount
  }

  /** The attempt commits a deduction. */
  predicate Deducts(s: State, p: Payload, env: Env) {
    env.lockGranted && !env.deductFails && Affordable(s, p)
  }

  /** And nothing errs after it. */
  predicate Completes(s: State, p: Payload, env: Env) {
    Deducts(s, p, env) && !env.releaseFails && !env.tokenDeleteFails
  }

  /** What an attempt leaves of balances, history and tokens; nothing else is touched. */
  ghost predicate Attempted(s: State, s': State, p: Payload, env: Env) {
    && s'.booking == s.booking && s'.jobs == s.jobs
    && s'.tokens == (if Completes(s, p, env) then s.tokens - {p.token} else s.tokens)
    && (!Deducts(s, p, env) ==> s'.points == s.points)
    && (Deducts(s, p, env) ==>
          && s'.points.balances == s.points.balances[p.user := s.points.balances[p.user] - p.amount]
          && s'.points.history == s.points.history + [HistoryRow(p.user, HistoryKind.Use, p.amount, Some(p.tx))])
  }

  /** Only the row of payment tx is written, with this status and retry count. */
  ghost predicate RowWritten(before: map<TxId, PaymentRow>, after: map<TxId, PaymentRow>, tx: TxId,
                             status: PaymentStatus, retryCount: nat) {
    tx in before && after == before[tx := PaymentRow(before[tx].user, before[tx].seat, status, retryCount)]
  }

  lemma PayRunOutcome(s: State, i: nat, env: Env)
    requires i < |s.tasks| && s.tasks[i].Executing?
    ensures var p, k, s' := s.tasks[i].p, s.tasks[i].attempt, PayRun(s, i, env);
            && Attempted(s, s', p, env) && s'.payments == s.payments
            && s'.tasks == s.tasks[i := if Completes(s, p, env) then SuccessEvent(p) else AttemptFailed(p, k)]
  {
  }

  lemma CatchOutcome(s: State, i: nat, statusFails: bool)
    requires i < |s.tasks| && s.tasks[i].AttemptFailed?
    ensures var p, k, s' := s.tasks[i].p, s.tasks[i].attempt, HandleAttemptFailed(s, i, statusFails);
            && s'.points == s.points && s'.booking == s.booking && s'.tokens == s.tokens && s'.jobs == s.jobs
            && if statusFails || p.tx !in s.payments then s'.tasks == s.tasks[i := Done(p)] && s'.payments == s.payments
               else if k < 3 then
                 && s'.tasks == s.tasks[i := RetryEvent(p, k + 1)]
                 && RowWritten(s.payments, s'.payments, p.tx, PaymentRetrying, k + 1)
               else
                 && s'.tasks == s.tasks[i := Done(p)]
                 && RowWritten(s.payments, s'.payments, p.tx, PaymentFailure, s.payments[p.tx].retryCount)
  {
  }

  lemma AttemptRunOutcome(s: State, i: nat, env: Env)
    requires i < |s.tasks| && s.tasks[i].Executing?
    ensures var p, k, s' := s.tasks[i].p, s.tasks[i].attempt, AttemptRun(s, i, env);
            && Attempted(s, s', p, env)
            && if Completes(s, p, env) then s'.tasks == s.tasks[i := SuccessEvent(p)] && s'.payments == s.payments
               else if env.statusFails || p.tx !in s.payments then
                 s'.tasks == s.tasks[i := Done(p)] && s'.payments == s.payments
               else if k < 3 then
                 && s'.tasks == s.tasks[i := RetryEvent(p, k + 1)]
                 && RowWritten(s.payments, s'.payments, p.tx, PaymentRetrying, k + 1)
               else
                 && s'.tasks == s.tasks[i := Done(p)]
                 && RowWritten(s.payments, s'.payments, p.tx, PaymentFailure, s.payments[p.tx].retryCount)
  {
    PayRunOutcome(s, i, env);
    if !Completes(s, s.tasks[i].p, env) {
      CatchOutcome(PayRun(s, i, env), i, env.statusFails);
    }
  }

  /** The run of payment.try gets past the insert of a new row. */
  predicate Creates(s: State, p: Payload, env: Env) {
    !env.lookupFails && !env.insertFails && p.tx !in s.payments
  }

  /** What payment.try comes to: payment.success exactly if a new row was created and the
      deduction went through with no error after it; payment.retry 1, its row RETRYING
      with count 1, exactly if there is a row to mark, the mark does not fail, and either
      the duplicate check failed or the attempt of a created row did; otherwise the
      message is over, and a row that was created stays PENDING. */
  lemma TryRunOutcome(s: State, i: nat, env: Env)
    requires i < |s.tasks| && s.tasks[i].TryEvent?
    ensures var p, s' := s.tasks[i].p, TryRun(s, i, env);
            var created, known := Creates(s, p, env), p.tx in s.payments;
            && |s'.tasks| == |s.tasks| && s'.tasks == s.tasks[i := s'.tasks[i]]
            && s'.tasks[i] in {SuccessEvent(p), RetryEvent(p, 1), Done(p)}
            && (s'.tasks[i] == SuccessEvent(p) <==> created && Completes(s, p, env))
            && (s'.tasks[i] == RetryEvent(p, 1) <==>
                  !env.statusFails && ((created && !Completes(s, p, env)) || (env.lookupFails && known)))
            && s'.payments ==
               (if s'.tasks[i].RetryEvent? then
                  s.payments[p.tx := PaymentRow(if known then s.payments[p.tx].user else p.user,
                                                if known then s.payments[p.tx].seat else p.seat, PaymentRetrying, 1)]
                else if created then s.payments[p.tx := PaymentRow(p.user, p.seat, PaymentPending, 0)]
                else s.payments)
            && (if created then Attempted(s, s', p, env) else s'.points == s.points && s'.tokens == s.tokens)
            && s'.booking == s.booking && s'.jobs == s.jobs
  {
    var p := s.tasks[i].p;
    if Creates(s, p, env) {
      AttemptRunOutcome(HandleTry(s, i, false, false), i, env);
    }
  }

  /** What payment.retry k comes to: payment.success exactly if the deduction goes through
      with no error after it; otherwise, unless the status cannot be written,
      payment.retry k + 1 below the third retry, and FAILURE after it. */
  lemma RetryRunOutcome(s: State, i: nat, env: Env)
    requires i < |s.tasks| && s.tasks[i].RetryEvent?
    ensures var p, k, s' := s.tasks[i].p, s.tasks[i].attempt, RetryRun(s, i, env);
            var marks := !Completes(s, p, env) && !env.statusFails && p.tx in s.payments;
            && |s'.tasks| == |s.tasks| && s'.tasks == s.tasks[i := s'.tasks[i]]
            && s'.tasks[i] in {SuccessEvent(p), RetryEvent(p, k + 1), Done(p)}
            && (s'.tasks[i] == SuccessEvent(p) <==> Completes(s, p, env))
            && (s'.tasks[i] == RetryEvent(p, k + 1) <==> marks && k < 3)
            && (marks && k < 3 ==> RowWritten(s.payments, s'.payments, p.tx, PaymentRetrying, k + 1))
            && (marks && k >= 3 ==>
                  RowWritten(s.payments, s'.payments, p.tx, PaymentFailure, s.payments[p.tx].retryCount))
            && (!marks ==> s'.payments == s.payments)
            && Attempted(s, s', p, env)
  {
    AttemptRunOutcome(HandleRetry(s, i), i, env);
  }

  // ---------- the service ----------

  class PaymentService {
    const db: Stores
    const userPoints: UserPointRepository
    const histories: PointHistoryRepository
    const transactions: PaymentTransactionRepository
    const reservations: ReservationRepository

    constructor (db: Stores)
      ensures this.db == db && Wired()
    {
      this.db := db;
      userPoints := new UserPointRepository(db);
      histories := new PointHistoryRepository(db);
      transactions := new PaymentTransactionRepository(db);
      reservations := new ReservationRepository(db);
    }

    predicate Wired() {
      userPoints.db == db && histories.db == db && transactions.db == db && reservations.db == db
    }

    /** Creates the balance row if there is none; everything is undone when the
        amount is refused or the commit fails. */
    method ChargeTransaction(userId: int, amount: int, fails: bool) returns (r: Result<int, P.Error>)
      requires Wired()
      modifies db`points
      ensures match Outcome(P.ChargeTx(old(db.points), userId, amount, 0), fails)
              case Success(points) => db.points == points && r == Success(P.BalanceOf(points, userId))
              case Failure(e) => db.points == old(db.points) && r == Failure(e)
      ensures r.Success? <==> amount <= P.MAX_CHARGE_AMOUNT && !fails
      ensures r.Success? ==>
                && r.value == P.BalanceOf(old(db.points), userId) + amount
                && db.points.balances == old(db.points).balances[userId := r.value]
                && db.points.history == old(db.points).history + [HistoryRow(userId, HistoryKind.Charge, amount, None)]
    {
      var begin := db.points;
      var userPoint := userPoints.FindOne(userId);
      if userPoint == null {
        userPoint := userPoints.Create(userId);
      }
      histories.Create(userId, HistoryKind.Charge, amount, None);
      var error := userPoint.Charge(amount);
      if error.Some? {
        db.points := begin;
        return Failure(error.value);
      }
      var updated := userPoints.Update(userPoint);
      if !updated || fails {
        db.points := begin;
        return Failure(P.DbFailure);
      }
      assert db.points.balances == begin.balances[userId := userPoint.balance];
      r := Success(userPoint.balance);
    }

    /** The history row is written before the guard; a refused use takes it back. */
    method UseTransaction(userId: int, amount: int, tx: Option<TxId>, fails: bool) returns (r: Result<int, P.Error>)
      requires Wired()
      modifies db`points
      ensures match Outcome(P.UseTx(old(db.points), userId, amount, tx), fails)
              case Success(points) => db.points == points && r == Success(P.BalanceOf(points, userId))
              case Failure(e) => db.points == old(db.points) && r == Failure(e)
      ensures r.Success? <==> userId in old(db.points).balances && old(db.points).balances[userId] >= amount && !fails
      ensures r.Success? ==>
                && r.value == P.BalanceOf(old(db.points), userId) - amount
                && db.points.balances == old(db.points).balances[userId := r.value]
                && db.points.history == old(db.points).history + [HistoryRow(userId, HistoryKind.Use, amount, tx)]
    {
      var begin := db.points;
      var userPoint := userPoints.SelectForUpdate(userId);
      if userPoint == null {
        return Failure(P.NotFoundUserPoint);
      }
      histories.Create(userId, HistoryKind.Use, amount, tx);
      var error := userPoint.Use(amount);
      if error.Some? {
        db.points := begin;
        return Failure(error.value);
      }
      var updated := userPoints.Update(userPoint);
      if !updated || fails {
        db.points := begin;
        return Failure(P.DbFailure);
      }
      r := Success(userPoint.balance);
    }

    method CancelPayment(userId: int, amount: int, tx: Option<TxId>, fails: bool) returns (r: Result<int, P.Error>)
      requires Wired()
      modifies db`points
      ensures match Outcome(P.RefundTx(old(db.points), userId, amount, tx), fails)
              case Success(points) => db.points == points && r == Success(P.BalanceOf(points, userId))
              case Failure(e) => db.points == old(db.points) && r == Failure(e)
      ensures r.Success? <==> userId in old(db.points).balances && !fails
      ensures r.Success? ==>
                && r.value == P.BalanceOf(old(db.points), userId) + amount
                && db.points.balances == old(db.points).balances[userId := r.value]
                && db.points.history == old(db.points).history + [HistoryRow(userId, HistoryKind.Refund, amount, tx)]
    {
      var begin := db.points;
      var userPoint := userPoints.SelectForUpdate(userId);
      if userPoint == null {
        return Failure(P.NotFoundUserPoint);
      }
      histories.Create(userId, HistoryKind.Refund, amount, tx);
      userPoint.Refund(amount);
      var updated := userPoints.Update(userPoint);
      if !updated || fails {
        db.points := begin;
        return Failure(P.DbFailure);
      }
      r := Success(userPoint.balance);
    }

    /** charge and use, under the user's lock: the transaction takes place if the lock
        is granted, and an error while releasing it is all the caller gets to see. */
    method Charge(userId: int, amount: int, lockGranted: bool, fails: bool, releaseFails: bool)
      returns (r: Result<int, P.Error>)
      requires Wired()
      modifies db`points, db`audit
      ensures db.View() == Next(old(db.View()), Action.Charge(userId, amount, 0, !lockGranted || fails))
      ensures var outcome := Outcome(P.ChargeTx(old(db.points), userId, amount, 0), fails);
              r == Answer(outcome, userId, lockGranted, releaseFails)
      ensures r.Success? <==> lockGranted && !releaseFails && !fails && amount <= P.MAX_CHARGE_AMOUNT
      ensures r.Success? ==>
                && userId in db.points.balances && r.value == db.points.balances[userId]
                && r.value == P.BalanceOf(old(db.points), userId) + amount
    {
      if !lockGranted {
        return Failure(P.LockFailure);
      }
      r := ChargeTransaction(userId, amount, fails);
      if r.Success? {
        db.audit := db.audit + [Stale(userId, 0)];
      }
      if releaseFails {
        r := Failure(P.LockFailure);
      }
    }

    method Use(userId: int, amount: int, lockGranted: bool, fails: bool, releaseFails: bool)
      returns (r: Result<int, P.Error>)
      requires Wired()
      modifies db`points
      ensures db.View() == Next(old(db.View()), Spend(userId, amount, !lockGranted || fails))
      ensures var outcome := Outcome(P.UseTx(old(db.points), userId, amount, None), fails);
              r == Answer(outcome, userId, lockGranted, releaseFails)
      ensures r.Success? <==>
              && lockGranted && !releaseFails && !fails
              && userId in old(db.points).balances && old(db.points).balances[userId] >= amount
      ensures r.Success? ==>
                && userId in db.points.balances && r.value == db.points.balances[userId]
                && r.value == old(db.points).balances[userId] - amount
    {
      if !lockGranted {
        return Failure(P.LockFailure);
      }
      r := UseTransaction(userId, amount, None, fails);
      if releaseFails {
        r := Failure(P.LockFailure);
      }
    }

    /** payment-token: the token is in Redis and was signed for this user. */
    method VerifyToken(userId: int, token: Token) returns (valid: bool)
      ensures valid == (token in db.tokens && db.tokens[token].user == userId)
    {
      valid := token in db.tokens && db.tokens[token].user == userId;
    }

    method DeleteToken(token: Token)
      modifies db`tokens
      ensures db.tokens == old(db.tokens) - {token}
    {
      db.tokens := db.tokens - {token};
    }

    /** Publishes payment.try for the reservation's price; true when accepted. */
    method ProcessPaymentAndReservation(userId: int, reservationId: nat, paymentToken: Token, paymentTxId: TxId)
      returns (accepted: bool)
      requires Wired() && Fresh(db.View(), paymentTxId)
      modifies db`tasks
      ensures db.View() == Next(old(db.View()), Request(userId, reservationId, paymentToken, paymentTxId))
      ensures accepted == (|db.tasks| == |old(db.tasks)| + 1)
    {
      var isValidToken := VerifyToken(userId, paymentToken);
      if !isValidToken {
        return false;
      }
      var reservation := reservations.FindOne(reservationId);
      if reservation == null {
        return false;
      }
      db.tasks := db.tasks +
        [TryEvent(Payload(reservationId, userId, reservation.seat, reservation.price, paymentTxId, paymentToken))];
      accepted := true;
    }

    /** Deducts under the lock, deletes the token and publishes payment.success; an
        error at any point is thrown, whether or not the deduction was committed. */
    method ExecutePayment(i: nat, env: Env) returns (ok: bool)
      requires Wired() && i < |db.tasks| && db.tasks[i].Executing?
      modifies db
      ensures db.View() == PayRun(old(db.View()), i, env)
      ensures i < |db.tasks| && (ok ==> db.tasks[i].SuccessEvent?)
      ensures !ok ==> db.tasks[i].AttemptFailed? && db.tasks[i].attempt == old(db.tasks[i].attempt)
      ensures ok == Completes(old(db.View()), old(db.tasks[i].p), env)
      ensures db.tokens == if ok then old(db.tokens) - {old(db.tasks[i].p.token)} else old(db.tokens)
    {
      var p, k := db.tasks[i].p, db.tasks[i].attempt;
      db.audit := db.audit + [Attempt(p.tx)];
      if !env.lockGranted {
        db.Put(i, AttemptFailed(p, k));
        return false;
      }
      var r := UseTransaction(p.user, p.amount, Some(p.tx), env.deductFails);
      if r.Failure? {
        db.Put(i, AttemptFailed(p, k));
        return false;
      }
      if env.releaseFails || env.tokenDeleteFails {
        db.audit := db.audit + [Lost(p.tx, p.amount)];
        db.Put(i, AttemptFailed(p, k));
        return false;
      }
      DeleteToken(p.token);
      db.Put(i, SuccessEvent(p));
      ok := true;
    }

    /** Marks the row RETRYING and publishes payment.retry; publishes nothing if the
        row is missing or cannot be updated. */
    method PublishPaymentRetry(i: nat, retryCount: nat, fails: bool) returns (published: bool)
      requires Wired() && i < |db.tasks|
      modifies db`payments, db`tasks
      ensures var p, before := old(db.tasks)[i].p, old(db.payments);
              && published == (p.tx in before && !fails)
              && db.tasks == old(db.tasks)[i := if published then RetryEvent(p, retryCount) else Done(p)]
              && db.payments ==
                 if published then before[p.tx := before[p.tx].(status := PaymentRetrying, retryCount := retryCount)]
                 else before
    {
      var p := db.tasks[i].p;
      published := transactions.UpdateStatus(p.tx, PaymentRetrying, Some(retryCount), fails);
      db.Put(i, if published then RetryEvent(p, retryCount) else Done(p));
    }

    /** Marks the row FAILURE; payment.failure goes to a topic nobody consumes. */
    method PublishPaymentFailure(i: nat, fails: bool)
      requires Wired() && i < |db.tasks| && db.tasks[i].AttemptFailed? && db.tasks[i].attempt >= MAX_RETRY
      modifies db`payments, db`tasks
      ensures db.View() == HandleAttemptFailed(old(db.View()), i, fails)
    {
      var p := db.tasks[i].p;
      var updated := transactions.UpdateStatus(p.tx, PaymentFailure, None, fails);
      db.Put(i, Done(p));
    }

    method PublishPaymentCancel(i: nat, fails: bool)
      requires Wired() && i < |db.tasks| && db.tasks[i].ReservationFailureEvent?
      modifies db
      ensures db.View() == HandleReservationFailure(old(db.View()), i, fails)
    {
      var p := db.tasks[i].p;
      var updated := transactions.UpdateStatus(p.tx, PaymentCancel, None, fails);
      if updated {
        db.Put(i, CancelEvent(p));
      } else {
        db.audit := db.audit + [Unreturned(p.tx, p.amount)];
        db.Put(i, Done(p));
      }
    }
  }

  // ---------- the consumers ----------

  class PaymentKafkaEventConsumer {
    const service: PaymentService

    constructor (service: PaymentService)
      ensures this.service == service
    {
      this.service := service;
    }

    /** A duplicate is dropped; a failure at any point is published as retry 1, if there
        is a row to mark. */
    method OnPaymentTry(i: nat, env: Env)
      requires service.Wired() && i < |service.db.tasks| && service.db.tasks[i].TryEvent?
      modifies service.db
      ensures service.db.View() == TryRun(old(service.db.View()), i, env)
    {
      var db := service.db;
      var p := db.tasks[i].p;
      if env.lookupFails {
        var published := service.PublishPaymentRetry(i, 1, env.statusFails);
        if published {
          db.audit := db.audit + [Restart(p.tx)];
        }
        return;
      }
      var pendingTransaction := service.transactions.FindByPaymentTxId(p.tx);
      if pendingTransaction.Some? {
        db.Put(i, Done(p));
        return;
      }
      var created := service.transactions.Create(p.tx, p.user, p.seat, PaymentPending, env.insertFails);
      if !created {
        var published := service.PublishPaymentRetry(i, 1, env.statusFails);
        return;
      }
      db.Put(i, Executing(p, 0));
      var ok := service.ExecutePayment(i, env);
      if !ok {
        var published := service.PublishPaymentRetry(i, 1, env.statusFails);
      }
    }

    /** The catch block of payment.retry. */
    method RetryOrFail(i: nat, retryCount: nat, statusFails: bool)
      requires service.Wired() && i < |service.db.tasks|
      requires service.db.tasks[i].AttemptFailed? && service.db.tasks[i].attempt == retryCount
      modifies service.db
      ensures service.db.View() == HandleAttemptFailed(old(service.db.View()), i, statusFails)
    {
      if retryCount < 3 {
        var published := service.PublishPaymentRetry(i, retryCount + 1, statusFails);
      } else {
        service.PublishPaymentFailure(i, statusFails);
      }
    }

    /** Waits, tries again, and publishes the next retry or, after the third, the failure. */
    method OnPaymentRetry(i: nat, env: Env)
      requires service.Wired() && i < |service.db.tasks| && service.db.tasks[i].RetryEvent?
      modifies service.db
      ensures service.db.View() == RetryRun(old(service.db.View()), i, env)
    {
      var db := service.db;
      var p, retryCount := db.tasks[i].p, db.tasks[i].attempt;
      db.audit := db.audit + [Backoff(p.tx, if retryCount >= 1 then Delay(retryCount) else 0)];
      db.Put(i, Executing(p, retryCount));
      var ok := service.ExecutePayment(i, env);
      if !ok {
        RetryOrFail(i, retryCount, env.statusFails);
      }
    }

    /** An error while refunding is logged and swallowed. */
    method OnPaymentCancel(i: nat, fails: bool)
      requires service.Wired() && i < |service.db.tasks| && service.db.tasks[i].CancelEvent?
      modifies service.db
      ensures service.db.View() == HandleCancel(old(service.db.View()), i, fails)
    {
      var db := service.db;
      var p := db.tasks[i].p;
      var r := service.CancelPayment(p.user, p.amount, Some(p.tx), fails);
      if r.Failure? {
        db.audit := db.audit + [Unreturned(p.tx, p.amount)];
      }
      db.Put(i, Done(p));
    }
  }

  class ReservationKafkaEventConsumer {
    const service: PaymentService

    constructor (service: PaymentService)
      ensures this.service == service
    {
      this.service := service;
    }

    method OnReservationFailure(i: nat, fails: bool)
      requires service.Wired() && i < |service.db.tasks| && service.db.tasks[i].ReservationFailureEvent?
      modifies service.db
      ensures service.db.View() == HandleReservationFailure(old(service.db.View()), i, fails)
    {
      service.PublishPaymentCancel(i, fails);
    }
  }
}

/** The whole system at the granularity of single SQL statements and Redis commands.

    The balance transactions of PointRuns and the seat transactions of BookingRuns run
    interleaved, statement by statement, with the handlers of the saga. A handler whose
    message needs a transaction starts one, and the message moves on when that
    transaction has committed or aborted. Every such run is a run of the saga whose
    transactions are single steps, so what is proved of the saga holds here. */
module StatementSaga {
  import opened Tables
  import P = Points
  import B = Booking
  import PR = PointRuns
  import BR = BookingRuns
  import S = Saga
  import I = SagaInvariant
  import M = SagaMoney
  import F = SagaFaults
  import opened Sums

  /** `payers` and `settlers` name the message on whose behalf each transaction runs, if any. */
  datatype State = State(points: PR.State, booking: BR.State, payers: seq<Option<nat>>, settlers: seq<Option<nat>>,
                         payments: map<TxId, PaymentRow>, tokens: map<Token, Claim>, jobs: set<(nat, int)>,
                         tasks: seq<S.Task>, audit: seq<S.Audit>)

  /** Start... begins a transaction; Point and Book run the next statement of one, and
      Book carries what happens right after a commit. Other is a step of the saga that is
      not a transaction on balances, seats or reservations. */
  datatype Action =
    | StartCharge(user: int, amount: int)
    | StartSpend(user: int, amount: int)
    | StartPayment(i: nat)
    | Point(k: nat, fails: bool)
    | ReleaseLock(k: nat)
    | LockTimeout(user: int)
    | StartReserve(user: int, seat: int, version: nat)
    | StartConfirm(i: nat, now: int, version: nat)
    | StartExpire(id: nat, seat: int, version: nat)
    | Book(k: nat, version: nat, fails: bool, late: bool, token: Token, tokenIssued: bool, jobQueued: bool)
    | Other(step: S.Action)

  function Initial(seats: map<int, SeatRow>): State {
    State(PR.Initial(P.EMPTY), BR.Initial(B.Store(seats, [])), [], [], map[], map[], {}, [], [])
  }

  /** What is committed: the state of the saga. */
  function View(s: State): S.State {
    S.State(s.points.db, s.booking.db, s.payments, s.tokens, s.jobs, s.tasks, s.audit)
  }

  /** Whether a transaction has committed, once it is over. */
  function PointEnd(t: PR.Txn): Option<bool> {
    match t.phase
    case Ended(committed) => Some(committed)
    case Released(committed) => Some(committed)
    case _ => None
  }

  function BookEnd(t: BR.Txn): Option<bool> {
    if t.phase.Ended? then Some(t.phase.committed) else None
  }

  /** The balance transaction a message needs. */
  function PaymentOp(t: S.Task): Option<P.Op> {
    match t
    case Executing(p, _) => Some(P.UseOp(p.user, p.amount, Some(p.tx)))
    case CancelEvent(p) => Some(P.RefundOp(p.user, p.amount, Some(p.tx)))
    case _ => None
  }

  /** A task runs one transaction at a time. */
  predicate NotPaying(s: State, i: nat) {
    forall k :: 0 <= k < |s.payers| && k < |s.points.txns| && s.payers[k] == Some(i) ==>
      PointEnd(s.points.txns[k]).Some?
  }

  predicate NotSettling(s: State, i: nat) {
    forall k :: 0 <= k < |s.settlers| && k < |s.booking.txns| && s.settlers[k] == Some(i) ==>
      BookEnd(s.booking.txns[k]).Some?
  }

  function StartPoint(s: State, op: P.Op, payer: Option<nat>): State {
    s.(points := PR.Next(s.points, PR.Start(op)), payers := s.payers + [payer])
  }

  function StartBook(s: State, op: B.Op, version: nat, settler: Option<nat>): State {
    if !BR.Enabled(s.booking, BR.Start(op, version)) then s
    else s.(booking := BR.Next(s.booking, BR.Start(op, version)), settlers := s.settlers + [settler])
  }

  function Put(s: State, i: nat, t: S.Task, entries: seq<S.Audit>): State
    requires i < |s.tasks|
  {
    s.(tasks := s.tasks[i := t], audit := s.audit + entries)
  }

  /** The message on whose behalf a balance transaction ran moves on. */
  function Paying(s: State, i: nat, committed: bool): State {
    if i >= |s.tasks| then s
    else match s.tasks[i]
      case Executing(p, k) => Put(s, i, if committed then S.Paid(p, k) else S.AttemptFailed(p, k), [S.Attempt(p.tx)])
      case CancelEvent(p) => Put(s, i, S.Done(p), if committed then [] else [S.Unreturned(p.tx, p.amount)])
      case _ => s
  }

  /** Transaction k is over. */
  function PointOver(s: State, k: nat, committed: bool): State
    requires k < |s.payers| && k < |s.points.txns|
  {
    match s.payers[k]
    case Some(i) => Paying(s, i, committed)
    case None =>
      // For the audit: the gap the charge has just committed with.
      if committed && s.points.txns[k].op.ChargeOp? && s.points.commits != [] then
        var charge := s.points.commits[|s.points.commits| - 1];
        s.(audit := s.audit + [S.Stale(charge.user, P.Gap(charge))])
      else s
  }

  function NextPoint(s: State, k: nat, fails: bool): State {
    if !PR.Enabled(s.points, PR.Advance(k, fails)) || k >= |s.payers| then s
    else
      var s' := s.(points := PR.Statement(s.points, k, fails));
      var end := PointEnd(s'.points.txns[k]);
      if end == None then s' else PointOver(s', k, end.value)
  }

  /** The message on whose behalf a confirmation ran moves on. */
  function Settling(s: State, i: nat, committed: bool, late: bool): State {
    if i >= |s.tasks| || !s.tasks[i].SuccessEvent? then s
    else
      var p := s.tasks[i].p;
      if !committed then Put(s, i, S.ReservationFailureEvent(p), [])
      else if late then Put(s, i, S.ReservationFailureEvent(p), [S.Gifted(p.tx, p.amount)])
      else Put(s, i, S.Done(p), [])
  }

  /** A committed reservation gets its token, and with it its expiry job. */
  function Reserved(s: State, op: B.Op, id: nat, token: Token, tokenIssued: bool, jobQueued: bool): State
    requires op.ReserveOp?
  {
    s.(tokens := if tokenIssued then s.tokens[token := Claim(op.user, op.seat, id)] else s.tokens,
       jobs := if tokenIssued && jobQueued then s.jobs + {(id, op.seat)} else s.jobs)
  }

  function BookOver(s: State, a: Action, id: nat, committed: bool): State
    requires a.Book? && a.k < |s.settlers| && a.k < |s.booking.txns|
  {
    match s.settlers[a.k]
    case Some(i) => Settling(s, i, committed, a.late)
    case None =>
      var op := s.booking.txns[a.k].op;
      if committed && op.ReserveOp? then Reserved(s, op, id, a.token, a.tokenIssued, a.jobQueued) else s
  }

  function NextBook(s: State, a: Action): State
    requires a.Book?
  {
    if !BR.Enabled(s.booking, BR.Advance(a.k, a.version, a.fails)) || a.k >= |s.settlers| then s
    else
      var s' := s.(booking := BR.Statement(s.booking, a.k, a.version, a.fails));
      var end := BookEnd(s'.booking.txns[a.k]);
      // A reservation's id is the number of rows before it.
      if end == None then s' else BookOver(s', a, |s.booking.db.reservations|, end.value)
  }

  /** Not a transaction on balances, seats or reservations. */
  predicate IsOther(s: State, a: S.Action) {
    || a.Request? || a.Redeliver? || a.ForgetToken?
    || (a.Handle? && a.i < |s.tasks| && PaymentOp(s.tasks[a.i]) == None && !s.tasks[a.i].SuccessEvent?)
  }

  function NextOther(s: State, a: S.Action): State {
    if !IsOther(s, a) then s
    else
      var v := S.Next(View(s), a);
      s.(payments := v.payments, tokens := v.tokens, tasks := v.tasks, audit := v.audit)
  }

  function Next(s: State, a: Action): State {
    match a
    case StartCharge(user, amount) => StartPoint(s, P.ChargeOp(user, amount, 0), None)
    case StartSpend(user, amount) => StartPoint(s, P.UseOp(user, amount, None), None)
    case StartPayment(i) =>
      if i < |s.tasks| && PaymentOp(s.tasks[i]).Some? && NotPaying(s, i)
      then StartPoint(s, PaymentOp(s.tasks[i]).value, Some(i)) else s
    case Point(k, fails) => NextPoint(s, k, fails)
    case ReleaseLock(k) => s.(points := PR.Next(s.points, PR.Release(k)))
    case LockTimeout(user) => s.(points := PR.Next(s.points, PR.LockTimeout(user)))
    case StartReserve(user, seat, version) => StartBook(s, B.ReserveOp(user, seat), version, None)
    case StartConfirm(i, now, version) =>
      if i < |s.tasks| && s.tasks[i].SuccessEvent? && NotSettling(s, i)
      then StartBook(s, B.ConfirmOp(s.tasks[i].p.reservation, Stamp(now, s.tasks[i].p.tx)), version, Some(i)) else s
    case StartExpire(id, seat, version) =>
      if (id, seat) in s.jobs then StartBook(s, B.ExpireOp(id, seat), version, None) else s
    case Book(_, _, _, _, _, _, _) => NextBook(s, a)
    case Other(step) => NextOther(s, step)
  }

  function Run(s: State, actions: seq<Action>): State {
    if actions == [] then s else Next(Run(s, actions[..|actions| - 1]), actions[|actions| - 1])
  }

  // ---------- one statement ----------

  /** What a statement of a balance transaction does to the committed tables. */
  lemma PointStatement(p: PR.State, k: nat, fails: bool)
    requires PR.Inv(p, P.EMPTY) && PR.Enabled(p, PR.Advance(k, fails))
    ensures var p', t := PR.Statement(p, k, fails), p.txns[k];
            && PointEnd(t) == None && |p'.txns| == |p.txns| && p'.txns[k].op == t.op
            && (forall j :: 0 <= j < |p.txns| && j != k ==> p'.txns[j] == p.txns[j])
            && if PointEnd(p'.txns[k]) == Some(true) then
                 && |p'.commits| == |p.commits| + 1
                 && var op := p'.commits[|p.commits|];
                    op == (if t.op.ChargeOp? then t.op.(gap := P.Gap(op)) else t.op)
                    && P.Perform(p.db, op) == Success(p'.db)
               else p'.db == p.db
  {
    assert PR.TxnOk(p, k);
    var t := p.txns[k];
    if t.phase.Written? && !fails {
      PR.CommitIsAtomic(p.db, t.op, t.phase.balance);
    }
  }

  /** What a statement of transaction k may do to the committed tables. */
  predicate BookMoved(b: BR.State, b': BR.State, k: nat) {
    && k < |b.txns| == |b'.txns| && BookEnd(b.txns[k]) == None && b'.txns[k].op == b.txns[k].op
    && (forall j :: 0 <= j < |b.txns| && j != k ==> b'.txns[j] == b.txns[j])
    && if BookEnd(b'.txns[k]) == Some(true) then B.Perform(b.db, b.txns[k].op) == Success(b'.db) else b'.db == b.db
  }

  lemma BookStatement(b: BR.State, start: B.Store, k: nat, version: nat, fails: bool)
    requires BR.Inv(b, start) && BR.Enabled(b, BR.Advance(k, version, fails))
    ensures BookMoved(b, BR.Statement(b, k, version, fails), k)
  {
    assert BR.TxnOk(b, k);
    if BR.ReadyToCommit(b.txns[k]) {
      BR.CommitIsAtomic(b, start, k);
    }
  }

  // ---------- who runs on whose behalf ----------

  /** An unfinished balance transaction is the one its task needs, or nobody's. */
  predicate PayerOk(payer: Option<nat>, op: P.Op, tasks: seq<S.Task>) {
    match payer
    case Some(i) => i < |tasks| && PaymentOp(tasks[i]) == Some(op)
    case None => op.ChargeOp? || (op.UseOp? && op.tx == None)
  }

  ghost predicate PayersOk(payers: seq<Option<nat>>, txns: seq<PR.Txn>, tasks: seq<S.Task>) {
    && |payers| == |txns|
    && (forall k :: 0 <= k < |txns| && PointEnd(txns[k]) == None ==> PayerOk(payers[k], txns[k].op, tasks))
    && forall j, k ::
         0 <= j < k < |txns| && payers[j].Some? && PointEnd(txns[j]) == None && PointEnd(txns[k]) == None ==>
           payers[j] != payers[k]
  }

  predicate SettlerOk(settler: Option<nat>, op: B.Op, tasks: seq<S.Task>, jobs: set<(nat, int)>) {
    match settler
    case Some(i) =>
      && i < |tasks| && tasks[i].SuccessEvent?
      && op.ConfirmOp? && op.id == tasks[i].p.reservation && op.stamp.tx == tasks[i].p.tx
    case None => op.ReserveOp? || (op.ExpireOp? && (op.id, op.seat) in jobs)
  }

  ghost predicate SettlersOk(settlers: seq<Option<nat>>, txns: seq<BR.Txn>, tasks: seq<S.Task>, jobs: set<(nat, int)>) {
    && |settlers| == |txns|
    && (forall k :: 0 <= k < |txns| && BookEnd(txns[k]) == None ==> SettlerOk(settlers[k], txns[k].op, tasks, jobs))
    && forall j, k ::
         0 <= j < k < |txns| && settlers[j].Some? && BookEnd(txns[j]) == None && BookEnd(txns[k]) == None ==>
           settlers[j] != settlers[k]
  }

  ghost predicate Inv(s: State, start: B.Store) {
    && PR.Inv(s.points, P.EMPTY) && BR.Inv(s.booking, start)
    && PayersOk(s.payers, s.points.txns, s.tasks)
    && SettlersOk(s.settlers, s.booking.txns, s.tasks, s.jobs)
  }

  // ---------- the saga's step behind a statement ----------

  /** The step of the saga that the end of a transaction amounts to, if any. */
  function PaymentShadow(payer: Option<nat>, op: P.Op, commits: seq<P.Op>, committed: bool): Option<S.Action> {
    match payer
    case Some(i) => Some(S.Handle(i, !committed, false, 0))
    case None =>
      if !committed || commits == [] then None
      else if op.ChargeOp? then Some(S.Action.Charge(op.user, op.amount, P.Gap(commits[|commits| - 1]), false))
      else Some(S.Spend(op.user, op.amount, false))
  }

  function PointShadow(s: State, k: nat, fails: bool): Option<S.Action> {
    if !PR.Enabled(s.points, PR.Advance(k, fails)) || k >= |s.payers| then None
    else
      var points := PR.Statement(s.points, k, fails);
      var end := PointEnd(points.txns[k]);
      if end == None then None else PaymentShadow(s.payers[k], s.points.txns[k].op, points.commits, end.value)
  }

  function SettlementShadow(settler: Option<nat>, op: B.Op, a: Action, committed: bool): Option<S.Action>
    requires a.Book?
  {
    match settler
    case Some(i) => Some(S.Handle(i, !committed, committed && a.late, if op.ConfirmOp? then op.stamp.at else 0))
    case None =>
      if !committed then None
      else match op
        case ReserveOp(user, seat) => Some(S.Reserve(user, seat, a.token, false, a.tokenIssued, a.jobQueued))
        case ExpireOp(id, seat) => Some(S.Expire(id, seat, false))
        case ConfirmOp(_, _) => None
  }

  function BookShadow(s: State, a: Action): Option<S.Action>
    requires a.Book?
  {
    if !BR.Enabled(s.booking, BR.Advance(a.k, a.version, a.fails)) || a.k >= |s.settlers| then None
    else
      var end := BookEnd(BR.Statement(s.booking, a.k, a.version, a.fails).txns[a.k]);
      if end == None then None else SettlementShadow(s.settlers[a.k], s.booking.txns[a.k].op, a, end.value)
  }

  function Shadow(s: State, a: Action): Option<S.Action> {
    match a
    case Point(k, fails) => PointShadow(s, k, fails)
    case Book(_, _, _, _, _, _, _) => BookShadow(s, a)
    case Other(step) => if IsOther(s, step) then Some(step) else None
    case _ => None
  }

  function Follow(v: S.State, step: Option<S.Action>): S.State {
    if step == None then v else S.Next(v, step.value)
  }

  lemma PayingFollows(s: State, s': State, i: nat, op: P.Op, committed: bool)
    requires i < |s.tasks| && PaymentOp(s.tasks[i]) == Some(op)
    requires s' == s.(points := s'.points)
    requires if committed then P.Perform(s.points.db, op) == Success(s'.points.db) else s'.points.db == s.points.db
    ensures View(Paying(s', i, committed)) == S.Next(View(s), S.Handle(i, !committed, false, 0))
  {
  }

  /** A transaction of transaction k's kind has ended, from s to s'. */
  lemma PointOverFollows(s: State, s': State, k: nat, op: P.Op, committed: bool)
    requires k < |s.payers| && k < |s'.points.txns| && s'.points.txns[k].op == op && PayerOk(s.payers[k], op, s.tasks)
    requires s' == s.(points := s'.points)
    requires if committed then
               && s'.points.commits != []
               && var c := s'.points.commits[|s'.points.commits| - 1];
                  && c == (if op.ChargeOp? then op.(gap := P.Gap(c)) else op)
                  && P.Perform(s.points.db, c) == Success(s'.points.db)
             else s'.points.db == s.points.db
    ensures View(PointOver(s', k, committed))
            == Follow(View(s), PaymentShadow(s.payers[k], op, s'.points.commits, committed))
  {
    if s.payers[k].Some? {
      PayingFollows(s, s', s.payers[k].value, op, committed);
    }
  }

  lemma PointFollows(s: State, start: B.Store, k: nat, fails: bool)
    requires Inv(s, start)
    ensures View(NextPoint(s, k, fails)) == Follow(View(s), PointShadow(s, k, fails))
  {
    if PR.Enabled(s.points, PR.Advance(k, fails)) {
      PointStatement(s.points, k, fails);
      var s' := s.(points := PR.Statement(s.points, k, fails));
      var end := PointEnd(s'.points.txns[k]);
      if end.Some? {
        PointOverFollows(s, s', k, s.points.txns[k].op, end.value);
      }
    }
  }

  lemma SettlingFollows(s: State, s': State, i: nat, op: B.Op, committed: bool, late: bool)
    requires SettlerOk(Some(i), op, s.tasks, s.jobs)
    requires s' == s.(booking := s'.booking)
    requires if committed then B.Perform(s.booking.db, op) == Success(s'.booking.db) else s'.booking.db == s.booking.db
    ensures View(Settling(s', i, committed, late))
            == S.Next(View(s), S.Handle(i, !committed, committed && late, op.stamp.at))
  {
  }

  lemma BookOverFollows(s: State, s': State, op: B.Op, a: Action, committed: bool)
    requires a.Book? && a.k < |s.settlers| && a.k < |s'.booking.txns| && s'.booking.txns[a.k].op == op
    requires SettlerOk(s.settlers[a.k], op, s.tasks, s.jobs)
    requires s' == s.(booking := s'.booking)
    requires if committed then B.Perform(s.booking.db, op) == Success(s'.booking.db) else s'.booking.db == s.booking.db
    ensures View(BookOver(s', a, |s.booking.db.reservations|, committed))
            == Follow(View(s), SettlementShadow(s.settlers[a.k], op, a, committed))
  {
    if s.settlers[a.k].Some? {
      SettlingFollows(s, s', s.settlers[a.k].value, op, committed, a.late);
    }
  }

  lemma BookFollows(s: State, start: B.Store, a: Action)
    requires Inv(s, start) && a.Book?
    ensures View(NextBook(s, a)) == Follow(View(s), BookShadow(s, a))
  {
    if BR.Enabled(s.booking, BR.Advance(a.k, a.version, a.fails)) {
      BookStatement(s.booking, start, a.k, a.version, a.fails);
      BookMovedFollows(s, BR.Statement(s.booking, a.k, a.version, a.fails), a);
    }
  }

  lemma BookMovedFollows(s: State, b: BR.State, a: Action)
    requires a.Book? && SettlersOk(s.settlers, s.booking.txns, s.tasks, s.jobs) && BookMoved(s.booking, b, a.k)
    ensures var end, s' := BookEnd(b.txns[a.k]), s.(booking := b);
            if end == None then View(s') == View(s)
            else View(BookOver(s', a, |s.booking.db.reservations|, end.value))
                 == Follow(View(s), SettlementShadow(s.settlers[a.k], s.booking.txns[a.k].op, a, end.value))
  {
    var end := BookEnd(b.txns[a.k]);
    if end.Some? {
      assert SettlerOk(s.settlers[a.k], s.booking.txns[a.k].op, s.tasks, s.jobs);
      BookOverFollows(s, s.(booking := b), s.booking.txns[a.k].op, a, end.value);
    }
  }

  lemma OtherFollows(s: State, a: S.Action)
    ensures View(NextOther(s, a)) == if IsOther(s, a) then S.Next(View(s), a) else View(s)
  {
  }

  /** Starting a transaction or releasing a lock commits nothing. */
  lemma StartFollows(s: State, a: Action)
    requires !a.Point? && !a.Book? && !a.Other?
    ensures View(Next(s, a)) == View(s)
  {
  }

  /** Every step is a step of the saga, or none. */
  lemma NextFollows(s: State, start: B.Store, a: Action)
    requires Inv(s, start)
    ensures View(Next(s, a)) == Follow(View(s), Shadow(s, a))
  {
    match a
    case Point(k, fails) => PointFollows(s, start, k, fails);
    case Book(_, _, _, _, _, _, _) => BookFollows(s, start, a);
    case Other(step) => OtherFollows(s, step);
    case _ => StartFollows(s, a);
  }

  // ---------- every step keeps the links ----------

  /** Transactions that go on, end or are released; no task changes whose transaction
      goes on. */
  lemma PayersStay(payers: seq<Option<nat>>, txns: seq<PR.Txn>, txns': seq<PR.Txn>,
                   tasks: seq<S.Task>, tasks': seq<S.Task>)
    requires PayersOk(payers, txns, tasks) && |txns'| == |txns| && |tasks| <= |tasks'|
    requires forall k :: 0 <= k < |txns| ==>
               txns'[k].op == txns[k].op && (PointEnd(txns'[k]) == None ==> PointEnd(txns[k]) == None)
    requires forall k ::
               0 <= k < |txns| && PointEnd(txns'[k]) == None && payers[k].Some? && payers[k].value < |tasks| ==>
                 tasks'[payers[k].value] == tasks[payers[k].value]
    ensures PayersOk(payers, txns', tasks')
  {
    forall k | 0 <= k < |txns'| && PointEnd(txns'[k]) == None ensures PayerOk(payers[k], txns'[k].op, tasks') {
      assert PayerOk(payers[k], txns[k].op, tasks);
    }
  }

  lemma SettlersStay(settlers: seq<Option<nat>>, txns: seq<BR.Txn>, txns': seq<BR.Txn>,
                     tasks: seq<S.Task>, tasks': seq<S.Task>, jobs: set<(nat, int)>, jobs': set<(nat, int)>)
    requires SettlersOk(settlers, txns, tasks, jobs) && |txns'| == |txns| && |tasks| <= |tasks'| && jobs <= jobs'
    requires forall k :: 0 <= k < |txns| ==>
               txns'[k].op == txns[k].op && (BookEnd(txns'[k]) == None ==> BookEnd(txns[k]) == None)
    requires forall k ::
               0 <= k < |txns| && BookEnd(txns'[k]) == None && settlers[k].Some? && settlers[k].value < |tasks| ==>
                 tasks'[settlers[k].value] == tasks[settlers[k].value]
    ensures SettlersOk(settlers, txns', tasks', jobs')
  {
    forall k | 0 <= k < |txns'| && BookEnd(txns'[k]) == None
      ensures SettlerOk(settlers[k], txns'[k].op, tasks', jobs')
    {
      assert SettlerOk(settlers[k], txns[k].op, tasks, jobs);
    }
  }

  /** Of the old tasks only `own` changes, or one that needs no transaction. */
  predicate TasksMove(tasks: seq<S.Task>, tasks': seq<S.Task>, own: Option<nat>) {
    && |tasks| <= |tasks'|
    && forall i :: 0 <= i < |tasks| && tasks'[i] != tasks[i] ==>
         own == Some(i) || (PaymentOp(tasks[i]) == None && !tasks[i].SuccessEvent?)
  }

  lemma PointOverMoves(s: State, k: nat, committed: bool)
    requires k < |s.payers| && k < |s.points.txns|
    ensures var s' := PointOver(s, k, committed);
            && s' == s.(tasks := s'.tasks, audit := s'.audit) && TasksMove(s.tasks, s'.tasks, s.payers[k])
  {
  }

  lemma BookOverMoves(s: State, a: Action, id: nat, committed: bool)
    requires a.Book? && a.k < |s.settlers| && a.k < |s.booking.txns|
    ensures var s' := BookOver(s, a, id, committed);
            && s' == s.(tasks := s'.tasks, audit := s'.audit, tokens := s'.tokens, jobs := s'.jobs)
            && TasksMove(s.tasks, s'.tasks, s.settlers[a.k]) && s.jobs <= s'.jobs
  {
  }

  lemma OtherMovesTasks(v: S.State, a: S.Action)
    requires !a.Handle? && !a.Charge? && !a.Spend? && !a.Reserve? && !a.Expire?
    ensures TasksMove(v.tasks, S.Next(v, a).tasks, None)
  {
  }

  lemma OtherHandlerMovesTasks(v: S.State, i: nat, fails: bool, late: bool, now: int)
    requires i < |v.tasks| && PaymentOp(v.tasks[i]) == None && !v.tasks[i].SuccessEvent?
    ensures TasksMove(v.tasks, S.HandleTask(v, i, fails, late, now).tasks, None)
  {
    var row, entry := I.HandlerMoves(v, i, fails, late, now);
  }

  lemma OtherMoves(s: State, a: S.Action)
    requires IsOther(s, a)
    ensures TasksMove(s.tasks, NextOther(s, a).tasks, None)
  {
    if a.Handle? {
      OtherHandlerMovesTasks(View(s), a.i, a.fails, a.late, a.now);
    } else {
      OtherMovesTasks(View(s), a);
    }
  }

  /** A statement of transaction k on balances, with its consequences for its message. */
  lemma PointKeepsLinks(s: State, p: PR.State, tasks: seq<S.Task>, k: nat)
    requires PayersOk(s.payers, s.points.txns, s.tasks) && SettlersOk(s.settlers, s.booking.txns, s.tasks, s.jobs)
    requires k < |s.points.txns| == |p.txns| && p.txns[k].op == s.points.txns[k].op
    requires PointEnd(s.points.txns[k]) == None
    requires forall j :: 0 <= j < |p.txns| && j != k ==> p.txns[j] == s.points.txns[j]
    requires if PointEnd(p.txns[k]) == None then tasks == s.tasks else TasksMove(s.tasks, tasks, s.payers[k])
    ensures PayersOk(s.payers, p.txns, tasks) && SettlersOk(s.settlers, s.booking.txns, tasks, s.jobs)
  {
    assert PayerOk(s.payers[k], s.points.txns[k].op, s.tasks);
    PayersStay(s.payers, s.points.txns, p.txns, s.tasks, tasks);
    forall j | 0 <= j < |s.booking.txns| && BookEnd(s.booking.txns[j]) == None && s.settlers[j].Some?
      ensures tasks[s.settlers[j].value] == s.tasks[s.settlers[j].value]
    {
      assert SettlerOk(s.settlers[j], s.booking.txns[j].op, s.tasks, s.jobs);
    }
    SettlersStay(s.settlers, s.booking.txns, s.booking.txns, s.tasks, tasks, s.jobs, s.jobs);
  }

  lemma PointKeepsInv(s: State, start: B.Store, k: nat, fails: bool)
    requires Inv(s, start) && PR.Enabled(s.points, PR.Advance(k, fails))
    ensures Inv(NextPoint(s, k, fails), start)
  {
    var p := PR.Statement(s.points, k, fails);
    PointStatement(s.points, k, fails);
    PR.StatementKeepsInv(s.points, P.EMPTY, k, fails);
    var end := PointEnd(p.txns[k]);
    if end.Some? {
      PointOverMoves(s.(points := p), k, end.value);
    }
    PointKeepsLinks(s, p, NextPoint(s, k, fails).tasks, k);
  }

  lemma BookKeepsLinks(s: State, b: BR.State, tasks: seq<S.Task>, jobs: set<(nat, int)>, k: nat)
    requires PayersOk(s.payers, s.points.txns, s.tasks) && SettlersOk(s.settlers, s.booking.txns, s.tasks, s.jobs)
    requires BookMoved(s.booking, b, k) && s.jobs <= jobs
    requires if BookEnd(b.txns[k]) == None then tasks == s.tasks else TasksMove(s.tasks, tasks, s.settlers[k])
    ensures PayersOk(s.payers, s.points.txns, tasks) && SettlersOk(s.settlers, b.txns, tasks, jobs)
  {
    assert SettlerOk(s.settlers[k], s.booking.txns[k].op, s.tasks, s.jobs);
    SettlersStay(s.settlers, s.booking.txns, b.txns, s.tasks, tasks, s.jobs, jobs);
    forall j | 0 <= j < |s.points.txns| && PointEnd(s.points.txns[j]) == None && s.payers[j].Some?
      ensures tasks[s.payers[j].value] == s.tasks[s.payers[j].value]
    {
      assert PayerOk(s.payers[j], s.points.txns[j].op, s.tasks);
    }
    PayersStay(s.payers, s.points.txns, s.points.txns, s.tasks, tasks);
  }

  lemma BookKeepsInv(s: State, start: B.Store, a: Action)
    requires Inv(s, start) && a.Book? && BR.Enabled(s.booking, BR.Advance(a.k, a.version, a.fails))
    ensures Inv(NextBook(s, a), start)
  {
    var b := BR.Statement(s.booking, a.k, a.version, a.fails);
    BookStatement(s.booking, start, a.k, a.version, a.fails);
    BR.StatementKeepsInv(s.booking, start, a.k, a.version, a.fails);
    var end := BookEnd(b.txns[a.k]);
    if end.Some? {
      BookOverMoves(s.(booking := b), a, |s.booking.db.reservations|, end.value);
    }
    BookKeepsLinks(s, b, NextBook(s, a).tasks, NextBook(s, a).jobs, a.k);
  }

  lemma OtherKeepsInv(s: State, start: B.Store, a: S.Action)
    requires Inv(s, start) && IsOther(s, a)
    ensures Inv(NextOther(s, a), start)
  {
    OtherMoves(s, a);
    TasksKeepLinks(s, NextOther(s, a).tasks);
  }

  lemma TasksKeepLinks(s: State, tasks: seq<S.Task>)
    requires PayersOk(s.payers, s.points.txns, s.tasks) && SettlersOk(s.settlers, s.booking.txns, s.tasks, s.jobs)
    requires TasksMove(s.tasks, tasks, None)
    ensures PayersOk(s.payers, s.points.txns, tasks) && SettlersOk(s.settlers, s.booking.txns, tasks, s.jobs)
  {
    forall k | 0 <= k < |s.points.txns| && PointEnd(s.points.txns[k]) == None && s.payers[k].Some?
      ensures tasks[s.payers[k].value] == s.tasks[s.payers[k].value]
    {
      assert PayerOk(s.payers[k], s.points.txns[k].op, s.tasks);
    }
    PayersStay(s.payers, s.points.txns, s.points.txns, s.tasks, tasks);
    forall k | 0 <= k < |s.booking.txns| && BookEnd(s.booking.txns[k]) == None && s.settlers[k].Some?
      ensures tasks[s.settlers[k].value] == s.tasks[s.settlers[k].value]
    {
      assert SettlerOk(s.settlers[k], s.booking.txns[k].op, s.tasks, s.jobs);
    }
    SettlersStay(s.settlers, s.booking.txns, s.booking.txns, s.tasks, tasks, s.jobs, s.jobs);
  }

  lemma StartPointKeepsInv(s: State, start: B.Store, op: P.Op, payer: Option<nat>)
    requires Inv(s, start) && PayerOk(payer, op, s.tasks) && (payer.Some? ==> NotPaying(s, payer.value))
    ensures Inv(StartPoint(s, op, payer), start)
  {
    PR.NextKeepsInv(s.points, P.EMPTY, PR.Start(op));
    var s' := StartPoint(s, op, payer);
    forall k | 0 <= k < |s'.points.txns| && PointEnd(s'.points.txns[k]) == None
      ensures PayerOk(s'.payers[k], s'.points.txns[k].op, s'.tasks)
    {
      assert k < |s.points.txns| ==> PayerOk(s.payers[k], s.points.txns[k].op, s.tasks);
    }
  }

  lemma StartBookKeepsInv(s: State, start: B.Store, op: B.Op, version: nat, settler: Option<nat>)
    requires Inv(s, start) && SettlerOk(settler, op, s.tasks, s.jobs)
    requires settler.Some? ==> NotSettling(s, settler.value)
    ensures Inv(StartBook(s, op, version, settler), start)
  {
    if BR.Enabled(s.booking, BR.Start(op, version)) {
      BR.NextKeepsInv(s.booking, start, BR.Start(op, version));
      var s' := StartBook(s, op, version, settler);
      forall k | 0 <= k < |s'.booking.txns| && BookEnd(s'.booking.txns[k]) == None
        ensures SettlerOk(s'.settlers[k], s'.booking.txns[k].op, s'.tasks, s'.jobs)
      {
        assert k < |s.booking.txns| ==> SettlerOk(s.settlers[k], s.booking.txns[k].op, s.tasks, s.jobs);
      }
    }
  }

  lemma LockKeepsInv(s: State, start: B.Store, a: PR.Action)
    requires Inv(s, start) && (a.Release? || a.LockTimeout?)
    ensures Inv(s.(points := PR.Next(s.points, a)), start)
  {
    PR.NextKeepsInv(s.points, P.EMPTY, a);
    PayersStay(s.payers, s.points.txns, PR.Next(s.points, a).txns, s.tasks, s.tasks);
  }

  lemma StartKeepsInv(s: State, start: B.Store, a: Action)
    requires Inv(s, start) && !a.Point? && !a.Book? && !a.Other?
    ensures Inv(Next(s, a), start)
  {
    match a
    case StartCharge(user, amount) => StartPointKeepsInv(s, start, P.ChargeOp(user, amount, 0), None);
    case StartSpend(user, amount) => StartPointKeepsInv(s, start, P.UseOp(user, amount, None), None);
    case StartPayment(i) =>
      if i < |s.tasks| && PaymentOp(s.tasks[i]).Some? && NotPaying(s, i) {
        StartPointKeepsInv(s, start, PaymentOp(s.tasks[i]).value, Some(i));
      }
    case ReleaseLock(k) => LockKeepsInv(s, start, PR.Release(k));
    case LockTimeout(user) => LockKeepsInv(s, start, PR.LockTimeout(user));
    case StartReserve(user, seat, version) => StartBookKeepsInv(s, start, B.ReserveOp(user, seat), version, None);
    case StartConfirm(i, now, version) =>
      if i < |s.tasks| && s.tasks[i].SuccessEvent? && NotSettling(s, i) {
        var op := B.ConfirmOp(s.tasks[i].p.reservation, Stamp(now, s.tasks[i].p.tx));
        StartBookKeepsInv(s, start, op, version, Some(i));
      }
    case StartExpire(id, seat, version) =>
      if (id, seat) in s.jobs {
        StartBookKeepsInv(s, start, B.ExpireOp(id, seat), version, None);
      }
  }

  lemma NextKeepsInv(s: State, start: B.Store, a: Action)
    requires Inv(s, start)
    ensures Inv(Next(s, a), start)
  {
    match a
    case Point(k, fails) =>
      if PR.Enabled(s.points, PR.Advance(k, fails)) {
        PointKeepsInv(s, start, k, fails);
      }
    case Book(k, version, fails, _, _, _, _) =>
      if BR.Enabled(s.booking, BR.Advance(k, version, fails)) {
        BookKeepsInv(s, start, a);
      }
    case Other(step) =>
      if IsOther(s, step) {
        OtherKeepsInv(s, start, step);
      }
    case _ => StartKeepsInv(s, start, a);
  }

  // ---------- runs ----------

  /** The saga's steps behind a run of statements. */
  function Steps(s: State, actions: seq<Action>): seq<S.Action> {
    if actions == [] then []
    else
      var before := actions[..|actions| - 1];
      Steps(s, before) + AsSeq(Shadow(Run(s, before), actions[|actions| - 1]))
  }

  lemma FollowRuns(v: S.State, steps: seq<S.Action>, step: Option<S.Action>)
    ensures S.Run(v, steps + AsSeq(step)) == Follow(S.Run(v, steps), step)
  {
    if step.Some? {
      assert (steps + [step.value])[..|steps|] == steps;
    } else {
      assert steps + [] == steps;
    }
  }

  function Start(seats: map<int, SeatRow>): B.Store {
    B.Store(seats, [])
  }

  lemma InitialIsInv(seats: map<int, SeatRow>)
    requires I.AllAvailable(seats)
    ensures Inv(Initial(seats), Start(seats))
  {
    PR.RunKeepsInv(P.EMPTY, []);
    BR.RunKeepsInv(Start(seats), []);
  }

  /** Refinement: every run of statements, whatever fails, times out or is read stale,
      is a run of the saga with atomic steps. */
  lemma {:induction false} RunRefinesSaga(seats: map<int, SeatRow>, actions: seq<Action>)
    requires I.AllAvailable(seats)
    ensures Inv(Run(Initial(seats), actions), Start(seats))
    ensures View(Run(Initial(seats), actions)) == S.Run(S.Initial(seats), Steps(Initial(seats), actions))
  {
    if actions == [] {
      InitialIsInv(seats);
    } else {
      var shorter, a := actions[..|actions| - 1], actions[|actions| - 1];
      var before := Run(Initial(seats), shorter);
      RunRefinesSaga(seats, shorter);
      NextKeepsInv(before, Start(seats), a);
      NextFollows(before, Start(seats), a);
      FollowRuns(S.Initial(seats), Steps(Initial(seats), shorter), Shadow(before, a));
    }
  }

  /** Some run of statements leads to s. */
  ghost predicate Reachable(s: State) {
    exists seats, actions :: I.AllAvailable(seats) && s == Run(Initial(seats), actions)
  }

  /** What is committed is reachable in the saga, and the saga's stale charges have
      exactly the gaps with which charges were committed. */
  lemma ReachableInSaga(s: State)
    requires Reachable(s)
    ensures I.Reachable(View(s))
    ensures forall u :: Sum(s.audit, M.StaleFor(u)) == Sum(s.points.commits, P.GapFor(u))
  {
    var seats, actions :| I.AllAvailable(seats) && s == Run(Initial(seats), actions);
    RunRefinesSaga(seats, actions);
    M.LedgerHoldsExactlyWhen(View(s));
    assert P.Ledger(P.EMPTY);
    P.LedgerHoldsExactlyWhen(P.EMPTY, s.points.commits, s.points.db);
    forall u ensures Sum(s.audit, M.StaleFor(u)) == Sum(s.points.commits, P.GapFor(u)) {
      assert P.Drift(View(s).points, u) == Sum(s.audit, M.StaleFor(u));
    }
  }

  // ---------- the fault model, statement by statement ----------

  /** No error after a commit, no failing compensation, no Redis lock timing out under
      its holder. Anything else may fail at any statement. */
  predicate Sound(s: State, a: Action) {
    match a
    case Point(k, fails) => fails && k < |s.points.txns| ==> !s.points.txns[k].op.RefundOp?
    case Book(_, _, _, late, _, _, _) => !late
    case Other(step) => F.Benign(View(s), step)
    case LockTimeout(_) => false
    case _ => true
  }

  /** And no refund is active together with a charge of the same user. */
  ghost predicate AllSound(s: State, actions: seq<Action>) {
    && PR.RefundsApart(Run(s, actions).points)
    && (actions != [] ==>
          && AllSound(s, actions[..|actions| - 1])
          && Sound(Run(s, actions[..|actions| - 1]), actions[|actions| - 1]))
  }

  ghost predicate NoStaleReads(p: PR.State) {
    PR.HoldsRedis(p) && PR.FreshReads(p) && P.NoGaps(p.commits)
  }

  /** What happens to the balance transactions in a step. */
  function PointAction(s: State, a: Action): Option<PR.Action> {
    match a
    case StartCharge(user, amount) => Some(PR.Start(P.ChargeOp(user, amount, 0)))
    case StartSpend(user, amount) => Some(PR.Start(P.UseOp(user, amount, None)))
    case StartPayment(i) =>
      if i < |s.tasks| && PaymentOp(s.tasks[i]).Some? && NotPaying(s, i)
      then Some(PR.Start(PaymentOp(s.tasks[i]).value)) else None
    case Point(k, fails) => if k < |s.payers| then Some(PR.Advance(k, fails)) else None
    case ReleaseLock(k) => Some(PR.Release(k))
    case LockTimeout(user) => Some(PR.LockTimeout(user))
    case _ => None
  }

  lemma NextMovesPoints(s: State, a: Action)
    ensures Next(s, a).points
            == if PointAction(s, a) == None then s.points else PR.Next(s.points, PointAction(s, a).value)
  {
  }

  lemma NextKeepsReadsFresh(s: State, a: Action)
    requires NoStaleReads(s.points) && PR.RefundsApart(s.points) && !a.LockTimeout?
    ensures NoStaleReads(Next(s, a).points)
  {
    NextMovesPoints(s, a);
    var step := PointAction(s, a);
    if step.Some? {
      PR.LockMakesChargesAlone(s.points);
      PR.NextKeepsRedis(s.points, step.value);
      PR.NextKeepsFresh(s.points, step.value);
    }
  }

  /** A refund that finds its balance row commits, unless the database fails. */
  lemma RefundIsNotAborted(p: PR.State, k: nat)
    requires PR.Inv(p, P.EMPTY) && PR.Enabled(p, PR.Advance(k, false))
    requires p.txns[k].op.RefundOp? && p.txns[k].op.user in p.db.balances
    ensures PointEnd(PR.Statement(p, k, false).txns[k]) != Some(false)
  {
    assert PR.TxnOk(p, k);
  }

  lemma PointIsBenign(s: State, start: B.Store, k: nat, fails: bool)
    requires Inv(s, start) && I.Inv(View(s)) && Sound(s, Point(k, fails))
    requires P.NoGaps(NextPoint(s, k, fails).points.commits) && PointShadow(s, k, fails).Some?
    ensures F.Benign(View(s), PointShadow(s, k, fails).value)
  {
    PointStatement(s.points, k, fails);
    assert PayerOk(s.payers[k], s.points.txns[k].op, s.tasks);
    if s.payers[k].Some? && s.tasks[s.payers[k].value].CancelEvent? {
      assert I.TaskOk(View(s), s.tasks[s.payers[k].value]);
      RefundIsNotAborted(s.points, k);
    }
  }

  lemma BookIsBenign(s: State, start: B.Store, a: Action)
    requires Inv(s, start) && a.Book? && !a.late && BookShadow(s, a).Some?
    ensures F.Benign(View(s), BookShadow(s, a).value)
  {
    BookStatement(s.booking, start, a.k, a.version, a.fails);
    assert SettlerOk(s.settlers[a.k], s.booking.txns[a.k].op, s.tasks, s.jobs);
  }

  lemma SoundIsBenign(s: State, start: B.Store, a: Action)
    requires Inv(s, start) && I.Inv(View(s)) && Sound(s, a) && P.NoGaps(Next(s, a).points.commits)
    requires Shadow(s, a).Some?
    ensures F.Benign(View(s), Shadow(s, a).value)
  {
    match a
    case Point(k, fails) => PointIsBenign(s, start, k, fails);
    case Book(_, _, _, _, _, _, _) => BookIsBenign(s, start, a);
    case Other(_) =>
  }

  lemma BenignFollows(v: S.State, steps: seq<S.Action>, step: Option<S.Action>)
    requires F.AllBenign(v, steps) && (step.Some? ==> F.Benign(S.Run(v, steps), step.value))
    ensures F.AllBenign(v, steps + AsSeq(step))
  {
    if step.Some? {
      assert (steps + [step.value])[..|steps|] == steps;
    } else {
      assert steps + [] == steps;
    }
  }

  lemma {:induction false} SoundRunsAreBenign(seats: map<int, SeatRow>, actions: seq<Action>)
    requires I.AllAvailable(seats) && AllSound(Initial(seats), actions)
    ensures NoStaleReads(Run(Initial(seats), actions).points)
    ensures F.AllBenign(S.Initial(seats), Steps(Initial(seats), actions))
  {
    if actions != [] {
      var shorter, a := actions[..|actions| - 1], actions[|actions| - 1];
      var before := Run(Initial(seats), shorter);
      SoundRunsAreBenign(seats, shorter);
      RunRefinesSaga(seats, shorter);
      I.RunKeepsInv(seats, Steps(Initial(seats), shorter));
      NextKeepsReadsFresh(before, a);
      if Shadow(before, a).Some? {
        SoundIsBenign(before, Start(seats), a);
      }
      BenignFollows(S.Initial(seats), Steps(Initial(seats), shorter), Shadow(before, a));
    }
  }

  ghost predicate SoundlyReachable(s: State) {
    exists seats, actions ::
      I.AllAvailable(seats) && AllSound(Initial(seats), actions) && s == Run(Initial(seats), actions)
  }

  /** The fault model of the saga, in terms of statements and locks. */
  lemma SoundlyReachableIsBenign(s: State)
    requires SoundlyReachable(s)
    ensures F.BenignlyReachable(View(s))
  {
    var seats, actions :|
      I.AllAvailable(seats) && AllSound(Initial(seats), actions) && s == Run(Initial(seats), actions);
    RunRefinesSaga(seats, actions);
    SoundRunsAreBenign(seats, actions);
  }

  /** The system as a whole, one statement at a time: the committed money is conserved,
      every balance is what its history says, and once all messages have drained every
      CONFIRMED reservation is paid exactly once and no other reservation is paid. */
  lemma MoneyIsSafe(s: State)
    requires SoundlyReachable(s)
    ensures Total(s.points.db.balances) + Sum(s.tasks, M.InFlight) + Sum(s.booking.db.reservations, M.Revenue)
            == Sum(s.points.db.history, M.Charged) - Sum(s.points.db.history, M.Spent)
    ensures P.Ledger(s.points.db) && B.Agreement(s.booking.db)
    ensures S.Quiescent(View(s)) ==> forall r :: 0 <= r < |s.booking.db.reservations| ==> M.PaidOnce(View(s), r)
  {
    SoundlyReachableIsBenign(s);
    F.MoneyIsConservedExactly(View(s));
    F.LedgerHolds(View(s));
    F.BenignlyReachableIsClean(View(s));
    I.ReachableIsInv(View(s));
    if S.Quiescent(View(s)) {
      forall r | 0 <= r < |s.booking.db.reservations| ensures M.PaidOnce(View(s), r) {
        F.ExactlyOnePaymentPerReservation(View(s), r);
      }
    }
  }
}

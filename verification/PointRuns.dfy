/** The balance transactions at the granularity of single statements.

    `use` and the refund read the balance with SELECT ... FOR UPDATE, so they hold
    the row's lock from the read to the commit. `charge` reads it plainly and only
    locks the row when it writes the absolute value back. `charge` and `use` run
    under a Redis lock on the user, the refund does not.

    Every run leaves the tables that its commits leave one after the other, in commit
    order, where a charge may have read a balance other than the one it overwrites:
    the difference is its gap. What goes wrong is exactly the gaps. */
module PointRuns {
  import opened Sums
  import opened Tables
  import opened Points

  datatype Phase =
    | Waiting                          // Redis lock not yet taken
    | Locked                           // Redis lock taken (charge and use only)
    | Read(found: Option<int>)         // balance row read; None: no such row
    | Written(balance: int)            // balance and history written, row locked
    | Ended(committed: bool)           // the Redis lock, if any, still to be released
    | Released(committed: bool)

  /** The gap of a charge is not known before its commit; until then it means nothing. */
  datatype Txn = Txn(op: Op, phase: Phase)

  /** `commits` are the committed transactions in order, each charge with its gap. */
  datatype State = State(db: Store, txns: seq<Txn>, rowLock: map<int, nat>, redis: map<int, nat>, commits: seq<Op>)

  /** Advance is transaction i's next statement (`fails`: a database error, or the
      lock attempts running out); Release its Redis delete after the end;
      LockTimeout the Redis entry of a user expiring. */
  datatype Action =
    | Start(op: Op)
    | Advance(i: nat, fails: bool)
    | Release(i: nat)
    | LockTimeout(user: int)

  function Initial(db: Store): State {
    State(db, [], map[], map[], [])
  }

  predicate InRedis(op: Op) { !op.RefundOp? }

  function Goto(s: State, i: nat, phase: Phase): State
    requires i < |s.txns|
  {
    s.(txns := s.txns[i := s.txns[i].(phase := phase)])
  }

  function End(s: State, i: nat, committed: bool): State
    requires i < |s.txns|
  {
    Goto(s, i, Ended(committed)).(rowLock := map k | k in s.rowLock && s.rowLock[k] != i :: s.rowLock[k])
  }

  /** The balance the domain object computes from what was read, if its guard allows. */
  function NewBalance(op: Op, balance: Option<int>): Option<int> {
    var read := if balance.Some? then balance.value else 0;
    match op
    case ChargeOp(_, amount, _) => if amount > MAX_CHARGE_AMOUNT then None else Some(read + amount)
    case UseOp(_, amount, _) => if read < amount then None else Some(read - amount)
    case RefundOp(_, amount, _) => Some(read + amount)
  }

  /** The transaction as it commits: a charge with the gap between the balance it
      read and the one it overwrites. */
  function Committed(db: Store, op: Op, balance: int): Op {
    if op.ChargeOp? then op.(gap := balance - op.amount - BalanceOf(db, op.user)) else op
  }

  predicate Enabled(s: State, a: Action) {
    match a
    case Start(_) => true
    case Advance(i, fails) =>
      && i < |s.txns|
      && var t := s.txns[i];
         match t.phase {
           case Waiting => fails || (if InRedis(t.op) then t.op.user !in s.redis else t.op.user !in s.rowLock)
           case Locked => fails || t.op.ChargeOp? || t.op.user !in s.rowLock
           case Read(_) => fails || t.op.user !in s.rowLock || s.rowLock[t.op.user] == i
           case Written(_) => true
           case _ => false
         }
    case Release(i) =>
      i < |s.txns| && s.txns[i].phase.Ended? && InRedis(s.txns[i].op)
    case LockTimeout(user) => user in s.redis
  }

  /** SELECT ... FOR UPDATE: reads and locks the row, or aborts when there is none. */
  function SelectForUpdate(s: State, i: nat): State
    requires i < |s.txns|
  {
    var user := s.txns[i].op.user;
    if user in s.db.balances
    then Goto(s, i, Read(Some(s.db.balances[user]))).(rowLock := s.rowLock[user := i])
    else End(s, i, false)
  }

  function Statement(s: State, i: nat, fails: bool): State
    requires Enabled(s, Advance(i, fails))
  {
    var t := s.txns[i];
    var user := t.op.user;
    if fails then
      // withLock throws before its try block when it never got the lock.
      if t.phase.Waiting? then Goto(s, i, Released(false)) else End(s, i, false)
    else match t.phase
      case Waiting =>
        if InRedis(t.op) then Goto(s, i, Locked).(redis := s.redis[user := i]) else SelectForUpdate(s, i)
      case Locked =>
        if t.op.ChargeOp? then Goto(s, i, Read(if user in s.db.balances then Some(s.db.balances[user]) else None))
        else SelectForUpdate(s, i)
      case Read(balance) =>
        // A missing row is inserted, which fails if another transaction inserted it first.
        if NewBalance(t.op, balance).None? || (balance.None? && user in s.db.balances) then End(s, i, false)
        else Goto(s, i, Written(NewBalance(t.op, balance).value)).(rowLock := s.rowLock[user := i])
      case Written(balance) =>
        End(s, i, true).(db := Record(s.db, user, balance, RowFor(t.op)),
                         commits := s.commits + [Committed(s.db, t.op, balance)])
      case _ => s
  }

  function Next(s: State, a: Action): State {
    if !Enabled(s, a) then s
    else match a
      case Start(op) => s.(txns := s.txns + [Txn(op, Waiting)])
      case Advance(i, fails) => Statement(s, i, fails)
      case Release(i) =>
        // An unconditional delete, even of somebody else's entry.
        Goto(s, i, Released(s.txns[i].phase.committed)).(redis := s.redis - {s.txns[i].op.user})
      case LockTimeout(user) => s.(redis := s.redis - {user})
  }

  function Run(s: State, actions: seq<Action>): State {
    if actions == [] then s else Next(Run(s, actions[..|actions| - 1]), actions[|actions| - 1])
  }

  /** Some interleaving of balance transactions leads from the tables `start` to s. */
  ghost predicate Reachable(start: Store, s: State) {
    exists actions :: s == Run(Initial(start), actions)
  }

  // ---------- every run is its commits, gaps included ----------

  /** Between its read and its commit. */
  predicate Active(t: Txn) {
    t.phase.Read? || t.phase.Written?
  }

  function Current(db: Store, user: int): Option<int> {
    if user in db.balances then Some(db.balances[user]) else None
  }

  /** What transaction i knows: it holds the row's lock if it selected for update or
      has written; a use or refund knows the current balance; a charge knows only
      that its amount was accepted. */
  ghost predicate TxnOk(s: State, i: nat)
    requires i < |s.txns|
  {
    var t := s.txns[i];
    && (t.phase.Written? || (t.phase.Read? && !t.op.ChargeOp?) ==> t.op.user in s.rowLock && s.rowLock[t.op.user] == i)
    && (Active(t) && !t.op.ChargeOp? ==> t.op.user in s.db.balances)
    && match t.phase
       case Read(found) => t.op.ChargeOp? || found == Current(s.db, t.op.user)
       case Written(balance) =>
         if t.op.ChargeOp? then t.op.amount <= MAX_CHARGE_AMOUNT
         else NewBalance(t.op, Current(s.db, t.op.user)) == Some(balance)
       case _ => true
  }

  lemma CommitIsAtomic(db: Store, op: Op, balance: int)
    requires if op.ChargeOp? then op.amount <= MAX_CHARGE_AMOUNT
             else op.user in db.balances && NewBalance(op, Current(db, op.user)) == Some(balance)
    ensures Perform(db, Committed(db, op, balance)) == Success(Record(db, op.user, balance, RowFor(op)))
  {
  }

  ghost predicate LocksOk(s: State) {
    forall user :: user in s.rowLock ==>
      && s.rowLock[user] < |s.txns|
      && var t := s.txns[s.rowLock[user]]; Active(t) && t.op.user == user
  }

  ghost predicate Inv(s: State, start: Store) {
    && Replay(start, s.commits) == Success(s.db)
    && LocksOk(s)
    && (forall i :: 0 <= i < |s.txns| ==> TxnOk(s, i))
  }

  /** Whoever else knows this user's balance would hold the lock the commit holds. */
  lemma CommitKeepsInv(s: State, start: Store, i: nat)
    requires Inv(s, start) && i < |s.txns| && s.txns[i].phase.Written?
    ensures Inv(Statement(s, i, false), start)
  {
    var s' := Statement(s, i, false);
    var t := s.txns[i];
    assert TxnOk(s, i);
    CommitIsAtomic(s.db, t.op, t.phase.balance);
    ReplayAppend(start, s.commits, Committed(s.db, t.op, t.phase.balance));
    forall j | 0 <= j < |s'.txns| ensures TxnOk(s', j) {
      assert TxnOk(s, j);
    }
  }

  /** A step that commits nothing leaves every other transaction's knowledge intact. */
  lemma GotoKeepsInv(s: State, start: Store, s': State, i: nat)
    requires Inv(s, start) && i < |s.txns| == |s'.txns|
    requires s'.db == s.db && s'.commits == s.commits
    requires forall j :: 0 <= j < |s.txns| && j != i ==> s'.txns[j] == s.txns[j]
    requires forall k :: k in s.rowLock && s.rowLock[k] != i ==> k in s'.rowLock && s'.rowLock[k] == s.rowLock[k]
    requires forall k :: k in s'.rowLock && s'.rowLock[k] != i ==> k in s.rowLock && s'.rowLock[k] == s.rowLock[k]
    requires forall k :: k in s'.rowLock && s'.rowLock[k] == i ==> Active(s'.txns[i]) && s'.txns[i].op.user == k
    requires TxnOk(s', i)
    ensures Inv(s', start)
  {
    forall j | 0 <= j < |s'.txns| ensures TxnOk(s', j) {
      assert TxnOk(s, j);
    }
  }

  lemma StatementKeepsInv(s: State, start: Store, i: nat, fails: bool)
    requires Inv(s, start) && Enabled(s, Advance(i, fails))
    ensures Inv(Statement(s, i, fails), start)
  {
    assert TxnOk(s, i);
    if s.txns[i].phase.Written? && !fails {
      CommitKeepsInv(s, start, i);
    } else {
      GotoKeepsInv(s, start, Statement(s, i, fails), i);
    }
  }

  lemma NextKeepsInv(s: State, start: Store, a: Action)
    requires Inv(s, start)
    ensures Inv(Next(s, a), start)
  {
    if Enabled(s, a) {
      match a
      case Advance(i, fails) => StatementKeepsInv(s, start, i, fails);
      case Release(i) => GotoKeepsInv(s, start, Next(s, a), i);
      case Start(_) =>
        forall j | 0 <= j < |s.txns| ensures TxnOk(Next(s, a), j) {
          assert TxnOk(s, j);
        }
      case LockTimeout(_) =>
        forall j | 0 <= j < |s.txns| ensures TxnOk(Next(s, a), j) {
          assert TxnOk(s, j);
        }
    }
  }

  lemma {:induction false} RunKeepsInv(start: Store, actions: seq<Action>)
    ensures Inv(Run(Initial(start), actions), start)
  {
    if actions != [] {
      RunKeepsInv(start, actions[..|actions| - 1]);
      NextKeepsInv(Run(Initial(start), actions[..|actions| - 1]), start, actions[|actions| - 1]);
    }
  }

  /** Whatever the interleaving and whichever locks time out, the committed tables are
      those of the committed transactions one after the other in commit order, uses
      and refunds without any gap, charges with theirs. */
  lemma RunRefinesCommits(start: Store, s: State)
    requires Reachable(start, s)
    ensures Replay(start, s.commits) == Success(s.db)
  {
    var actions :| s == Run(Initial(start), actions);
    RunKeepsInv(start, actions);
  }

  /** In every run each balance misses the ledger of its history by exactly the gaps
      of its user's committed charges, so the ledger holds if and only if they cancel. */
  lemma RunKeepsLedgerExactlyWhen(start: Store, s: State)
    requires Ledger(start) && Reachable(start, s)
    ensures forall u :: Drift(s.db, u) == Sum(s.commits, GapFor(u))
    ensures Ledger(s.db) <==> forall u :: Sum(s.commits, GapFor(u)) == 0
  {
    RunRefinesCommits(start, s);
    LedgerHoldsExactlyWhen(start, s.commits, s.db);
  }

  /** A run ends as the serial run of its committed transactions does if and only if
      that serial run goes through and the gaps of every user cancel. */
  lemma RunIsSerialExactlyWhen(start: Store, s: State)
    requires Ledger(start) && Reachable(start, s)
    ensures Replay(start, AllPlain(s.commits)) == Success(s.db)
            <==> Replay(start, AllPlain(s.commits)).Success? && forall u :: Sum(s.commits, GapFor(u)) == 0
  {
    RunRefinesCommits(start, s);
    SerialExactlyWhen(start, s.commits, s.db);
  }

  // ---------- no balance turns negative, gaps or not ----------

  ghost predicate ReadsOk(s: State) {
    && NonNegative(s.db)
    && forall i :: 0 <= i < |s.txns| ==>
         && s.txns[i].op.amount >= 0
         && match s.txns[i].phase
            case Read(found) => found.Some? ==> found.value >= 0
            case Written(balance) => balance >= 0
            case _ => true
  }

  predicate AmountsOk(actions: seq<Action>) {
    forall a :: a in actions && a.Start? ==> a.op.amount >= 0
  }

  lemma StatementKeepsReadsOk(s: State, i: nat, fails: bool)
    requires ReadsOk(s) && Enabled(s, Advance(i, fails))
    ensures ReadsOk(Statement(s, i, fails))
  {
    assert s.txns[i].op.amount >= 0;
  }

  lemma {:induction false} RunKeepsReadsOk(start: Store, actions: seq<Action>)
    requires NonNegative(start) && AmountsOk(actions)
    ensures ReadsOk(Run(Initial(start), actions))
  {
    if actions != [] {
      var before, a := Run(Initial(start), actions[..|actions| - 1]), actions[|actions| - 1];
      assert a in actions;
      RunKeepsReadsOk(start, actions[..|actions| - 1]);
      if a.Advance? && Enabled(before, a) {
        StatementKeepsReadsOk(before, a.i, a.fails);
      }
    }
  }

  ghost predicate ReachableByAmounts(start: Store, s: State) {
    exists actions :: AmountsOk(actions) && s == Run(Initial(start), actions)
  }

  /** With non-negative amounts no committed balance is ever negative, however stale
      the balances that charges read. */
  lemma BalancesStayNonNegative(start: Store, s: State)
    requires NonNegative(start) && ReachableByAmounts(start, s)
    ensures NonNegative(s.db)
  {
    var actions :| AmountsOk(actions) && s == Run(Initial(start), actions);
    RunKeepsReadsOk(start, actions);
  }

  // ---------- when there are no gaps ----------

  /** No charge that has read a balance shares its user with another active transaction. */
  ghost predicate ChargesAlone(s: State) {
    forall i, j :: 0 <= i < |s.txns| && 0 <= j < |s.txns| && i != j
      && s.txns[i].op.ChargeOp? && Active(s.txns[i]) && Active(s.txns[j])
      ==> s.txns[i].op.user != s.txns[j].op.user
  }

  ghost predicate AlwaysChargesAlone(s: State, actions: seq<Action>) {
    ChargesAlone(Run(s, actions)) && (actions != [] ==> AlwaysChargesAlone(s, actions[..|actions| - 1]))
  }

  /** What a charge has read is still the committed balance. */
  ghost predicate FreshReads(s: State) {
    forall i :: 0 <= i < |s.txns| && s.txns[i].op.ChargeOp? ==>
      match s.txns[i].phase
      case Read(found) => found == Current(s.db, s.txns[i].op.user)
      case Written(balance) => balance == BalanceOf(s.db, s.txns[i].op.user) + s.txns[i].op.amount
      case _ => true
  }

  lemma StatementKeepsFresh(s: State, i: nat, fails: bool)
    requires FreshReads(s) && ChargesAlone(s) && NoGaps(s.commits) && Enabled(s, Advance(i, fails))
    ensures FreshReads(Statement(s, i, fails)) && NoGaps(Statement(s, i, fails).commits)
  {
  }

  lemma NextKeepsFresh(s: State, a: Action)
    requires FreshReads(s) && ChargesAlone(s) && NoGaps(s.commits)
    ensures FreshReads(Next(s, a)) && NoGaps(Next(s, a).commits)
  {
    if a.Advance? && Enabled(s, a) {
      StatementKeepsFresh(s, a.i, a.fails);
    }
  }

  lemma {:induction false} RunKeepsFresh(start: Store, actions: seq<Action>)
    requires AlwaysChargesAlone(Initial(start), actions)
    ensures FreshReads(Run(Initial(start), actions)) && NoGaps(Run(Initial(start), actions).commits)
  {
    if actions != [] {
      var before, a := Run(Initial(start), actions[..|actions| - 1]), actions[|actions| - 1];
      RunKeepsFresh(start, actions[..|actions| - 1]);
      assert ChargesAlone(before);
      NextKeepsFresh(before, a);
    }
  }

  /** Some run in which no charge ever overlaps another transaction of its user leads to s. */
  ghost predicate ReachableAlone(start: Store, s: State) {
    exists actions :: AlwaysChargesAlone(Initial(start), actions) && s == Run(Initial(start), actions)
  }

  /** The committed balances and history are those of the committed transactions run
      one after the other in commit order, none with a gap, and the ledger holds. */
  ghost predicate Serial(start: Store, s: State) {
    NoGaps(s.commits) && Replay(start, s.commits) == Success(s.db) && Ledger(s.db)
  }

  /** No lost update, if no charge ever overlaps another transaction of its user. */
  lemma SerialWhenChargesAlone(start: Store, s: State)
    requires Ledger(start) && ReachableAlone(start, s)
    ensures Serial(start, s)
  {
    var actions :| AlwaysChargesAlone(Initial(start), actions) && s == Run(Initial(start), actions);
    RunKeepsInv(start, actions);
    RunKeepsFresh(start, actions);
    LedgerOverRuns(start, s.commits, s.db);
  }

  // ---------- use and refund: the row lock is enough ----------

  predicate NoCharge(actions: seq<Action>) {
    forall a :: a in actions && a.Start? ==> !a.op.ChargeOp?
  }

  ghost predicate NoChargeTxns(s: State) {
    forall i :: 0 <= i < |s.txns| ==> !s.txns[i].op.ChargeOp?
  }

  lemma StatementKeepsOps(s: State, i: nat, fails: bool)
    requires Enabled(s, Advance(i, fails))
    ensures |Statement(s, i, fails).txns| == |s.txns|
    ensures forall j :: 0 <= j < |s.txns| ==> Statement(s, i, fails).txns[j].op == s.txns[j].op
  {
  }

  lemma NextKeepsNoCharge(s: State, a: Action)
    requires NoChargeTxns(s) && (a.Start? ==> !a.op.ChargeOp?)
    ensures NoChargeTxns(Next(s, a))
  {
    if a.Advance? && Enabled(s, a) {
      StatementKeepsOps(s, a.i, a.fails);
    }
  }

  lemma {:induction false} NoChargeRuns(start: Store, actions: seq<Action>)
    requires NoCharge(actions)
    ensures NoChargeTxns(Run(Initial(start), actions))
    ensures AlwaysChargesAlone(Initial(start), actions)
  {
    if actions != [] {
      NoChargeRuns(start, actions[..|actions| - 1]);
      assert actions[|actions| - 1] in actions;
      NextKeepsNoCharge(Run(Initial(start), actions[..|actions| - 1]), actions[|actions| - 1]);
    }
  }

  /** Some run of uses and refunds only leads to s. */
  ghost predicate ReachableWithoutCharges(start: Store, s: State) {
    exists actions :: NoCharge(actions) && s == Run(Initial(start), actions)
  }

  /** Any interleaving of uses and refunds is serial through the row lock alone,
      even when Redis locks time out under their holders. */
  lemma UsesAndRefundsAreSerial(start: Store, s: State)
    requires Ledger(start) && ReachableWithoutCharges(start, s)
    ensures Serial(start, s)
  {
    var actions :| NoCharge(actions) && s == Run(Initial(start), actions);
    NoChargeRuns(start, actions);
    SerialWhenChargesAlone(start, s);
  }

  // ---------- charge: the Redis lock, and no refund alongside ----------

  /** The Redis lock never times out under its holder. */
  predicate NoLockTimeout(actions: seq<Action>) {
    forall a :: a in actions ==> !a.LockTimeout?
  }

  /** No refund and charge of the same user are active together. */
  ghost predicate RefundsApart(s: State) {
    forall i, j :: 0 <= i < |s.txns| && 0 <= j < |s.txns|
      && s.txns[i].op.ChargeOp? && Active(s.txns[i]) && s.txns[j].op.RefundOp? && Active(s.txns[j])
      ==> s.txns[i].op.user != s.txns[j].op.user
  }

  ghost predicate AlwaysRefundsApart(s: State, actions: seq<Action>) {
    RefundsApart(Run(s, actions)) && (actions != [] ==> AlwaysRefundsApart(s, actions[..|actions| - 1]))
  }

  predicate NeedsRedis(t: Txn) {
    InRedis(t.op) && (Active(t) || t.phase.Locked? || t.phase.Ended?)
  }

  /** From taking the lock to releasing it, the entry is the holder's own. */
  ghost predicate HoldsRedis(s: State) {
    forall i :: 0 <= i < |s.txns| && NeedsRedis(s.txns[i]) ==>
      s.txns[i].op.user in s.redis && s.redis[s.txns[i].op.user] == i
  }

  lemma NextKeepsRedis(s: State, a: Action)
    requires HoldsRedis(s) && !a.LockTimeout?
    ensures HoldsRedis(Next(s, a))
  {
    if Enabled(s, a) {
      var s' := Next(s, a);
      forall j | 0 <= j < |s'.txns| && NeedsRedis(s'.txns[j])
        ensures s'.txns[j].op.user in s'.redis && s'.redis[s'.txns[j].op.user] == j
      {
        assert j < |s.txns|;
        if NeedsRedis(s.txns[j]) {
          assert s.txns[j].op.user in s.redis && s.redis[s.txns[j].op.user] == j;
          assert a.Release? ==> NeedsRedis(s.txns[a.i]);
        } else {
          assert a.Advance? && a.i == j && s.txns[j].phase.Waiting?;
        }
      }
    }
  }

  lemma {:induction false} ExclusiveLockHolds(start: Store, actions: seq<Action>)
    requires NoLockTimeout(actions)
    ensures HoldsRedis(Run(Initial(start), actions))
  {
    if actions != [] {
      assert actions[|actions| - 1] in actions;
      ExclusiveLockHolds(start, actions[..|actions| - 1]);
      NextKeepsRedis(Run(Initial(start), actions[..|actions| - 1]), actions[|actions| - 1]);
    }
  }

  lemma LockMakesChargesAlone(s: State)
    requires HoldsRedis(s) && RefundsApart(s)
    ensures ChargesAlone(s)
  {
  }

  lemma {:induction false} ExclusiveLockRuns(start: Store, actions: seq<Action>)
    requires NoLockTimeout(actions) && AlwaysRefundsApart(Initial(start), actions)
    ensures AlwaysChargesAlone(Initial(start), actions)
  {
    ExclusiveLockHolds(start, actions);
    LockMakesChargesAlone(Run(Initial(start), actions));
    if actions != [] {
      ExclusiveLockRuns(start, actions[..|actions| - 1]);
    }
  }

  /** Some run leads to s in which no Redis lock times out under its holder and no
      refund overlaps a charge of the same user. */
  ghost predicate ReachableUnderLock(start: Store, s: State) {
    exists actions ::
      NoLockTimeout(actions) && AlwaysRefundsApart(Initial(start), actions) && s == Run(Initial(start), actions)
  }

  /** Charges interleaved with uses, with each other and with refunds elsewhere
      are serial whenever the Redis lock is exclusive and no refund of the same
      user overlaps a charge. */
  lemma ChargesAreSerialUnderLock(start: Store, s: State)
    requires Ledger(start) && ReachableUnderLock(start, s)
    ensures Serial(start, s)
  {
    var actions :|
      NoLockTimeout(actions) && AlwaysRefundsApart(Initial(start), actions) && s == Run(Initial(start), actions);
    ExclusiveLockRuns(start, actions);
    SerialWhenChargesAlone(start, s);
  }

  // ---------- why both conditions are needed ----------

  lemma RunStep(s: State, actions: seq<Action>, k: nat)
    requires k < |actions|
    ensures Run(s, actions[..k + 1]) == Next(Run(s, actions[..k]), actions[k])
    ensures k == 0 ==> Run(s, actions[..k]) == s
  {
    assert actions[..k + 1][..k] == actions[..k];
  }

  const CHARGE_50 := ChargeOp(1, 50, 0)
  const REFUND_30 := RefundOp(1, 30, None)

  const LOST_REFUND_START := Store(map[1 := 100], [HistoryRow(1, Charge, 100, None)])

  const LOST_REFUND_RUN := [
    Start(CHARGE_50), Start(REFUND_30),
    Advance(0, false), Advance(0, false),                      // charge: Redis lock, reads 100
    Advance(1, false), Advance(1, false), Advance(1, false),   // refund: reads, writes and commits 130
    Advance(0, false), Advance(0, false)]                      // charge: writes and commits 150

  lemma ChargeAndRefundStart()
    ensures Run(Initial(LOST_REFUND_START), LOST_REFUND_RUN[..2])
            == State(LOST_REFUND_START, [Txn(CHARGE_50, Waiting), Txn(REFUND_30, Waiting)], map[], map[], [])
  {
    RunStep(Initial(LOST_REFUND_START), LOST_REFUND_RUN, 0);
    RunStep(Initial(LOST_REFUND_START), LOST_REFUND_RUN, 1);
  }

  lemma ChargeTakesLock()
    ensures Run(Initial(LOST_REFUND_START), LOST_REFUND_RUN[..3])
            == State(LOST_REFUND_START, [Txn(CHARGE_50, Locked), Txn(REFUND_30, Waiting)], map[], map[1 := 0], [])
  {
    ChargeAndRefundStart();
    RunStep(Initial(LOST_REFUND_START), LOST_REFUND_RUN, 2);
  }

  lemma ChargeReadsHundred()
    ensures Run(Initial(LOST_REFUND_START), LOST_REFUND_RUN[..4])
            == State(LOST_REFUND_START, [Txn(CHARGE_50, Read(Some(100))), Txn(REFUND_30, Waiting)],
                     map[], map[1 := 0], [])
  {
    ChargeTakesLock();
    RunStep(Initial(LOST_REFUND_START), LOST_REFUND_RUN, 3);
  }

  const REFUNDED := Record(LOST_REFUND_START, 1, 130, HistoryRow(1, Refund, 30, None))

  lemma RefundWrites()
    ensures Run(Initial(LOST_REFUND_START), LOST_REFUND_RUN[..6])
            == State(LOST_REFUND_START, [Txn(CHARGE_50, Read(Some(100))), Txn(REFUND_30, Written(130))],
                     map[1 := 1], map[1 := 0], [])
  {
    ChargeReadsHundred();
    RunStep(Initial(LOST_REFUND_START), LOST_REFUND_RUN, 4);
    RunStep(Initial(LOST_REFUND_START), LOST_REFUND_RUN, 5);
  }

  lemma RefundCommits()
    ensures Run(Initial(LOST_REFUND_START), LOST_REFUND_RUN[..7])
            == State(REFUNDED, [Txn(CHARGE_50, Read(Some(100))), Txn(REFUND_30, Ended(true))],
                     map[], map[1 := 0], [REFUND_30])
  {
    RefundWrites();
    RunStep(Initial(LOST_REFUND_START), LOST_REFUND_RUN, 6);
  }

  lemma ChargeWrites()
    ensures Run(Initial(LOST_REFUND_START), LOST_REFUND_RUN[..8])
            == State(REFUNDED, [Txn(CHARGE_50, Written(150)), Txn(REFUND_30, Ended(true))],
                     map[1 := 0], map[1 := 0], [REFUND_30])
  {
    RefundCommits();
    RunStep(Initial(LOST_REFUND_START), LOST_REFUND_RUN, 7);
  }

  lemma ChargeOverwrites()
    ensures var s := Run(Initial(LOST_REFUND_START), LOST_REFUND_RUN);
            BalanceOf(s.db, 1) == 150 && s.commits == [REFUND_30, ChargeOp(1, 50, -30)]
  {
    ChargeWrites();
    RunStep(Initial(LOST_REFUND_START), LOST_REFUND_RUN, 8);
    assert LOST_REFUND_RUN[..9] == LOST_REFUND_RUN;
  }

  lemma StartIsLedger()
    ensures Ledger(LOST_REFUND_START)
  {
    assert Ledger(EMPTY);
    PerformKeepsLedger(EMPTY, ChargeOp(1, 100, 0));
    assert LOST_REFUND_START == Perform(EMPTY, ChargeOp(1, 100, 0)).value;
  }

  /** A refund that commits between a charge's read and its write is overwritten,
      although no lock ever timed out: the balance is 150 instead of 180, the charge's
      gap is the refund's 30, and the ledger no longer holds. */
  lemma RefundDuringChargeIsLost() returns (s: State)
    ensures NoLockTimeout(LOST_REFUND_RUN) && Ledger(LOST_REFUND_START)
    ensures s == Run(Initial(LOST_REFUND_START), LOST_REFUND_RUN)
    ensures s.commits == [REFUND_30, ChargeOp(1, 50, -30)] && BalanceOf(s.db, 1) == 150
    ensures Replay(LOST_REFUND_START, AllPlain(s.commits)).Success?
    ensures BalanceOf(Replay(LOST_REFUND_START, AllPlain(s.commits)).value, 1) == 180
    ensures Drift(s.db, 1) == -30 && !Ledger(s.db)
  {
    s := Run(Initial(LOST_REFUND_START), LOST_REFUND_RUN);
    ChargeOverwrites();
    StartIsLedger();
    RunKeepsLedgerExactlyWhen(LOST_REFUND_START, s);
    assert s.commits == [REFUND_30] + [ChargeOp(1, 50, -30)] && [] + [REFUND_30] == [REFUND_30];
    SumAppend([], REFUND_30, GapFor(1));
    SumAppend([REFUND_30], ChargeOp(1, 50, -30), GapFor(1));
    assert AllPlain(s.commits) == [REFUND_30] + [CHARGE_50];
    ReplayAppend(LOST_REFUND_START, [], REFUND_30);
    ReplayAppend(LOST_REFUND_START, [REFUND_30], CHARGE_50);
  }

  lemma Step(start: Store, s: State, a: Action)
    requires Reachable(start, s)
    ensures Reachable(start, Next(s, a))
  {
    var actions :| s == Run(Initial(start), actions);
    assert (actions + [a])[..|actions|] == actions;
    assert Run(Initial(start), actions + [a]) == Next(s, a);
  }

  const CHARGE_70 := ChargeOp(1, 70, 0)

  /** The first charge has read 100 and lost its Redis lock; the second one takes it. */
  lemma SecondTakesLock() returns (s: State)
    ensures Reachable(LOST_REFUND_START, s)
    ensures s == State(LOST_REFUND_START, [Txn(CHARGE_50, Read(Some(100))), Txn(CHARGE_70, Locked)],
                       map[], map[1 := 1], [])
  {
    var start := LOST_REFUND_START;
    assert Initial(start) == Run(Initial(start), []);
    Step(start, Initial(start), Start(CHARGE_50));
    var s1 := State(start, [Txn(CHARGE_50, Waiting)], map[], map[], []);
    assert Next(Initial(start), Start(CHARGE_50)) == s1;
    Step(start, s1, Start(CHARGE_70));
    var s2 := s1.(txns := [Txn(CHARGE_50, Waiting), Txn(CHARGE_70, Waiting)]);
    Step(start, s2, Advance(0, false));
    var s3 := s2.(txns := [Txn(CHARGE_50, Locked), Txn(CHARGE_70, Waiting)], redis := map[1 := 0]);
    assert Next(s2, Advance(0, false)) == s3;
    s := FirstTimesOut(s3);
  }

  lemma FirstTimesOut(s: State) returns (t: State)
    requires Reachable(LOST_REFUND_START, s)
    requires s == State(LOST_REFUND_START, [Txn(CHARGE_50, Locked), Txn(CHARGE_70, Waiting)], map[], map[1 := 0], [])
    ensures Reachable(LOST_REFUND_START, t)
    ensures t == State(LOST_REFUND_START, [Txn(CHARGE_50, Read(Some(100))), Txn(CHARGE_70, Locked)],
                       map[], map[1 := 1], [])
  {
    Step(LOST_REFUND_START, s, Advance(0, false));
    var s1 := s.(txns := [Txn(CHARGE_50, Read(Some(100))), Txn(CHARGE_70, Waiting)]);
    assert Next(s, Advance(0, false)) == s1;
    Step(LOST_REFUND_START, s1, LockTimeout(1));
    var s2 := s1.(redis := map[]);
    assert Next(s1, LockTimeout(1)) == s2;
    Step(LOST_REFUND_START, s2, Advance(1, false));
    t := Next(s2, Advance(1, false));
  }

  /** The second charge reads, writes and commits. */
  lemma SecondCommits(s: State) returns (t: State)
    requires Reachable(LOST_REFUND_START, s)
    requires s.db == LOST_REFUND_START && s.rowLock == map[] && s.commits == []
    requires s.txns == [Txn(CHARGE_50, Read(Some(100))), Txn(CHARGE_70, Locked)]
    ensures Reachable(LOST_REFUND_START, t) && t.rowLock == map[] && t.commits == [CHARGE_70]
    ensures t.txns == [Txn(CHARGE_50, Read(Some(100))), Txn(CHARGE_70, Ended(true))]
    ensures 1 in t.db.balances && t.db.balances[1] == 170
  {
    Step(LOST_REFUND_START, s, Advance(1, false));
    var s1 := Next(s, Advance(1, false));
    assert s1.txns == [Txn(CHARGE_50, Read(Some(100))), Txn(CHARGE_70, Read(Some(100)))];
    Step(LOST_REFUND_START, s1, Advance(1, false));
    var s2 := Next(s1, Advance(1, false));
    assert s2.txns == [Txn(CHARGE_50, Read(Some(100))), Txn(CHARGE_70, Written(170))];
    Step(LOST_REFUND_START, s2, Advance(1, false));
    t := Next(s2, Advance(1, false));
  }

  lemma FirstOverwrites(s: State) returns (t: State)
    requires Reachable(LOST_REFUND_START, s) && s.rowLock == map[] && s.commits == [CHARGE_70]
    requires s.txns == [Txn(CHARGE_50, Read(Some(100))), Txn(CHARGE_70, Ended(true))]
    requires 1 in s.db.balances && s.db.balances[1] == 170
    ensures Reachable(LOST_REFUND_START, t) && t.commits == [CHARGE_70, ChargeOp(1, 50, -70)]
    ensures BalanceOf(t.db, 1) == 150 && NoRefund(t)
  {
    Step(LOST_REFUND_START, s, Advance(0, false));
    var s1 := Next(s, Advance(0, false));
    assert s1.txns == [Txn(CHARGE_50, Written(150)), Txn(CHARGE_70, Ended(true))];
    Step(LOST_REFUND_START, s1, Advance(0, false));
    t := Next(s1, Advance(0, false));
    assert t.txns == [Txn(CHARGE_50, Ended(true)), Txn(CHARGE_70, Ended(true))];
  }

  predicate NoRefund(s: State) {
    forall i :: 0 <= i < |s.txns| ==> !s.txns[i].op.RefundOp?
  }

  /** A Redis lock that times out under its holder loses a charge, with no refund around:
      100 + 70 + 50 becomes 150. */
  lemma ChargeAfterTimeoutIsLost() returns (s: State)
    ensures Reachable(LOST_REFUND_START, s) && NoRefund(s)
    ensures s.commits == [CHARGE_70, ChargeOp(1, 50, -70)] && BalanceOf(s.db, 1) == 150
    ensures Drift(s.db, 1) == -70 && !Ledger(s.db)
  {
    var locked := SecondTakesLock();
    var committed := SecondCommits(locked);
    s := FirstOverwrites(committed);
    StartIsLedger();
    RunKeepsLedgerExactlyWhen(LOST_REFUND_START, s);
    assert s.commits == [CHARGE_70] + [ChargeOp(1, 50, -70)] && [] + [CHARGE_70] == [CHARGE_70];
    SumAppend([], CHARGE_70, GapFor(1));
    SumAppend([CHARGE_70], ChargeOp(1, 50, -70), GapFor(1));
  }
}

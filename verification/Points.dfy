/** The balance and history tables, and the three balance transactions on them,
    each one commit. */
module Points {
  import opened Sums
  import opened Tables

  const MAX_CHARGE_AMOUNT := 1000000

  datatype Error = ExceedMaxChargeAmount | NotFoundUserPoint | NotEnoughPoint | DbFailure | LockFailure

  /** `balances` is the user_points table keyed by its unique user id;
      `history` is point_histories in insertion order. */
  datatype Store = Store(balances: map<int, int>, history: seq<HistoryRow>)

  const EMPTY := Store(map[], [])

  function BalanceOf(s: Store, user: int): int {
    if user in s.balances then s.balances[user] else 0
  }

  function Record(s: Store, user: int, balance: int, row: HistoryRow): Store {
    Store(s.balances[user := balance], s.history + [row])
  }

  /** A first charge creates the balance row. `gap` is the balance the charge read
      minus the committed one it overwrites: a charge reads without a row lock. */
  function ChargeTx(s: Store, user: int, amount: int, gap: int): Result<Store, Error> {
    if amount > MAX_CHARGE_AMOUNT then Failure(ExceedMaxChargeAmount)
    else Success(Record(s, user, BalanceOf(s, user) + gap + amount, HistoryRow(user, Charge, amount, None)))
  }

  function UseTx(s: Store, user: int, amount: int, tx: Option<TxId>): Result<Store, Error> {
    if user !in s.balances then Failure(NotFoundUserPoint)
    else if s.balances[user] < amount then Failure(NotEnoughPoint)
    else Success(Record(s, user, s.balances[user] - amount, HistoryRow(user, Use, amount, tx)))
  }

  function RefundTx(s: Store, user: int, amount: int, tx: Option<TxId>): Result<Store, Error> {
    if user !in s.balances then Failure(NotFoundUserPoint)
    else Success(Record(s, user, s.balances[user] + amount, HistoryRow(user, Refund, amount, tx)))
  }

  /** The balance transactions as data, so that runs of them can be replayed. */
  datatype Op =
    | ChargeOp(user: int, amount: int, gap: int)
    | UseOp(user: int, amount: int, tx: Option<TxId>)
    | RefundOp(user: int, amount: int, tx: Option<TxId>)

  function Perform(s: Store, op: Op): Result<Store, Error> {
    match op
    case ChargeOp(user, amount, gap) => ChargeTx(s, user, amount, gap)
    case UseOp(user, amount, tx) => UseTx(s, user, amount, tx)
    case RefundOp(user, amount, tx) => RefundTx(s, user, amount, tx)
  }

  /** The history row a transaction writes. */
  function RowFor(op: Op): HistoryRow {
    match op
    case ChargeOp(user, amount, _) => HistoryRow(user, Charge, amount, None)
    case UseOp(user, amount, tx) => HistoryRow(user, Use, amount, tx)
    case RefundOp(user, amount, tx) => HistoryRow(user, Refund, amount, tx)
  }

  /** What a history row says it did to its user's balance. */
  function Signed(row: HistoryRow): int {
    match row.kind
    case Charge => row.amount
    case Use => -row.amount
    case Refund => row.amount
  }

  function SignedFor(user: int): HistoryRow -> int {
    (row: HistoryRow) => if row.user == user then Signed(row) else 0
  }

  // ---------- the ledger ----------

  /** By how much a user's balance misses charges minus uses plus refunds. */
  function Drift(s: Store, user: int): int {
    BalanceOf(s, user) - Sum(s.history, SignedFor(user))
  }

  ghost function TotalDrift(s: Store): int {
    Total(s.balances) - Sum(s.history, Signed)
  }

  /** Every balance, and their total, is what the history says. */
  ghost predicate Ledger(s: Store) {
    (forall user :: Drift(s, user) == 0) && TotalDrift(s) == 0
  }

  function Gap(op: Op): int {
    if op.ChargeOp? then op.gap else 0
  }

  function GapFor(user: int): Op -> int {
    (op: Op) => if op.user == user then Gap(op) else 0
  }

  ghost predicate NonNegative(s: Store) {
    forall user :: user in s.balances ==> s.balances[user] >= 0
  }

  lemma RecordDrifts(s: Store, user: int, balance: int, row: HistoryRow, extra: int, u: int)
    requires row.user == user && balance == BalanceOf(s, user) + Signed(row) + extra
    ensures Drift(Record(s, user, balance, row), u) == Drift(s, u) + (if u == user then extra else 0)
  {
    SumAppend(s.history, row, SignedFor(u));
  }

  lemma RecordDriftsInTotal(s: Store, user: int, balance: int, row: HistoryRow, extra: int)
    requires balance == BalanceOf(s, user) + Signed(row) + extra
    ensures TotalDrift(Record(s, user, balance, row)) == TotalDrift(s) + extra
  {
    SumAppend(s.history, row, Signed);
    TotalUpdate(s.balances, user, balance);
  }

  /** A committed transaction moves balance and history alike, but for a charge's gap. */
  lemma PerformDrifts(s: Store, op: Op, u: int)
    requires Perform(s, op).Success?
    ensures var s' := Perform(s, op).value;
            Drift(s', u) == Drift(s, u) + GapFor(u)(op) && TotalDrift(s') == TotalDrift(s) + Gap(op)
  {
    var balance := Perform(s, op).value.balances[op.user];
    RecordDrifts(s, op.user, balance, RowFor(op), Gap(op), u);
    RecordDriftsInTotal(s, op.user, balance, RowFor(op), Gap(op));
  }

  /** One committed transaction keeps the ledger exactly if it leaves no gap. */
  lemma PerformKeepsLedger(s: Store, op: Op)
    requires Ledger(s) && Perform(s, op).Success?
    ensures Ledger(Perform(s, op).value) <==> Gap(op) == 0
  {
    var s' := Perform(s, op).value;
    PerformDrifts(s, op, op.user);
    assert Drift(s, op.user) == 0;
    forall u ensures Drift(s', u) == GapFor(u)(op) {
      PerformDrifts(s, op, u);
      assert Drift(s, u) == 0;
    }
  }

  /** Replays a list of committed transactions, one after the other. */
  function Replay(s: Store, ops: seq<Op>): Result<Store, Error> {
    if ops == [] then Success(s) else
      match Replay(s, ops[..|ops| - 1])
      case Success(before) => Perform(before, ops[|ops| - 1])
      case Failure(e) => Failure(e)
  }

  lemma ReplayAppend(s: Store, ops: seq<Op>, op: Op)
    requires Replay(s, ops).Success?
    ensures Replay(s, ops + [op]) == Perform(Replay(s, ops).value, op)
  {
    assert (ops + [op])[..|ops|] == ops;
  }

  lemma {:induction false} DriftOverRuns(s: Store, ops: seq<Op>, t: Store, u: int)
    requires Replay(s, ops) == Success(t)
    ensures Drift(t, u) == Drift(s, u) + Sum(ops, GapFor(u))
    ensures TotalDrift(t) == TotalDrift(s) + Sum(ops, Gap)
  {
    if ops != [] {
      var before := Replay(s, ops[..|ops| - 1]).value;
      DriftOverRuns(s, ops[..|ops| - 1], before, u);
      PerformDrifts(before, ops[|ops| - 1], u);
    }
  }

  /** After any run of committed transactions each balance misses charges minus uses
      plus refunds by exactly the gaps of its user's charges; the ledger holds if and
      only if the gaps of every user cancel. */
  lemma LedgerHoldsExactlyWhen(s: Store, ops: seq<Op>, t: Store)
    requires Ledger(s) && Replay(s, ops) == Success(t)
    ensures forall u :: Drift(t, u) == Sum(ops, GapFor(u))
    ensures Ledger(t) <==> forall u :: Sum(ops, GapFor(u)) == 0
  {
    forall u ensures Drift(t, u) == Sum(ops, GapFor(u)) && TotalDrift(t) == Sum(ops, Gap) {
      DriftOverRuns(s, ops, t, u);
      assert Drift(s, u) == 0;
    }
    if forall u :: Sum(ops, GapFor(u)) == 0 {
      SumIsZeroByKey(ops, (op: Op) => op.user, Gap, GapFor);
      assert TotalDrift(t) == 0 by {
        DriftOverRuns(s, ops, t, 0);
      }
    } else {
      var u :| Sum(ops, GapFor(u)) != 0;
      assert Drift(t, u) != 0;
    }
  }

  // ---------- balances without stale reads ----------

  ghost predicate NoGaps(ops: seq<Op>) {
    forall i :: 0 <= i < |ops| ==> Gap(ops[i]) == 0
  }

  /** In every committed state reached by serial transactions, each balance is
      CHARGE - USE + REFUND over the user's history, and the sum of all balances
      is the same sum over the whole history. */
  lemma LedgerOverRuns(s: Store, ops: seq<Op>, t: Store)
    requires Ledger(s) && Replay(s, ops) == Success(t) && NoGaps(ops)
    ensures Ledger(t)
  {
    LedgerHoldsExactlyWhen(s, ops, t);
    forall u ensures Sum(ops, GapFor(u)) == 0 {
      SumIsZero(ops, GapFor(u));
    }
  }

  function Plain(op: Op): Op {
    if op.ChargeOp? then op.(gap := 0) else op
  }

  /** The same transactions, every charge reading the committed balance. */
  function AllPlain(ops: seq<Op>): seq<Op> {
    seq(|ops|, i requires 0 <= i < |ops| => Plain(ops[i]))
  }

  /** With and without the gaps, the same rows exist and the same history is written. */
  lemma {:induction false} PlainRunsMatch(s: Store, ops: seq<Op>, t: Store, p: Store)
    requires Replay(s, ops) == Success(t) && Replay(s, AllPlain(ops)) == Success(p)
    ensures p.history == t.history && p.balances.Keys == t.balances.Keys
  {
    if ops != [] {
      var n := |ops| - 1;
      assert AllPlain(ops)[..n] == AllPlain(ops[..n]);
      PlainRunsMatch(s, ops[..n], Replay(s, ops[..n]).value, Replay(s, AllPlain(ops[..n])).value);
    }
  }

  /** A run ends as the serial run of the same transactions does if and only if that
      serial run goes through and the gaps of every user cancel. */
  lemma SerialExactlyWhen(s: Store, ops: seq<Op>, t: Store)
    requires Ledger(s) && Replay(s, ops) == Success(t)
    ensures Replay(s, AllPlain(ops)) == Success(t)
            <==> Replay(s, AllPlain(ops)).Success? && forall u :: Sum(ops, GapFor(u)) == 0
  {
    if Replay(s, AllPlain(ops)).Success? {
      var p := Replay(s, AllPlain(ops)).value;
      PlainRunsMatch(s, ops, t, p);
      LedgerHoldsExactlyWhen(s, ops, t);
      LedgerOverRuns(s, AllPlain(ops), p);
      if forall u :: Sum(ops, GapFor(u)) == 0 {
        forall u | u in t.balances ensures p.balances[u] == t.balances[u] {
          assert Drift(p, u) == 0 && Drift(t, u) == 0;
        }
        assert p.balances == t.balances;
      }
    }
  }

  /** A balance can only turn negative through a negative amount or read: with the
      sign the callers intend, the use guard alone keeps every balance at or above
      zero. */
  lemma PerformKeepsNonNegative(s: Store, op: Op)
    requires NonNegative(s) && Perform(s, op).Success?
    ensures NonNegative(Perform(s, op).value) <==>
            (op.UseOp? || BalanceOf(s, op.user) + Gap(op) + op.amount >= 0)
  {
    var s' := Perform(s, op).value;
    assert s'.balances[op.user] == if op.UseOp? then s.balances[op.user] - op.amount
                                   else BalanceOf(s, op.user) + Gap(op) + op.amount;
  }
}

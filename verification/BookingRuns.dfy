/** Reserve, confirm and expire at the granularity of single SQL statements.

    Any number of transactions run interleaved. A SELECT may return any earlier
    committed version. A conditional UPDATE takes the row's lock, looks at the
    committed row and either matches, keeping the lock to the end of its
    transaction, or fails and aborts it. Writes become visible at commit. The
    theorem is that the committed tables are always those of the committed
    transactions run one at a time, in commit order. */
module BookingRuns {
  import opened Sums
  import opened Tables
  import opened Booking

  /** How far a transaction has come. `price` is what its SELECT on the seat
      returned; the seat UPDATE writes it back. */
  datatype Phase =
    | Begun                      // nothing read yet
    | Checked                    // status read, possibly stale
    | ReservationHeld            // reservation updated, its row locked
    | SeatRead(price: int)       // and the seat selected
    | SeatHeld(price: int)       // seat updated, its row locked
    | Inserted(price: int)       // reservation inserted
    | Ended(committed: bool)

  datatype Txn = Txn(op: Op, price: int, phase: Phase)

  /** `versions` are the committed states so far, `commits` the transactions
      that made them; `seatLock` and `rowLock` name the holder of a row. */
  datatype State = State(db: Store, versions: seq<Store>, txns: seq<Txn>,
                         seatLock: map<int, nat>, rowLock: map<nat, nat>, commits: seq<Op>)

  /** Start runs the SELECT on the seat that precedes the reserving transaction.
      Advance runs transaction i's next statement: `version` is what a SELECT
      sees, `fails` a database error, such as the unique index refusing the insert. */
  datatype Action =
    | Start(op: Op, version: nat)
    | Advance(i: nat, version: nat, fails: bool)

  function Initial(db: Store): State {
    State(db, [db], [], map[], map[], [])
  }

  /** The reservation a confirm or expire works on, as the committed rows have it. */
  function SeatOf(s: State, t: Txn): int {
    if t.op.ConfirmOp? then
      if t.op.id < |s.db.reservations| then s.db.reservations[t.op.id].seat else 0
    else t.op.seat
  }

  function Goto(s: State, i: nat, phase: Phase): State
    requires i < |s.txns|
  {
    s.(txns := s.txns[i := s.txns[i].(phase := phase)])
  }

  /** End of transaction i: its locks go. */
  function End(s: State, i: nat, committed: bool): State
    requires i < |s.txns|
  {
    Goto(s, i, Ended(committed)).(
      seatLock := map k | k in s.seatLock && s.seatLock[k] != i :: s.seatLock[k],
      rowLock := map k | k in s.rowLock && s.rowLock[k] != i :: s.rowLock[k])
  }

  /** The rows transaction i leaves behind: every UPDATE also writes back the
      price its SELECT returned. */
  function Written(s: State, t: Txn): Store
    requires t.phase.Inserted? || t.phase.SeatHeld?
    requires SeatOf(s, t) in s.db.seats
    requires !t.op.ReserveOp? ==> t.op.id < |s.db.reservations|
  {
    var seat := SeatOf(s, t);
    match t.op
    case ReserveOp(user, _) =>
      Store(s.db.seats[seat := s.db.seats[seat].(status := Reserved, price := t.phase.price)],
            s.db.reservations + [ReservationRow(user, seat, t.phase.price, Pending, None)])
    case ConfirmOp(id, stamp) =>
      Store(s.db.seats[seat := s.db.seats[seat].(status := Sold, price := t.phase.price)],
            s.db.reservations[id := s.db.reservations[id].(status := Confirmed, paidAt := Some(stamp))])
    case ExpireOp(id, _) =>
      Store(s.db.seats[seat := s.db.seats[seat].(status := Available, price := t.phase.price)],
            s.db.reservations[id := s.db.reservations[id].(status := Expired)])
  }

  function Commit(s: State, i: nat): State
    requires i < |s.txns| && (s.txns[i].phase.Inserted? || s.txns[i].phase.SeatHeld?)
    requires SeatOf(s, s.txns[i]) in s.db.seats
    requires !s.txns[i].op.ReserveOp? ==> s.txns[i].op.id < |s.db.reservations|
  {
    var db := Written(s, s.txns[i]);
    End(s, i, true).(db := db, versions := s.versions + [db], commits := s.commits + [s.txns[i].op])
  }

  predicate Enabled(s: State, a: Action) {
    match a
    case Start(op, version) =>
      && version < |s.versions|
      && (op.ReserveOp? ==> op.seat in s.versions[version].seats)
      && JobMatches(s.db, op) && (op.ExpireOp? ==> op.id < |s.db.reservations|)
    case Advance(i, version, _) =>
      && i < |s.txns| && version < |s.versions|
      && match s.txns[i].phase
         case Begun => true
         case Checked =>
           if s.txns[i].op.ReserveOp? then s.txns[i].op.seat !in s.seatLock else s.txns[i].op.id !in s.rowLock
         case SeatRead(_) => SeatOf(s, s.txns[i]) !in s.seatLock
         case Ended(_) => false
         case _ => true
  }

  /** The next statement of transaction i. */
  function Statement(s: State, i: nat, version: nat, fails: bool): State
    requires Enabled(s, Advance(i, version, fails))
  {
    var t := s.txns[i];
    var seen := s.versions[version];
    var seat := SeatOf(s, t);
    if fails then End(s, i, false)
    else match t.phase
      case Begun =>
        match t.op {
          case ReserveOp(_, _) =>
            if seat in seen.seats && seen.seats[seat].status == Available then Goto(s, i, Checked) else End(s, i, false)
          case ConfirmOp(id, _) =>
            if id < |seen.reservations| && seen.reservations[id].status == Pending then Goto(s, i, Checked)
            else End(s, i, false)
          case ExpireOp(id, _) =>
            if id < |seen.reservations| then Goto(s, i, Checked) else End(s, i, false)
        }
      case Checked =>
        if t.op.ReserveOp? then
          if seat in s.db.seats && s.db.seats[seat].status == Available
          then Goto(s, i, SeatHeld(t.price)).(seatLock := s.seatLock[seat := i])
          else End(s, i, false)
        else
          if t.op.id < |s.db.reservations| && s.db.reservations[t.op.id].status == Pending
          then Goto(s, i, ReservationHeld).(rowLock := s.rowLock[t.op.id := i])
          else End(s, i, false)
      case ReservationHeld =>
        if seat in seen.seats then Goto(s, i, SeatRead(seen.seats[seat].price)) else End(s, i, false)
      case SeatRead(price) =>
        if seat in s.db.seats && s.db.seats[seat].status == Reserved
        then Goto(s, i, SeatHeld(price)).(seatLock := s.seatLock[seat := i])
        else End(s, i, false)
      case SeatHeld(price) =>
        if t.op.ReserveOp? then Goto(s, i, Inserted(price))
        else if seat in s.db.seats && t.op.id < |s.db.reservations| then Commit(s, i)
        else End(s, i, false)
      case Inserted(_) =>
        if seat in s.db.seats && t.op.ReserveOp? then Commit(s, i) else End(s, i, false)
      case Ended(_) => s
  }

  /** One step; an action that is not enabled (a blocked UPDATE, say) leaves the state alone. */
  function Next(s: State, a: Action): State {
    if !Enabled(s, a) then s
    else match a
      case Start(op, version) =>
        var price := if op.ReserveOp? then s.versions[version].seats[op.seat].price else 0;
        s.(txns := s.txns + [Txn(op, price, Begun)])
      case Advance(i, version, fails) => Statement(s, i, version, fails)
  }

  function Run(s: State, actions: seq<Action>): State {
    if actions == [] then s else Next(Run(s, actions[..|actions| - 1]), actions[|actions| - 1])
  }

  // ---------- the invariant ----------

  /** What transaction i knows for certain, because it holds the row's lock. */
  ghost predicate TxnOk(s: State, i: nat)
    requires i < |s.txns|
  {
    var t := s.txns[i];
    && (t.op.ExpireOp? ==> t.op.id < |s.db.reservations| && s.db.reservations[t.op.id].seat == t.op.seat)
    && (t.op.ReserveOp? ==> t.op.seat in s.db.seats && t.price == s.db.seats[t.op.seat].price)
    && (t.phase.ReservationHeld? || t.phase.SeatRead? || (t.phase.SeatHeld? && !t.op.ReserveOp?) ==>
          && !t.op.ReserveOp?
          && t.op.id in s.rowLock && s.rowLock[t.op.id] == i
          && t.op.id < |s.db.reservations| && s.db.reservations[t.op.id].status == Pending)
    && (t.phase.Inserted? ==> t.op.ReserveOp?)
    && (t.phase.SeatRead? || t.phase.SeatHeld? || t.phase.Inserted? ==>
          SeatOf(s, t) in s.db.seats && t.phase.price == s.db.seats[SeatOf(s, t)].price)
    && (t.phase.SeatHeld? || t.phase.Inserted? ==>
          && SeatOf(s, t) in s.seatLock && s.seatLock[SeatOf(s, t)] == i
          && s.db.seats[SeatOf(s, t)].status == (if t.op.ReserveOp? then Available else Reserved))
  }

  /** A lock is only held by a transaction that updated the row. */
  ghost predicate LocksOk(s: State) {
    && (forall seat :: seat in s.seatLock ==>
          && s.seatLock[seat] < |s.txns|
          && var t := s.txns[s.seatLock[seat]];
             (t.phase.SeatHeld? || t.phase.Inserted?) && SeatOf(s, t) == seat)
    && (forall id :: id in s.rowLock ==>
          && s.rowLock[id] < |s.txns|
          && var t := s.txns[s.rowLock[id]];
             !t.op.ReserveOp? && t.op.id == id && (t.phase.ReservationHeld? || t.phase.SeatRead? || t.phase.SeatHeld?))
  }

  /** Committed versions only differ in statuses: seats keep their prices. */
  ghost predicate VersionOk(db: Store, past: Store) {
    && past.seats.Keys == db.seats.Keys
    && (forall seat :: seat in db.seats ==> past.seats[seat].price == db.seats[seat].price)
  }

  ghost predicate Inv(s: State, start: Store) {
    && Agreement(s.db)
    && Replay(start, s.commits) == Success(s.db)
    && (forall k :: 0 <= k < |s.versions| ==> VersionOk(s.db, s.versions[k]))
    && LocksOk(s)
    && (forall i :: 0 <= i < |s.txns| ==> TxnOk(s, i))
  }

  predicate ReadyToCommit(t: Txn) {
    t.phase.Inserted? || (t.phase.SeatHeld? && !t.op.ReserveOp?)
  }

  lemma GotoKeepsInv(s: State, start: Store, s': State, i: nat)
    requires Inv(s, start) && i < |s.txns| && i < |s'.txns|
    requires s' == Goto(s, i, s'.txns[i].phase).(seatLock := s'.seatLock, rowLock := s'.rowLock)
    requires TxnOk(s', i) && LocksOk(s')
    requires forall k :: k in s.seatLock && s.seatLock[k] != i ==> k in s'.seatLock && s'.seatLock[k] == s.seatLock[k]
    requires forall k :: k in s.rowLock && s.rowLock[k] != i ==> k in s'.rowLock && s'.rowLock[k] == s.rowLock[k]
    ensures Inv(s', start)
  {
    forall j | 0 <= j < |s'.txns| ensures TxnOk(s', j) {
      assert TxnOk(s, j);
    }
  }

  lemma EndKeepsInv(s: State, start: Store, i: nat)
    requires Inv(s, start) && i < |s.txns|
    ensures Inv(End(s, i, false), start)
  {
    assert TxnOk(s, i);
    GotoKeepsInv(s, start, End(s, i, false), i);
  }

  /** A commit is the atomic transaction, applied to the committed tables. */
  lemma CommitIsAtomic(s: State, start: Store, i: nat)
    requires Inv(s, start) && i < |s.txns|
    requires ReadyToCommit(s.txns[i])
    ensures SeatOf(s, s.txns[i]) in s.db.seats && (!s.txns[i].op.ReserveOp? ==> s.txns[i].op.id < |s.db.reservations|)
    ensures JobMatches(s.db, s.txns[i].op)
    ensures Perform(s.db, s.txns[i].op) == Success(Written(s, s.txns[i]))
  {
    assert TxnOk(s, i);
    var t := s.txns[i];
    var seat := SeatOf(s, t);
    if t.op.ExpireOp? {
      assert RowOk(s.db, s.db.reservations[t.op.id]);
    }
    assert s.db.seats[seat].(price := t.phase.price) == s.db.seats[seat];
  }

  lemma CommitKeepsVersions(s: State, start: Store, i: nat)
    requires Inv(s, start) && i < |s.txns| && ReadyToCommit(s.txns[i])
    ensures SeatOf(s, s.txns[i]) in s.db.seats && (!s.txns[i].op.ReserveOp? ==> s.txns[i].op.id < |s.db.reservations|)
    ensures var s' := Commit(s, i); forall k :: 0 <= k < |s'.versions| ==> VersionOk(s'.db, s'.versions[k])
  {
    assert TxnOk(s, i);
    var s' := Commit(s, i);
    assert VersionOk(s'.db, s.db);
    forall k | 0 <= k < |s'.versions| ensures VersionOk(s'.db, s'.versions[k]) {
      if k < |s.versions| {
        assert VersionOk(s.db, s.versions[k]);
      }
    }
  }

  /** The commit leaves what every other transaction knows intact: it changes only
      rows it holds the locks of. */
  lemma CommitKeepsTxn(s: State, start: Store, i: nat, j: nat)
    requires Inv(s, start) && i < |s.txns| && j < |s.txns| && ReadyToCommit(s.txns[i])
    ensures SeatOf(s, s.txns[i]) in s.db.seats && (!s.txns[i].op.ReserveOp? ==> s.txns[i].op.id < |s.db.reservations|)
    ensures TxnOk(Commit(s, i), j)
  {
    assert TxnOk(s, i) && TxnOk(s, j);
  }

  lemma CommitKeepsLocks(s: State, start: Store, i: nat)
    requires Inv(s, start) && i < |s.txns| && ReadyToCommit(s.txns[i])
    ensures SeatOf(s, s.txns[i]) in s.db.seats && (!s.txns[i].op.ReserveOp? ==> s.txns[i].op.id < |s.db.reservations|)
    ensures LocksOk(Commit(s, i))
  {
    assert TxnOk(s, i);
    var s' := Commit(s, i);
    forall seat | seat in s'.seatLock
      ensures s'.seatLock[seat] < |s'.txns|
      ensures var t := s'.txns[s'.seatLock[seat]]; (t.phase.SeatHeld? || t.phase.Inserted?) && SeatOf(s', t) == seat
    {
      assert TxnOk(s, s.seatLock[seat]);
    }
  }

  lemma CommitKeepsInv(s: State, start: Store, i: nat)
    requires Inv(s, start) && i < |s.txns| && ReadyToCommit(s.txns[i])
    ensures SeatOf(s, s.txns[i]) in s.db.seats && (!s.txns[i].op.ReserveOp? ==> s.txns[i].op.id < |s.db.reservations|)
    ensures Inv(Commit(s, i), start)
  {
    CommitIsAtomic(s, start, i);
    PerformKeepsAgreement(s.db, s.txns[i].op);
    ReplayAppend(start, s.commits, s.txns[i].op);
    CommitKeepsVersions(s, start, i);
    CommitKeepsLocks(s, start, i);
    forall j | 0 <= j < |s.txns| ensures TxnOk(Commit(s, i), j) {
      CommitKeepsTxn(s, start, i, j);
    }
  }

  /** Moving on without touching a lock: the phase change must keep what the
      transaction knows and what its locks say about it. */
  lemma PlainGotoKeepsInv(s: State, start: Store, i: nat, phase: Phase)
    requires Inv(s, start) && i < |s.txns|
    requires TxnOk(Goto(s, i, phase), i)
    requires var was := s.txns[i].phase;
             || (was.Begun? && phase.Checked?)
             || (was.ReservationHeld? && phase.SeatRead?)
             || (was.SeatHeld? && phase.Inserted?)
    ensures Inv(Goto(s, i, phase), start)
  {
    assert TxnOk(s, i);
    GotoKeepsInv(s, start, Goto(s, i, phase), i);
  }

  lemma SeatUpdateKeepsInv(s: State, start: Store, i: nat, price: int)
    requires Inv(s, start) && i < |s.txns|
    requires var t := s.txns[i]; (t.phase.Checked? && t.op.ReserveOp?) || t.phase.SeatRead?
    requires SeatOf(s, s.txns[i]) !in s.seatLock
    requires var s' := Goto(s, i, SeatHeld(price)).(seatLock := s.seatLock[SeatOf(s, s.txns[i]) := i]); TxnOk(s', i)
    ensures Inv(Goto(s, i, SeatHeld(price)).(seatLock := s.seatLock[SeatOf(s, s.txns[i]) := i]), start)
  {
    assert TxnOk(s, i);
    GotoKeepsInv(s, start, Goto(s, i, SeatHeld(price)).(seatLock := s.seatLock[SeatOf(s, s.txns[i]) := i]), i);
  }

  lemma ReservationUpdateKeepsInv(s: State, start: Store, i: nat)
    requires Inv(s, start) && i < |s.txns|
    requires var t := s.txns[i];
             && t.phase.Checked? && !t.op.ReserveOp? && t.op.id !in s.rowLock
             && t.op.id < |s.db.reservations| && s.db.reservations[t.op.id].status == Pending
    ensures Inv(Goto(s, i, ReservationHeld).(rowLock := s.rowLock[s.txns[i].op.id := i]), start)
  {
    assert TxnOk(s, i);
    GotoKeepsInv(s, start, Goto(s, i, ReservationHeld).(rowLock := s.rowLock[s.txns[i].op.id := i]), i);
  }

  lemma StatementKeepsInv(s: State, start: Store, i: nat, version: nat, fails: bool)
    requires Inv(s, start) && Enabled(s, Advance(i, version, fails))
    ensures Inv(Statement(s, i, version, fails), start)
  {
    var t := s.txns[i];
    var s' := Statement(s, i, version, fails);
    assert TxnOk(s, i);
    assert VersionOk(s.db, s.versions[version]);
    if s' == End(s, i, false) {
      EndKeepsInv(s, start, i);
    } else if ReadyToCommit(t) {
      CommitKeepsInv(s, start, i);
    } else {
      match t.phase
      case Begun => PlainGotoKeepsInv(s, start, i, Checked);
      case Checked =>
        if t.op.ReserveOp? {
          SeatUpdateKeepsInv(s, start, i, t.price);
        } else {
          ReservationUpdateKeepsInv(s, start, i);
        }
      case ReservationHeld => PlainGotoKeepsInv(s, start, i, s'.txns[i].phase);
      case SeatRead(price) => SeatUpdateKeepsInv(s, start, i, price);
      case SeatHeld(price) => PlainGotoKeepsInv(s, start, i, Inserted(price));
    }
  }

  lemma NextKeepsInv(s: State, start: Store, a: Action)
    requires Inv(s, start)
    ensures Inv(Next(s, a), start)
  {
    if Enabled(s, a) {
      match a
      case Start(op, version) =>
        assert VersionOk(s.db, s.versions[version]);
        var s' := Next(s, a);
        forall j | 0 <= j < |s'.txns| ensures TxnOk(s', j) {
          if j < |s.txns| {
            assert TxnOk(s, j);
          }
        }
      case Advance(i, version, fails) => StatementKeepsInv(s, start, i, version, fails);
    }
  }

  lemma {:induction false} RunKeepsInv(start: Store, actions: seq<Action>)
    requires Agreement(start)
    ensures Inv(Run(Initial(start), actions), start)
  {
    if actions != [] {
      RunKeepsInv(start, actions[..|actions| - 1]);
      NextKeepsInv(Run(Initial(start), actions[..|actions| - 1]), start, actions[|actions| - 1]);
    }
  }

  // ---------- the theorems ----------

  /** Some interleaving of transactions leads from the tables `start` to s. */
  ghost predicate Reachable(start: Store, s: State) {
    exists actions :: s == Run(Initial(start), actions)
  }

  lemma ReachableIsInv(start: Store, s: State)
    requires Agreement(start) && Reachable(start, s)
    ensures Inv(s, start) && |s.versions| >= 1
  {
    var actions :| s == Run(Initial(start), actions);
    RunKeepsInv(start, actions);
    VersionsNotEmpty(start, actions);
  }

  /** Refinement: whatever the interleaving and however stale the reads, the
      committed tables are those of the committed transactions run atomically in
      commit order, and seats agree with reservations. No Redis lock is involved. */
  lemma RunRefinesAtomic(start: Store, s: State)
    requires Agreement(start) && Reachable(start, s)
    ensures Replay(start, s.commits) == Success(s.db) && Agreement(s.db)
  {
    ReachableIsInv(start, s);
  }

  /** Once a confirm or expire has updated its reservation, its seat update
      cannot fail: it waits for the lock and then succeeds, in every run. */
  lemma SeatUpdateCannotFail(start: Store, s: State, i: nat, version: nat)
    requires Agreement(start) && Reachable(start, s)
    requires Enabled(s, Advance(i, version, false))
    requires s.txns[i].phase.ReservationHeld? || s.txns[i].phase.SeatRead?
    ensures var t := Statement(s, i, version, false).txns[i];
            if s.txns[i].phase.ReservationHeld? then t.phase.SeatRead? else t.phase.SeatHeld?
  {
    ReachableIsInv(start, s);
    assert TxnOk(s, i);
    assert VersionOk(s.db, s.versions[version]);
    PendingSeatIsReserved(s.db, s.txns[i].op.id);
  }

  function IsOp(op: Op): Op -> int {
    (o: Op) => if o == op then 1 else 0
  }

  function CommittedAs(op: Op): Txn -> int {
    (t: Txn) => if t.op == op && t.phase == Ended(true) then 1 else 0
  }

  /** The commit log names each transaction that ended committed, once. */
  ghost predicate CommitsMatch(s: State, op: Op) {
    Sum(s.commits, IsOp(op)) == Sum(s.txns, CommittedAs(op))
  }

  /** A statement moves its own transaction on, and logs it exactly if it commits it. */
  lemma StatementLogs(s: State, i: nat, version: nat, fails: bool)
    requires Enabled(s, Advance(i, version, fails))
    ensures var s', t := Statement(s, i, version, fails), s.txns[i];
            && |s'.txns| == |s.txns| && s'.txns == s.txns[i := t.(phase := s'.txns[i].phase)]
            && t.phase != Ended(true)
            && s'.commits == if s'.txns[i].phase == Ended(true) then s.commits + [t.op] else s.commits
  {
  }

  lemma StatementKeepsMatch(s: State, i: nat, version: nat, fails: bool, op: Op)
    requires Enabled(s, Advance(i, version, fails)) && CommitsMatch(s, op)
    ensures CommitsMatch(Statement(s, i, version, fails), op)
  {
    var s' := Statement(s, i, version, fails);
    StatementLogs(s, i, version, fails);
    SumUpdate(s.txns, i, s'.txns[i], CommittedAs(op));
    SumAppend(s.commits, s.txns[i].op, IsOp(op));
  }

  lemma {:induction false} RunKeepsMatch(start: Store, actions: seq<Action>, op: Op)
    ensures CommitsMatch(Run(Initial(start), actions), op)
  {
    if actions != [] {
      var before, a := Run(Initial(start), actions[..|actions| - 1]), actions[|actions| - 1];
      RunKeepsMatch(start, actions[..|actions| - 1], op);
      if Enabled(before, a) {
        match a
        case Start(_, _) =>
          var after := Next(before, a);
          SumAppend(before.txns, after.txns[|before.txns|], CommittedAs(op));
        case Advance(i, version, fails) => StatementKeepsMatch(before, i, version, fails, op);
      }
    }
  }

  /** The loser of a race changes neither row: in every run the tables are those of the
      transactions that ended committed, each counted once, so whatever an aborted or
      unfinished transaction did is not in them. */
  lemma OnlyCommittedTransactionsCount(start: Store, s: State, op: Op)
    requires Agreement(start) && Reachable(start, s)
    ensures Replay(start, s.commits) == Success(s.db)
    ensures Sum(s.commits, IsOp(op)) == Sum(s.txns, CommittedAs(op))
  {
    ReachableIsInv(start, s);
    var actions :| s == Run(Initial(start), actions);
    RunKeepsMatch(start, actions, op);
  }

  /** At most one of confirm and expire ever commits for a reservation, and one
      has committed exactly when the reservation is no longer PENDING. */
  lemma RaceHasOneWinner(start: Store, s: State, id: nat)
    requires Agreement(start) && start.reservations == [] && Reachable(start, s)
    ensures Sum(s.commits, Settles(id)) ==
            if id < |s.db.reservations| && s.db.reservations[id].status != Pending then 1 else 0
  {
    ReachableIsInv(start, s);
    SettledAtMostOnce(start, s.commits, id);
  }

  /** No deadlock: locks are taken in the order reservation, seat, so whenever
      some transaction is unfinished, one of them can run its next statement. */
  lemma SomeTransactionCanAdvance(start: Store, s: State, i: nat) returns (k: nat)
    requires Agreement(start) && Reachable(start, s)
    requires i < |s.txns| && !s.txns[i].phase.Ended?
    ensures Enabled(s, Advance(k, 0, false))
  {
    ReachableIsInv(start, s);
    if seat :| seat in s.seatLock {
      k := s.seatLock[seat];
    } else if id :| id in s.rowLock {
      k := s.rowLock[id];
    } else {
      k := i;
    }
  }

  lemma {:induction false} VersionsNotEmpty(start: Store, actions: seq<Action>)
    ensures |Run(Initial(start), actions).versions| >= 1
  {
    if actions != [] {
      VersionsNotEmpty(start, actions[..|actions| - 1]);
    }
  }
}

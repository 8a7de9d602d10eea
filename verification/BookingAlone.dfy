/** A seat transaction that runs with nobody in between: what its statements come to. */
module BookingAlone {
  import opened Tables
  import opened Booking
  import opened BookingRuns

  /** n statements of transaction i that see the given version, nobody in between. */
  function Statements(s: State, i: nat, version: nat, n: nat): State {
    if n == 0 then s else Next(Statements(s, i, version, n - 1), Advance(i, version, false))
  }

  /** Transaction i has not begun, nobody holds a lock, and `version` is the current one. */
  predicate AboutToRun(s: State, i: nat, version: nat) {
    && i < |s.txns| && s.txns[i].phase.Begun? && s.seatLock == map[] && s.rowLock == map[]
    && version < |s.versions| && s.versions[version] == s.db
  }

  ghost predicate Underway(s: State, i: nat, version: nat, n: nat) {
    forall m :: 0 <= m <= n ==>
      var t := Statements(s, i, version, m); i < |t.txns| && !t.txns[i].phase.Ended?
  }

  /** It has ended as the atomic transaction does. */
  ghost predicate EndedAtomically(s: State, s': State, i: nat)
    requires i < |s.txns|
  {
    var op := s.txns[i].op;
    var r := Perform(s.db, op);
    && s'.txns == s.txns[i := s.txns[i].(phase := Ended(r.Success?))]
    && s'.db == (if r.Success? then r.value else s.db)
    && s'.versions == (if r.Success? then s.versions + [r.value] else s.versions)
    && s'.commits == (if r.Success? then s.commits + [op] else s.commits)
    && s'.seatLock == map[] && s'.rowLock == map[]
  }

  lemma AbortsAlone(s: State, i: nat, version: nat)
    requires AboutToRun(s, i, version) && Perform(s.db, s.txns[i].op).Failure?
    ensures EndedAtomically(s, End(s, i, false), i)
  {
  }

  lemma UnderwayGrows(s: State, i: nat, version: nat, n: nat)
    requires n > 0 ==> Underway(s, i, version, n - 1)
    requires var t := Statements(s, i, version, n); i < |t.txns| && !t.txns[i].phase.Ended?
    ensures Underway(s, i, version, n)
  {
  }

  /** What the first SELECT inside the transaction decides. */
  predicate PassesCheck(s: Store, op: Op) {
    match op
    case ReserveOp(_, seat) => seat in s.seats && s.seats[seat].status == Available
    case ConfirmOp(id, _) => id < |s.reservations| && s.reservations[id].status == Pending
    case ExpireOp(id, _) => id < |s.reservations|
  }

  lemma CheckAlone(s: State, i: nat, version: nat)
    requires AboutToRun(s, i, version)
    ensures Statements(s, i, version, 0) == s && Underway(s, i, version, 0)
    ensures Statements(s, i, version, 1) ==
            if PassesCheck(s.db, s.txns[i].op) then Goto(s, i, Checked) else End(s, i, false)
  {
    assert Statements(s, i, version, 0) == s;
    assert Statements(s, i, version, 1) == Next(s, Advance(i, version, false));
  }

  lemma FreeSeatIsTaken(s: State, start: Store, i: nat, version: nat)
    requires Inv(s, start) && AboutToRun(s, i, version) && s.txns[i].op.ReserveOp?
    requires Statements(s, i, version, 1) == Goto(s, i, Checked) && PassesCheck(s.db, s.txns[i].op)
    ensures var t, seatLock := s.txns[i], map[s.txns[i].op.seat := i];
            && Statements(s, i, version, 2) == Goto(s, i, SeatHeld(t.price)).(seatLock := seatLock)
            && Statements(s, i, version, 3) == Goto(s, i, Inserted(t.price)).(seatLock := seatLock)
    ensures EndedAtomically(s, Statements(s, i, version, 4), i)
  {
    var t := s.txns[i];
    assert TxnOk(s, i);
    var s2 := Statements(s, i, version, 2);
    assert s2 == Goto(s, i, SeatHeld(t.price)).(seatLock := map[t.op.seat := i]);
    var s3 := Statements(s, i, version, 3);
    assert s3 == Goto(s, i, Inserted(t.price)).(seatLock := map[t.op.seat := i]);
    assert Statements(s, i, version, 4) == Next(s3, Advance(i, version, false));
    var row := s.db.seats[t.op.seat];
    assert row.(price := t.price) == row;
  }

  lemma ReserveAlone(s: State, start: Store, i: nat, version: nat) returns (n: nat)
    requires Inv(s, start) && AboutToRun(s, i, version) && s.txns[i].op.ReserveOp?
    ensures n <= 4 && Underway(s, i, version, n) && EndedAtomically(s, Statements(s, i, version, n + 1), i)
  {
    CheckAlone(s, i, version);
    if PassesCheck(s.db, s.txns[i].op) {
      FreeSeatIsTaken(s, start, i, version);
      UnderwayGrows(s, i, version, 1);
      UnderwayGrows(s, i, version, 2);
      UnderwayGrows(s, i, version, 3);
      n := 3;
    } else {
      AbortsAlone(s, i, version);
      n := 0;
    }
  }

  lemma UpdateAlone(s: State, i: nat, version: nat)
    requires AboutToRun(s, i, version) && !s.txns[i].op.ReserveOp? && PassesCheck(s.db, s.txns[i].op)
    requires Statements(s, i, version, 1) == Goto(s, i, Checked)
    ensures var id := s.txns[i].op.id;
            Statements(s, i, version, 2) ==
            if s.db.reservations[id].status == Pending then Goto(s, i, ReservationHeld).(rowLock := map[id := i])
            else End(s, i, false)
  {
    assert Statements(s, i, version, 2) == Next(Goto(s, i, Checked), Advance(i, version, false));
  }

  lemma SettleAlone(s: State, start: Store, i: nat, version: nat) returns (n: nat)
    requires Inv(s, start) && AboutToRun(s, i, version) && !s.txns[i].op.ReserveOp?
    ensures n <= 4 && Underway(s, i, version, n) && EndedAtomically(s, Statements(s, i, version, n + 1), i)
  {
    CheckAlone(s, i, version);
    n := 0;
    if PassesCheck(s.db, s.txns[i].op) {
      UpdateAlone(s, i, version);
      UnderwayGrows(s, i, version, 1);
      n := 1;
      if s.db.reservations[s.txns[i].op.id].status == Pending {
        HoldingSettles(s, start, i, version, Statements(s, i, version, 2));
        UnderwayGrows(s, i, version, 2);
        UnderwayGrows(s, i, version, 3);
        UnderwayGrows(s, i, version, 4);
        n := 4;
      }
    }
    if n < 4 {
      AbortsAlone(s, i, version);
    }
  }

  /** From the reservation's update on, nothing stops the transaction. */
  lemma HoldingSettles(s: State, start: Store, i: nat, version: nat, held: State)
    requires Inv(s, start) && AboutToRun(s, i, version) && !s.txns[i].op.ReserveOp?
    requires var id := s.txns[i].op.id; id < |s.db.reservations| && s.db.reservations[id].status == Pending
    requires held == Statements(s, i, version, 2)
    requires held == Goto(s, i, ReservationHeld).(rowLock := map[s.txns[i].op.id := i])
    ensures !Statements(s, i, version, 3).txns[i].phase.Ended? && !Statements(s, i, version, 4).txns[i].phase.Ended?
    ensures |Statements(s, i, version, 3).txns| == |Statements(s, i, version, 4).txns| == |s.txns|
    ensures EndedAtomically(s, Statements(s, i, version, 5), i)
  {
    var t := s.txns[i];
    assert TxnOk(s, i);
    PendingSeatIsReserved(s.db, t.op.id);
    assert RowOk(s.db, s.db.reservations[t.op.id]);
    var seat := SeatOf(s, t);
    var price := s.db.seats[seat].price;
    var s3 := Statements(s, i, version, 3);
    assert s3 == Goto(held, i, SeatRead(price));
    var s4 := Statements(s, i, version, 4);
    assert s4 == Goto(held, i, SeatHeld(price)).(seatLock := map[seat := i]);
    assert Statements(s, i, version, 5) == Next(s4, Advance(i, version, false));
  }

  /** Until its end it writes nothing that others see. */
  lemma {:induction false} UnderwayWritesNothing(s: State, i: nat, version: nat, n: nat)
    requires i < |s.txns| && Underway(s, i, version, n)
    ensures Statements(s, i, version, n).db == s.db
  {
    if n > 0 {
      UnderwayWritesNothing(s, i, version, n - 1);
      assert !Statements(s, i, version, n).txns[i].phase.Ended?;
      UnendedWritesNothing(Statements(s, i, version, n - 1), i, version);
    }
  }

  lemma UnendedWritesNothing(s: State, i: nat, version: nat)
    ensures var s' := Next(s, Advance(i, version, false));
            i < |s'.txns| && !s'.txns[i].phase.Ended? ==> s'.db == s.db
  {
  }

  /** A transaction that runs alone on the current rows does in at most five statements
      what the atomic one does: it commits exactly if that succeeds, and otherwise changes
      nothing. */
  lemma AloneIsAtomic(s: State, start: Store, i: nat, version: nat) returns (n: nat)
    requires Inv(s, start) && AboutToRun(s, i, version)
    ensures n <= 4 && Underway(s, i, version, n) && EndedAtomically(s, Statements(s, i, version, n + 1), i)
  {
    if s.txns[i].op.ReserveOp? {
      n := ReserveAlone(s, start, i, version);
    } else {
      n := SettleAlone(s, start, i, version);
    }
  }
}

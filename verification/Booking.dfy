/** The seats and reservations tables, and the three transactions on them
    (reserve, confirm, expire), each one atomic. */
module Booking {
  import opened Sums
  import opened Tables

  /** A reservation's id is its position: ids are handed out in the order in
      which the inserting transactions commit, and rows are never deleted. */
  datatype Store = Store(seats: map<int, SeatRow>, reservations: seq<ReservationRow>)

  datatype Error =
    | SeatNotFound | AlreadyReserved | NotPendingReservation | ReservationNotFound
    | FailedToUpdateSeat | FailedToUpdateReservation | FailedToInsert

  function SetSeat(s: Store, seat: int, status: SeatStatus): Store
    requires seat in s.seats
  {
    s.(seats := s.seats[seat := s.seats[seat].(status := status)])
  }

  function SetReservation(s: Store, id: nat, status: ReservationStatus, paidAt: Option<Stamp>): Store
    requires id < |s.reservations|
  {
    s.(reservations := s.reservations[id := s.reservations[id].(status := status, paidAt := paidAt)])
  }

  function Reserve(s: Store, user: int, seat: int): Result<Store, Error> {
    if seat !in s.seats then Failure(SeatNotFound)
    else if s.seats[seat].status != Available then Failure(AlreadyReserved)
    else
      var row := ReservationRow(user, seat, s.seats[seat].price, Pending, None);
      Success(SetSeat(s, seat, Reserved).(reservations := s.reservations + [row]))
  }

  function Confirm(s: Store, id: nat, stamp: Stamp): Result<Store, Error> {
    if id >= |s.reservations| then Failure(ReservationNotFound)
    else if s.reservations[id].status != Pending then Failure(NotPendingReservation)
    else if s.reservations[id].seat !in s.seats then Failure(SeatNotFound)
    else if s.seats[s.reservations[id].seat].status != Reserved then Failure(FailedToUpdateSeat)
    else Success(SetSeat(SetReservation(s, id, Confirmed, Some(stamp)), s.reservations[id].seat, Sold))
  }

  /** `seat` comes with the expiry job, not from the reservation row. */
  function Expire(s: Store, id: nat, seat: int): Result<Store, Error> {
    if id >= |s.reservations| then Failure(ReservationNotFound)
    else if s.reservations[id].status != Pending then Failure(FailedToUpdateReservation)
    else if seat !in s.seats then Failure(SeatNotFound)
    else if s.seats[seat].status != Reserved then Failure(FailedToUpdateSeat)
    else Success(SetSeat(SetReservation(s, id, Expired, s.reservations[id].paidAt), seat, Available))
  }

  datatype Op =
    | ReserveOp(user: int, seat: int)
    | ConfirmOp(id: nat, stamp: Stamp)
    | ExpireOp(id: nat, seat: int)

  function Perform(s: Store, op: Op): Result<Store, Error> {
    match op
    case ReserveOp(user, seat) => Reserve(s, user, seat)
    case ConfirmOp(id, stamp) => Confirm(s, id, stamp)
    case ExpireOp(id, seat) => Expire(s, id, seat)
  }

  /** An expiry job is queued with the seat of the reservation it is for. */
  predicate JobMatches(s: Store, op: Op) {
    op.ExpireOp? && op.id < |s.reservations| ==> s.reservations[op.id].seat == op.seat
  }

  // ---------- agreement between the two tables ----------

  function IsFor(seat: int, status: ReservationStatus): ReservationRow -> int {
    (r: ReservationRow) => if r.seat == seat && r.status == status then 1 else 0
  }

  function Count(s: Store, seat: int, status: ReservationStatus): int {
    Sum(s.reservations, IsFor(seat, status))
  }

  predicate SeatAgrees(s: Store, seat: int)
    requires seat in s.seats
  {
    match s.seats[seat].status
    case Available => Count(s, seat, Pending) == 0 && Count(s, seat, Confirmed) == 0
    case Reserved => Count(s, seat, Pending) == 1 && Count(s, seat, Confirmed) == 0
    case Sold => Count(s, seat, Pending) == 0 && Count(s, seat, Confirmed) == 1
  }

  ghost predicate RowOk(s: Store, r: ReservationRow) {
    && r.seat in s.seats
    && r.price == s.seats[r.seat].price
    && (r.paidAt.Some? <==> r.status == Confirmed)
    && r.status != Canceled
  }

  ghost predicate Agreement(s: Store) {
    && (forall seat :: seat in s.seats ==> SeatAgrees(s, seat))
    && (forall id :: 0 <= id < |s.reservations| ==> RowOk(s, s.reservations[id]))
  }

  lemma CountAfterSet(s: Store, id: nat, status: ReservationStatus, paidAt: Option<Stamp>,
                      seat: int, counted: ReservationStatus)
    requires id < |s.reservations|
    ensures Count(SetReservation(s, id, status, paidAt), seat, counted)
            == Count(s, seat, counted) - IsFor(seat, counted)(s.reservations[id])
               + (if s.reservations[id].seat == seat && status == counted then 1 else 0)
  {
    SumUpdate(s.reservations, id, s.reservations[id].(status := status, paidAt := paidAt), IsFor(seat, counted));
  }

  lemma SettleKeepsAgreement(s: Store, id: nat, status: ReservationStatus, paidAt: Option<Stamp>,
                             seatStatus: SeatStatus)
    requires Agreement(s) && id < |s.reservations| && s.reservations[id].status == Pending
    requires (status == Confirmed && paidAt.Some? && seatStatus == Sold)
          || (status == Expired && paidAt.None? && seatStatus == Available)
    requires RowOk(s, s.reservations[id]) && s.seats[s.reservations[id].seat].status == Reserved
    ensures Agreement(SetSeat(SetReservation(s, id, status, paidAt), s.reservations[id].seat, seatStatus))
  {
    var s' := SetSeat(SetReservation(s, id, status, paidAt), s.reservations[id].seat, seatStatus);
    forall seat | seat in s'.seats ensures SeatAgrees(s', seat) {
      assert SeatAgrees(s, seat);
      CountAfterSet(s, id, status, paidAt, seat, Pending);
      CountAfterSet(s, id, status, paidAt, seat, Confirmed);
    }
    forall k | 0 <= k < |s'.reservations| ensures RowOk(s', s'.reservations[k]) {
      assert RowOk(s, s.reservations[k]);
    }
  }

  lemma ReserveKeepsAgreement(s: Store, user: int, seat: int)
    requires Agreement(s) && Reserve(s, user, seat).Success?
    ensures Agreement(Reserve(s, user, seat).value)
  {
    var s' := Reserve(s, user, seat).value;
    var row := s'.reservations[|s.reservations|];
    forall k | k in s'.seats ensures SeatAgrees(s', k) {
      assert SeatAgrees(s, k);
      SumAppend(s.reservations, row, IsFor(k, Pending));
      SumAppend(s.reservations, row, IsFor(k, Confirmed));
    }
    forall k | 0 <= k < |s'.reservations| ensures RowOk(s', s'.reservations[k]) {
      if k < |s.reservations| {
        assert RowOk(s, s.reservations[k]);
      }
    }
  }

  /** Every committed transaction leaves seats and reservations in agreement. */
  lemma PerformKeepsAgreement(s: Store, op: Op)
    requires Agreement(s) && JobMatches(s, op) && Perform(s, op).Success?
    ensures Agreement(Perform(s, op).value)
  {
    match op
    case ReserveOp(user, seat) => ReserveKeepsAgreement(s, user, seat);
    case ConfirmOp(id, stamp) =>
      assert RowOk(s, s.reservations[id]);
      SettleKeepsAgreement(s, id, Confirmed, Some(stamp), Sold);
    case ExpireOp(id, seat) =>
      assert RowOk(s, s.reservations[id]);
      SettleKeepsAgreement(s, id, Expired, None, Available);
  }

  /** A PENDING reservation's seat is RESERVED: the seat update that follows a
      successful reservation update cannot fail. */
  lemma PendingSeatIsReserved(s: Store, id: nat)
    requires Agreement(s) && id < |s.reservations| && s.reservations[id].status == Pending
    ensures s.reservations[id].seat in s.seats && s.seats[s.reservations[id].seat].status == Reserved
  {
    var seat := s.reservations[id].seat;
    assert RowOk(s, s.reservations[id]);
    SumAtLeast(s.reservations, id, IsFor(seat, Pending));
    assert SeatAgrees(s, seat);
  }

  /** No two PENDING reservations share a seat, so whoever holds one of them
      keeps everybody else away from its seat. */
  lemma OnePendingPerSeat(s: Store, i: nat, j: nat)
    requires Agreement(s) && i < |s.reservations| && j < |s.reservations|
    requires s.reservations[i].status == Pending && s.reservations[j].status == Pending
    requires s.reservations[i].seat == s.reservations[j].seat
    ensures i == j
  {
    var seat := s.reservations[i].seat;
    assert RowOk(s, s.reservations[i]);
    assert SeatAgrees(s, seat);
    if i < j {
      SumAtLeastTwo(s.reservations, i, j, IsFor(seat, Pending));
    } else if j < i {
      SumAtLeastTwo(s.reservations, j, i, IsFor(seat, Pending));
    }
  }

  /** Exactly when the transactions commit, in a state in agreement: the seat
      checks inside confirm and expire never decide anything. */
  lemma CommitsExactlyWhen(s: Store, op: Op)
    requires Agreement(s) && JobMatches(s, op)
    ensures Perform(s, op).Success? <==>
            match op
            case ReserveOp(_, seat) =>
              seat in s.seats && Count(s, seat, Pending) == 0 && Count(s, seat, Confirmed) == 0
            case ConfirmOp(id, _) => id < |s.reservations| && s.reservations[id].status == Pending
            case ExpireOp(id, _) => id < |s.reservations| && s.reservations[id].status == Pending
  {
    if op.ReserveOp? {
      assert op.seat in s.seats ==> SeatAgrees(s, op.seat);
    } else if op.id < |s.reservations| && s.reservations[op.id].status == Pending {
      PendingSeatIsReserved(s, op.id);
    }
  }

  // ---------- what a commit writes ----------

  /** A seat that was AVAILABLE is RESERVED, by a new PENDING reservation at its price. */
  ghost predicate SeatTaken(before: Store, after: Store, user: int, seat: int) {
    && seat in before.seats && before.seats[seat].status == Available
    && after.seats == before.seats[seat := before.seats[seat].(status := Reserved)]
    && after.reservations == before.reservations + [ReservationRow(user, seat, before.seats[seat].price, Pending, None)]
  }

  /** A PENDING reservation and its RESERVED seat move on together. */
  ghost predicate Settled(before: Store, after: Store, id: nat, seat: int, status: ReservationStatus,
                          paidAt: Option<Stamp>, seatStatus: SeatStatus) {
    && id < |before.reservations| && before.reservations[id].status == Pending
    && seat in before.seats && before.seats[seat].status == Reserved
    && after.reservations == before.reservations[id := before.reservations[id].(status := status, paidAt := paidAt)]
    && after.seats == before.seats[seat := before.seats[seat].(status := seatStatus)]
  }

  /** The reservation is PENDING and its seat RESERVED. */
  predicate Confirmable(s: Store, id: nat) {
    && id < |s.reservations| && s.reservations[id].status == Pending
    && s.reservations[id].seat in s.seats && s.seats[s.reservations[id].seat].status == Reserved
  }

  predicate SeatFree(s: Store, seat: int) {
    seat in s.seats && s.seats[seat].status == Available
  }

  /** What each transaction needs and what it writes, row by row. */
  lemma CommitWritesExactly(s: Store, op: Op)
    ensures match op
            case ReserveOp(user, seat) =>
              && (Perform(s, op).Success? <==> SeatFree(s, seat))
              && (Perform(s, op).Success? ==> SeatTaken(s, Perform(s, op).value, user, seat))
            case ConfirmOp(id, stamp) =>
              && (Perform(s, op).Success? <==> Confirmable(s, id))
              && (Perform(s, op).Success? ==>
                    Settled(s, Perform(s, op).value, id, s.reservations[id].seat, Confirmed, Some(stamp), Sold))
            case ExpireOp(id, seat) =>
              && (Perform(s, op).Success? <==>
                    && id < |s.reservations| && s.reservations[id].status == Pending
                    && seat in s.seats && s.seats[seat].status == Reserved)
              && (Perform(s, op).Success? ==>
                    Settled(s, Perform(s, op).value, id, seat, Expired, s.reservations[id].paidAt, Available))
  {
  }

  // ---------- runs of committed transactions ----------

  function Replay(s: Store, ops: seq<Op>): Result<Store, Error> {
    if ops == [] then Success(s) else
      match Replay(s, ops[..|ops| - 1])
      case Success(before) => Perform(before, ops[|ops| - 1])
      case Failure(e) => Failure(e)
  }

  lemma ReplayAppend(s: Store, ops: seq<Op>, op: Op)
    requires Replay(s, ops).Success?
    ensures Replay(s, ops + [op]) == Perform(Replay(s, ops).value, op)
  {
    assert (ops + [op])[..|ops|] == ops;
  }

  function Settles(id: nat): Op -> int {
    (op: Op) => if (op.ConfirmOp? || op.ExpireOp?) && op.id == id then 1 else 0
  }

  /** The confirm/expire race: over every run of committed transactions, each
      reservation is settled exactly once if it is no longer PENDING and not at
      all while it is, so confirm and expire never both commit. */
  lemma {:induction false} SettledAtMostOnce(s: Store, ops: seq<Op>, id: nat)
    requires s.reservations == [] && Replay(s, ops).Success?
    ensures var t := Replay(s, ops).value;
            Sum(ops, Settles(id)) ==
            if id < |t.reservations| && t.reservations[id].status != Pending then 1 else 0
  {
    if ops != [] {
      SettledAtMostOnce(s, ops[..|ops| - 1], id);
    }
  }

  /** CONFIRMED and EXPIRED are absorbing: a settled row never changes again,
      and no row's owner, seat or price ever changes. */
  lemma PerformIsMonotone(s: Store, op: Op, id: nat)
    requires Perform(s, op).Success? && id < |s.reservations|
    ensures var t := Perform(s, op).value;
            && id < |t.reservations|
            && t.reservations[id].(status := Pending, paidAt := None)
               == s.reservations[id].(status := Pending, paidAt := None)
            && (s.reservations[id].status != Pending ==> t.reservations[id] == s.reservations[id])
  {
  }

  // ---------- the UNIQUE index on reservations.seat_id ----------

  /** The insert obeys the unique index: no seat ever had a reservation. */
  predicate RespectsUnique(s: Store, op: Op) {
    op.ReserveOp? ==> forall r :: r in s.reservations ==> r.seat != op.seat
  }

  /** Under that index a reservation goes through exactly for a seat that never
      had one; the seat's AVAILABLE status alone is not enough. */
  lemma UniqueReserveExactlyWhen(s: Store, user: int, seat: int)
    requires Agreement(s)
    ensures Reserve(s, user, seat).Success? && RespectsUnique(s, ReserveOp(user, seat))
            <==> seat in s.seats && forall r :: r in s.reservations ==> r.seat != seat
  {
    if seat in s.seats && forall r :: r in s.reservations ==> r.seat != seat {
      SumIsZero(s.reservations, IsFor(seat, Pending));
      SumIsZero(s.reservations, IsFor(seat, Confirmed));
      assert SeatAgrees(s, seat);
    }
  }

  ghost predicate AllRespectUnique(s: Store, ops: seq<Op>)
  {
    ops != [] ==>
      && AllRespectUnique(s, ops[..|ops| - 1])
      && match Replay(s, ops[..|ops| - 1])
         case Success(before) => RespectsUnique(before, ops[|ops| - 1])
         case Failure(_) => true
  }

  /** Reservation `id` is EXPIRED and its seat free. */
  ghost predicate Dead(s: Store, id: nat) {
    && Agreement(s) && id < |s.reservations| && s.reservations[id].status == Expired
    && s.reservations[id].seat in s.seats && s.seats[s.reservations[id].seat].status == Available
  }

  /** Every committed expire leaves its reservation dead. */
  lemma ExpireKills(s: Store, id: nat, seat: int)
    requires Agreement(s) && JobMatches(s, ExpireOp(id, seat)) && Expire(s, id, seat).Success?
    ensures Dead(Expire(s, id, seat).value, id)
  {
    PerformKeepsAgreement(s, ExpireOp(id, seat));
  }

  lemma DeadStaysDead(s: Store, op: Op, id: nat)
    requires Dead(s, id) && JobMatches(s, op) && RespectsUnique(s, op) && Perform(s, op).Success?
    ensures Dead(Perform(s, op).value, id) && Perform(s, op).value.reservations[id] == s.reservations[id]
  {
    PerformKeepsAgreement(s, op);
    assert s.reservations[id] in s.reservations;
    if !op.ReserveOp? {
      PendingSeatIsReserved(s, op.id);
    }
  }

  /** Under that index an expired seat goes back to AVAILABLE but can never be
      reserved again: it stays AVAILABLE through every later transaction. */
  lemma {:induction false} ExpiredSeatIsNeverReservedAgain(s: Store, ops: seq<Op>, id: nat)
    requires Dead(s, id)
    requires Replay(s, ops).Success? && AllRespectUnique(s, ops)
    requires forall k :: 0 <= k < |ops| ==>
               (Replay(s, ops[..k]).Success? ==> JobMatches(Replay(s, ops[..k]).value, ops[k]))
    ensures Dead(Replay(s, ops).value, id) && Replay(s, ops).value.reservations[id] == s.reservations[id]
  {
    if ops != [] {
      var n := |ops| - 1;
      var shorter := ops[..n];
      forall k | 0 <= k < |shorter| && Replay(s, shorter[..k]).Success?
        ensures JobMatches(Replay(s, shorter[..k]).value, shorter[k])
      {
        assert shorter[..k] == ops[..k];
      }
      ExpiredSeatIsNeverReservedAgain(s, shorter, id);
      DeadStaysDead(Replay(s, shorter).value, ops[n], id);
    }
  }
}

/** The shared stores (database, Redis, delayed jobs, Kafka topics) as one object,
    and the repositories over its tables. */
module Backend {
  import opened Tables
  import opened Entities
  import Saga
  import P = Points
  import B = Booking

  class Stores {
    var points: P.Store
    var booking: B.Store
    var payments: map<TxId, PaymentRow>
    var tokens: map<Token, Claim>
    var jobs: set<(nat, int)>
    var tasks: seq<Saga.Task>
    ghost var audit: seq<Saga.Audit>

    ghost function View(): Saga.State
      reads this
    {
      Saga.State(points, booking, payments, tokens, jobs, tasks, audit)
    }

    constructor (seats: map<int, SeatRow>)
      ensures View() == Saga.Initial(seats)
    {
      points, booking := P.EMPTY, B.Store(seats, []);
      payments, tokens, jobs, tasks, audit := map[], map[], {}, [], [];
    }

    /** Slot i goes on as t. */
    method Put(i: nat, t: Saga.Task)
      requires i < |tasks|
      modifies this`tasks
      ensures tasks == old(tasks)[i := t]
    {
      tasks := tasks[i := t];
    }
  }

  class UserPointRepository {
    const db: Stores

    constructor (db: Stores)
      ensures this.db == db
    {
      this.db := db;
    }

    /** The user id is unique: a second insert fails. */
    method Create(userId: int) returns (userPoint: UserPoint?)
      modifies db`points
      ensures userPoint == null <==> userId in old(db.points).balances
      ensures userPoint == null ==> db.points == old(db.points)
      ensures userPoint != null ==>
                && db.points == old(db.points).(balances := old(db.points).balances[userId := 0])
                && fresh(userPoint) && userPoint.userId == userId && userPoint.balance == 0
    {
      if userId in db.points.balances {
        return null;
      }
      db.points := db.points.(balances := db.points.balances[userId := 0]);
      userPoint := new UserPoint(userId, 0);
    }

    method FindOne(userId: int) returns (userPoint: UserPoint?)
      ensures userPoint == null <==> userId !in db.points.balances
      ensures userPoint != null ==>
                fresh(userPoint) && userPoint.userId == userId && userPoint.balance == db.points.balances[userId]
    {
      if userId !in db.points.balances {
        return null;
      }
      userPoint := new UserPoint(userId, db.points.balances[userId]);
    }

    /** Reads like FindOne; the row lock it takes is the subject of PointRuns. */
    method SelectForUpdate(userId: int) returns (userPoint: UserPoint?)
      ensures userPoint == null <==> userId !in db.points.balances
      ensures userPoint != null ==>
                fresh(userPoint) && userPoint.userId == userId && userPoint.balance == db.points.balances[userId]
    {
      userPoint := FindOne(userId);
    }

    /** Writes the absolute balance; fails when the row is missing. */
    method Update(userPoint: UserPoint) returns (ok: bool)
      modifies db`points
      ensures ok == (userPoint.userId in old(db.points).balances)
      ensures db.points ==
              if ok then old(db.points).(balances := old(db.points).balances[userPoint.userId := userPoint.balance])
              else old(db.points)
    {
      ok := userPoint.userId in db.points.balances;
      if ok {
        db.points := db.points.(balances := db.points.balances[userPoint.userId := userPoint.balance]);
      }
    }
  }

  class PointHistoryRepository {
    const db: Stores

    constructor (db: Stores)
      ensures this.db == db
    {
      this.db := db;
    }

    method Create(userId: int, kind: HistoryKind, amount: int, tx: Option<TxId>)
      modifies db`points
      ensures db.points == old(db.points).(history := old(db.points).history + [HistoryRow(userId, kind, amount, tx)])
    {
      db.points := db.points.(history := db.points.history + [HistoryRow(userId, kind, amount, tx)]);
    }
  }

  class PaymentTransactionRepository {
    const db: Stores

    constructor (db: Stores)
      ensures this.db == db
    {
      this.db := db;
    }

    /** The id is unique: a second insert fails, as any insert may. */
    method Create(tx: TxId, user: int, seat: int, status: PaymentStatus, fails: bool) returns (ok: bool)
      modifies db`payments
      ensures ok == (tx !in old(db.payments) && !fails)
      ensures db.payments == if ok then old(db.payments)[tx := PaymentRow(user, seat, status, 0)] else old(db.payments)
    {
      ok := tx !in db.payments && !fails;
      if ok {
        db.payments := db.payments[tx := PaymentRow(user, seat, status, 0)];
      }
    }

    method FindByPaymentTxId(tx: TxId) returns (row: Option<PaymentRow>)
      ensures row == if tx in db.payments then Some(db.payments[tx]) else None
    {
      row := if tx in db.payments then Some(db.payments[tx]) else None;
    }

    /** Fails when there is no such row, as any update may; keeps the retry count
        unless one is given. */
    method UpdateStatus(tx: TxId, status: PaymentStatus, retryCount: Option<nat>, fails: bool) returns (ok: bool)
      modifies db`payments
      ensures ok == (tx in old(db.payments) && !fails)
      ensures !ok ==> db.payments == old(db.payments)
      ensures ok ==> var row := old(db.payments)[tx];
                     db.payments == old(db.payments)[tx := row.(status := status,
                       retryCount := if retryCount.Some? then retryCount.value else row.retryCount)]
    {
      ok := tx in db.payments && !fails;
      if ok {
        var row := db.payments[tx].(status := status);
        if retryCount.Some? {
          row := row.(retryCount := retryCount.value);
        }
        db.payments := db.payments[tx := row];
      }
    }
  }

  class SeatRepository {
    const db: Stores

    constructor (db: Stores)
      ensures this.db == db
    {
      this.db := db;
    }

    /** null stands for the error it throws. */
    method FindOne(seatId: int) returns (seat: Seat?)
      ensures seat == null <==> seatId !in db.booking.seats
      ensures seat != null ==>
                && fresh(seat) && seat.id == seatId
                && SeatRow(seat.schedule, seat.price, seat.status) == db.booking.seats[seatId]
    {
      if seatId !in db.booking.seats {
        return null;
      }
      seat := new Seat(seatId, db.booking.seats[seatId]);
    }

    /** Writes status and price where the id and the expected status match. */
    method Update(seat: Seat, expected: SeatStatus) returns (ok: bool)
      modifies db`booking
      ensures ok == (seat.id in old(db.booking).seats && old(db.booking).seats[seat.id].status == expected)
      ensures db.booking ==
              if ok then old(db.booking).(seats := old(db.booking).seats[
                seat.id := old(db.booking).seats[seat.id].(status := seat.status, price := seat.price)])
              else old(db.booking)
    {
      ok := seat.id in db.booking.seats && db.booking.seats[seat.id].status == expected;
      if ok {
        var row := db.booking.seats[seat.id].(status := seat.status, price := seat.price);
        db.booking := db.booking.(seats := db.booking.seats[seat.id := row]);
      }
    }
  }

  /** The row an entity stands for. */
  function RowOf(r: Reservation): ReservationRow
    reads r
  {
    ReservationRow(r.user, r.seat, r.price, r.status, r.paidAt)
  }

  class ReservationRepository {
    const db: Stores

    constructor (db: Stores)
      ensures this.db == db
    {
      this.db := db;
    }

    /** Inserts the row and returns its id; may fail, on the unique seat for one. */
    method Create(reservation: Reservation, fails: bool) returns (id: Option<nat>)
      modifies db`booking
      ensures id == if fails then None else Some(|old(db.booking).reservations|)
      ensures db.booking ==
              if fails then old(db.booking)
              else old(db.booking).(reservations := old(db.booking).reservations + [RowOf(reservation)])
    {
      if fails {
        return None;
      }
      id := Some(|db.booking.reservations|);
      db.booking := db.booking.(reservations := db.booking.reservations + [RowOf(reservation)]);
    }

    method FindOne(id: nat) returns (reservation: Reservation?)
      ensures reservation == null <==> id >= |db.booking.reservations|
      ensures reservation != null ==>
                fresh(reservation) && reservation.id == id && RowOf(reservation) == db.booking.reservations[id]
    {
      if id >= |db.booking.reservations| {
        return null;
      }
      reservation := new Reservation.FromRow(id, db.booking.reservations[id]);
    }

    /** Writes status and paidAt where the id and the expected status match. */
    method Update(reservation: Reservation, expected: ReservationStatus) returns (ok: bool)
      modifies db`booking
      ensures var before, id := old(db.booking).reservations, reservation.id;
              ok == (id < |before| && before[id].status == expected)
      ensures db.booking ==
              if ok then B.SetReservation(old(db.booking), reservation.id, reservation.status, reservation.paidAt)
              else old(db.booking)
    {
      ok := reservation.id < |db.booking.reservations| && db.booking.reservations[reservation.id].status == expected;
      if ok {
        var row := db.booking.reservations[reservation.id].(status := reservation.status, paidAt := reservation.paidAt);
        db.booking := db.booking.(reservations := db.booking.reservations[reservation.id := row]);
      }
    }
  }
}

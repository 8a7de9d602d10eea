/** The domain objects, updated in place behind their guards. */
module Entities {
  import opened Tables
  import P = Points

  class UserPoint {
    const userId: int
    var balance: int

    constructor (userId: int, balance: int)
      ensures this.userId == userId && this.balance == balance
    {
      this.userId, this.balance := userId, balance;
    }

    method Charge(amount: int) returns (error: Option<P.Error>)
      modifies this
      ensures error == if amount > P.MAX_CHARGE_AMOUNT then Some(P.ExceedMaxChargeAmount) else None
      ensures balance == if error.None? then old(balance) + amount else old(balance)
    {
      if amount > P.MAX_CHARGE_AMOUNT {
        return Some(P.ExceedMaxChargeAmount);
      }
      balance := balance + amount;
      error := None;
    }

    method Use(amount: int) returns (error: Option<P.Error>)
      modifies this
      ensures error == if old(balance) < amount then Some(P.NotEnoughPoint) else None
      ensures balance == if error.None? then old(balance) - amount else old(balance)
    {
      if balance < amount {
        return Some(P.NotEnoughPoint);
      }
      balance := balance - amount;
      error := None;
    }

    method Refund(amount: int)
      modifies this
      ensures balance == old(balance) + amount
    {
      balance := balance + amount;
    }
  }

  class Seat {
    const id: int
    const schedule: nat
    const price: int
    var status: SeatStatus

    constructor (id: int, row: SeatRow)
      ensures this.id == id && schedule == row.schedule && price == row.price && status == row.status
    {
      this.id, schedule, price, status := id, row.schedule, row.price, row.status;
    }

    method SetReserved()
      modifies this
      ensures status == Reserved
    {
      status := Reserved;
    }

    method SetSold()
      modifies this
      ensures status == Sold
    {
      status := Sold;
    }

    method SetAvailable()
      modifies this
      ensures status == Available
    {
      status := Available;
    }
  }

  class Reservation {
    const id: nat
    const user: int
    const seat: int
    const price: int
    var status: ReservationStatus
    var paidAt: Option<Stamp>

    /** A reservation about to be inserted: PENDING, no id yet. */
    constructor New(user: int, seat: int, price: int)
      ensures this.user == user && this.seat == seat && this.price == price
      ensures status == Pending && paidAt == None
    {
      id := 0;
      this.user, this.seat, this.price := user, seat, price;
      status, paidAt := Pending, None;
    }

    constructor FromRow(id: nat, row: ReservationRow)
      ensures this.id == id && user == row.user && seat == row.seat && price == row.price
      ensures status == row.status && paidAt == row.paidAt
    {
      this.id := id;
      user, seat, price, status, paidAt := row.user, row.seat, row.price, row.status, row.paidAt;
    }

    method SetConfirmed(now: int, tx: TxId)
      modifies this
      ensures status == Confirmed && paidAt == Some(Stamp(now, tx))
    {
      status, paidAt := Confirmed, Some(Stamp(now, tx));
    }

    method SetExpired()
      modifies this
      ensures status == Expired && paidAt == old(paidAt)
    {
      status := Expired;
    }
  }
}

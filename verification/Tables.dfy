/** The rows of the relational schema, and the identifiers they share. */
module Tables {
  datatype Option<+T> = None | Some(value: T)

  /** A sequence of at most one element. */
  function AsSeq<T>(o: Option<T>): seq<T> {
    if o.Some? then [o.value] else []
  }

  datatype Result<+T, +E> = Success(value: T) | Failure(error: E)

  /** An opaque unique identifier (a UUID in the program). */
  type TxId = string

  /** An opaque signed token. */
  type Token = string

  /** What a payment token was signed with. `reservation` is auxiliary: the reservation
      it was issued for; the token itself names only the user and the seat. */
  datatype Claim = Claim(user: int, seat: int, reservation: nat)

  datatype SeatStatus = Available | Reserved | Sold

  datatype ReservationStatus = Pending | Confirmed | Expired | Canceled

  datatype PaymentStatus = PaymentPending | PaymentSuccess | PaymentFailure | PaymentRetrying | PaymentCancel

  datatype SeatRow = SeatRow(schedule: nat, price: int, status: SeatStatus)

  /** When a reservation was paid. `tx` is auxiliary: the payment whose
      confirmation wrote the row; the table has no such column. */
  datatype Stamp = Stamp(at: int, tx: TxId)

  datatype ReservationRow = ReservationRow(user: int, seat: int, price: int,
                                           status: ReservationStatus, paidAt: Option<Stamp>)

  datatype PaymentRow = PaymentRow(user: int, seat: int, status: PaymentStatus, retryCount: nat)

  datatype HistoryKind = Charge | Use | Refund

  /** A row of the point history. `tx` is auxiliary: the payment on whose
      behalf the row was written, if any; the table has no such column. */
  datatype HistoryRow = HistoryRow(user: int, kind: HistoryKind, amount: int, tx: Option<TxId>)
}

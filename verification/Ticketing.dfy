/** The reservation service and the expiry worker, statement by statement, each
    proved to take the saga's steps. */
module Ticketing {
  import opened Tables
  import opened Entities
  import opened Backend
  import opened Saga
  import B = Booking
  import Queue
  import SortedSets
  import Sellout

  /** What goes wrong during one temporaryReserve. The last four are errors after
      the reservation committed: releasing the lock or writing the cache, issuing the
      payment token, retiring the queue token, queueing the expiry job. */
  datatype Env = Env(lockGranted: bool, insertFails: bool, commitFails: bool,
                     cacheFails: bool, tokenFails: bool, retireFails: bool, jobFails: bool)

  /** The schedule whose seat is reserved. */
  function ScheduleOf(s: B.Store, id: nat): nat
    requires id < |s.reservations| && s.reservations[id].seat in s.seats
  {
    s.seats[s.reservations[id].seat].schedule
  }

  /** Who is active once as many waiting tokens as fit have been promoted. */
  function Admitted(waiting: SortedSets.SortedSet, active: SortedSets.SortedSet, maxCount: nat): set<Token> {
    var n := Queue.Promotions(waiting, SortedSets.Members(active), maxCount);
    SortedSets.Members(active) + SortedSets.Members(waiting[..n])
  }

  /** The reservation does not commit. */
  predicate ReserveFails(env: Env) {
    !env.lockGranted || env.insertFails || env.commitFails
  }

  /** Its token is not issued, or the queue token not retired. */
  predicate IssueFails(env: Env) {
    env.cacheFails || env.tokenFails || env.retireFails
  }

  /** The token has left the queue if it was retired; nobody else has. */
  ghost predicate Retired(before: SortedSets.SortedSet, after: SortedSets.SortedSet, token: Token, retired: bool) {
    SortedSets.Members(after) == SortedSets.Members(before) - (if retired then {token} else {})
  }

  /** What an admitted caller is told. */
  function Verdict(s: B.Store, seat: int, env: Env): (r: Result<nat, ReserveError>)
    ensures r.Success? <==> B.SeatFree(s, seat) && !ReserveFails(env) && !IssueFails(env) && !env.jobFails
    ensures r.Success? ==> r.value == |s.reservations|
    ensures r.Failure? ==> r.error != InvalidQueueToken
    ensures r == Failure(SeatMissing) <==> seat !in s.seats
    ensures r == Failure(FailedToQueueJob) <==>
            B.SeatFree(s, seat) && !ReserveFails(env) && !IssueFails(env) && env.jobFails
  {
    if seat !in s.seats then Failure(SeatMissing)
    else if !B.SeatFree(s, seat) || ReserveFails(env) || IssueFails(env) then Failure(FailedToAcquireLock)
    else if env.jobFails then Failure(FailedToQueueJob)
    else Success(|s.reservations|)
  }

  /** The queues as the check of the token found them, and the time after it. */
  datatype Queues = Queues(waiting: SortedSets.SortedSet, active: SortedSets.SortedSet, clock: nat)

  /** The user's own token, decoded in time, is active only, and its session was not over
      at `seen`. */
  predicate MayReserve(q: Queues, user: int, token: Token, signed: Option<Queue.QueueClaim>, seen: nat) {
    && Queue.Decoded(signed, q.clock).Some? && signed.value.user == user
    && token !in SortedSets.Members(q.waiting) && token in SortedSets.Members(q.active)
    && SortedSets.Score(q.active, token) + Queue.SESSION_MS > seen
  }

  datatype ReserveError = InvalidQueueToken | SeatMissing | FailedToAcquireLock | FailedToQueueJob

  /** The saga's step for a reservation attempt in the given circumstances. */
  function ReserveStep(userId: int, seatId: int, paymentToken: Token, env: Env): Action {
    Action.Reserve(userId, seatId, paymentToken, !env.lockGranted || env.insertFails || env.commitFails,
                   !env.cacheFails && !env.tokenFails, !env.retireFails && !env.jobFails)
  }

  class ReservationService {
    const db: Stores
    const seats: SeatRepository
    const reservations: ReservationRepository
    const queue: Queue.QueueRankingService
    const ranking: Sellout.SelloutRankingService

    constructor (db: Stores, queue: Queue.QueueRankingService, ranking: Sellout.SelloutRankingService)
      ensures this.db == db && this.queue == queue && this.ranking == ranking && Wired()
    {
      this.db, this.queue, this.ranking := db, queue, ranking;
      seats := new SeatRepository(db);
      reservations := new ReservationRepository(db);
    }

    predicate Wired() {
      seats.db == db && reservations.db == db
    }

    /** One transaction: check the seat, update it where it is still AVAILABLE, insert
        the reservation; an error anywhere undoes all of it. */
    method ReserveWithOptimisticLock(seat: Seat, reservation: Reservation, insertFails: bool, commitFails: bool)
      returns (r: Result<nat, B.Error>)
      requires Wired() && seat.status == Reserved
      requires seat.id in db.booking.seats && seat.price == db.booking.seats[seat.id].price
      requires reservation.seat == seat.id && reservation.price == seat.price
      requires reservation.status == Pending && reservation.paidAt == None
      modifies db`booking
      ensures match B.Reserve(old(db.booking), reservation.user, seat.id)
              case Success(reserved) =>
                if insertFails || commitFails then db.booking == old(db.booking) && r == Failure(B.FailedToInsert)
                else db.booking == reserved && r == Success(|old(db.booking).reservations|)
              case Failure(e) => db.booking == old(db.booking) && r == Failure(e)
      ensures r.Success? <==> old(db.booking).seats[seat.id].status == Available && !insertFails && !commitFails
      ensures r.Success? ==>
                && B.SeatTaken(old(db.booking), db.booking, reservation.user, seat.id)
                && r.value == |old(db.booking).reservations|
    {
      var begin := db.booking;
      var seatBefore := seats.FindOne(seat.id);
      if seatBefore == null {
        return Failure(B.SeatNotFound);
      }
      if seatBefore.status != Available {
        return Failure(B.AlreadyReserved);
      }
      var updated := seats.Update(seat, Available);
      if !updated {
        return Failure(B.FailedToUpdateSeat);
      }
      var id := reservations.Create(reservation, insertFails);
      if id.None? || commitFails {
        db.booking := begin;
        return Failure(B.FailedToInsert);
      }
      r := Success(id.value);
    }

    /** The body of the confirming transaction: reservation first, then seat. On an
        error the caller's transaction undoes what was written. */
    method ConfirmWithOptimisticLock(reservationId: nat, now: int, tx: TxId)
      returns (error: Option<B.Error>, seat: Seat?)
      requires Wired()
      modifies db`booking
      ensures match B.Confirm(old(db.booking), reservationId, Stamp(now, tx))
              case Success(confirmed) =>
                && error == None && db.booking == confirmed
                && seat != null && fresh(seat)
                && seat.schedule == ScheduleOf(old(db.booking), reservationId)
              case Failure(e) => error == Some(e)
      ensures error == None <==> B.Confirmable(old(db.booking), reservationId)
      ensures error == None ==>
                B.Settled(old(db.booking), db.booking, reservationId, old(db.booking).reservations[reservationId].seat,
                          Confirmed, Some(Stamp(now, tx)), Sold)
    {
      seat := null;
      var reservation := reservations.FindOne(reservationId);
      if reservation == null {
        return Some(B.ReservationNotFound), null;
      }
      if reservation.status != Pending {
        return Some(B.NotPendingReservation), null;
      }
      reservation.SetConfirmed(now, tx);
      var updated := reservations.Update(reservation, Pending);
      if !updated {
        return Some(B.FailedToUpdateReservation), null;
      }
      seat := seats.FindOne(reservation.seat);
      if seat == null {
        return Some(B.SeatNotFound), null;
      }
      seat.SetSold();
      updated := seats.Update(seat, Reserved);
      if !updated {
        return Some(B.FailedToUpdateSeat), null;
      }
      error := None;
    }

    /** The transaction around it: the confirmed seat, or null and nothing is changed. */
    method ConfirmInTransaction(reservationId: nat, now: int, tx: TxId, fails: bool) returns (seat: Seat?)
      requires Wired()
      modifies db`booking
      ensures seat != null <==> !fails && B.Confirmable(old(db.booking), reservationId)
      ensures seat == null ==>
                && db.booking == old(db.booking)
                && (fails || B.Confirm(old(db.booking), reservationId, Stamp(now, tx)).Failure?)
      ensures seat != null ==>
                && B.Settled(old(db.booking), db.booking, reservationId,
                             old(db.booking).reservations[reservationId].seat, Confirmed, Some(Stamp(now, tx)), Sold)
                && B.Confirm(old(db.booking), reservationId, Stamp(now, tx)) == Success(db.booking)
                && seat.schedule == ScheduleOf(old(db.booking), reservationId)
    {
      var begin := db.booking;
      var error;
      error, seat := ConfirmWithOptimisticLock(reservationId, now, tx);
      if error.Some? || fails {
        db.booking := begin;
        seat := null;
      }
    }

    /** payment.success: confirm in a transaction, then count the sale; any error,
        even one raised after the commit, publishes reservation.failure. */
    method ConfirmReservation(i: nat, now: int, fails: bool, outage: Sellout.Outage)
      requires Wired() && ranking.Valid()
      requires i < |db.tasks| && db.tasks[i].SuccessEvent?
      modifies db, ranking
      ensures ranking.Valid() && ranking.totalSeats == old(ranking.totalSeats)
      ensures ranking.sellingStart == old(ranking.sellingStart)
      ensures db.View() == HandleSuccess(old(db.View()), i, fails, outage != Sellout.NoOutage, now)
      ensures var p := old(db.tasks)[i].p;
              if !fails && B.Confirmable(old(db.booking), p.reservation) then
                var k := ScheduleOf(old(db.booking), p.reservation);
                && B.Settled(old(db.booking), db.booking, p.reservation,
                             old(db.booking).reservations[p.reservation].seat, Confirmed, Some(Stamp(now, p.tx)), Sold)
                && Sellout.RankingUpdated(old(ranking.bookedCount), ranking.bookedCount, ranking.totalSeats,
                                          ranking.sellingStart, old(ranking.ranking), ranking.ranking, k, now, outage)
              else
                && db.booking == old(db.booking)
                && ranking.bookedCount == old(ranking.bookedCount) && ranking.ranking == old(ranking.ranking)
    {
      var p := db.tasks[i].p;
      var seat := ConfirmInTransaction(p.reservation, now, p.tx, fails);
      if seat == null {
        db.Put(i, ReservationFailureEvent(p));
        return;
      }
      var ranked := ranking.UpdateRanking(seat.schedule, now, outage);
      if !ranked {
        db.audit := db.audit + [Gifted(p.tx, p.amount)];
        db.Put(i, ReservationFailureEvent(p));
        return;
      }
      db.Put(i, Done(p));
    }

    /** The seat read before the lock supplies the price; then the transaction, under
        the seat's lock, which is tried once. */
    method ReserveUnderLock(userId: int, seatId: int, env: Env) returns (r: Result<nat, ReserveError>)
      requires Wired()
      modifies db`booking
      ensures var reserved := B.Reserve(old(db.booking), userId, seatId);
              if reserved.Success? && env.lockGranted && !env.insertFails && !env.commitFails
              then db.booking == reserved.value && r == Success(|old(db.booking).reservations|)
              else db.booking == old(db.booking) && r.Failure? && r.error != InvalidQueueToken
      ensures r.Success? <==> B.SeatFree(old(db.booking), seatId) && !ReserveFails(env)
      ensures r.Success? ==>
                B.SeatTaken(old(db.booking), db.booking, userId, seatId) && r.value == |old(db.booking).reservations|
      ensures r.Failure? ==>
                r.error == if seatId !in old(db.booking).seats then SeatMissing else FailedToAcquireLock
    {
      var seat := seats.FindOne(seatId);
      if seat == null {
        return Failure(SeatMissing);
      }
      seat.SetReserved();
      var reservation := new Reservation.New(userId, seat.id, seat.price);
      if !env.lockGranted {
        return Failure(FailedToAcquireLock);
      }
      var reserved := ReserveWithOptimisticLock(seat, reservation, env.insertFails, env.commitFails);
      r := if reserved.Success? then Success(reserved.value) else Failure(FailedToAcquireLock);
    }

    /** Promotes from the waiting queue, then checks that the caller's own token is
        active, its session has time left and its signature is no older than an hour. */
    method Admit(userId: int, queueToken: Token, signed: Option<Queue.QueueClaim>)
      returns (valid: bool, ghost seen: nat)
      requires queue.Valid()
      modifies queue
      ensures queue.Valid() && queue.maxCount == old(queue.maxCount) && queue.clock >= seen >= old(queue.clock)
      ensures var waiting, active := old(queue.waiting), old(queue.active);
              var n := Queue.Promotions(waiting, SortedSets.Members(active), queue.maxCount);
              && queue.waiting == waiting[n..]
              && SortedSets.Members(queue.active) == Admitted(waiting, active, queue.maxCount)
      ensures valid <==>
              && Queue.Decoded(signed, queue.clock).Some? && signed.value.user == userId
              && queueToken !in SortedSets.Members(queue.waiting) && queueToken in SortedSets.Members(queue.active)
              && SortedSets.Score(queue.active, queueToken) + Queue.SESSION_MS > seen
    {
      queue.UpdateEntireQueue();
      var verdict;
      verdict, seen := queue.VerifyToken(userId, queueToken, signed, Queue.Processing);
      valid := verdict == Some(true);
    }

    /** After the commit: payment token, queue token, expiry job, in this order. */
    method IssueTokenAndQueueJob(userId: int, seatId: int, id: nat, queueToken: Token, paymentToken: Token, env: Env)
      returns (r: Result<nat, ReserveError>)
      requires queue.Valid()
      modifies db`tokens, db`jobs, queue
      ensures queue.Valid()
      ensures var issued, queued := !env.cacheFails && !env.tokenFails, !env.retireFails && !env.jobFails;
              && db.tokens ==
                 (if issued then old(db.tokens)[paymentToken := Claim(userId, seatId, id)] else old(db.tokens))
              && db.jobs == (if issued && queued then old(db.jobs) + {(id, seatId)} else old(db.jobs))
      ensures r == if IssueFails(env) then Failure(FailedToAcquireLock)
                   else if env.jobFails then Failure(FailedToQueueJob) else Success(id)
      ensures Retired(old(queue.waiting), queue.waiting, queueToken, !IssueFails(env))
      ensures Retired(old(queue.active), queue.active, queueToken, !IssueFails(env))
    {
      if env.cacheFails || env.tokenFails {
        return Failure(FailedToAcquireLock);
      }
      db.tokens := db.tokens[paymentToken := Claim(userId, seatId, id)];
      if env.retireFails {
        return Failure(FailedToAcquireLock);
      }
      queue.DeleteToken(queueToken);
      if env.jobFails {
        return Failure(FailedToQueueJob);
      }
      db.jobs := db.jobs + {(id, seatId)};
      r := Success(id);
    }

    /** Everything after admission: reserve, then issue the payment token, retire the
        queue token and queue the expiry job, in this order. */
    method ReserveAdmitted(userId: int, seatId: int, queueToken: Token, paymentToken: Token, env: Env)
      returns (r: Result<nat, ReserveError>)
      requires Wired() && queue.Valid()
      modifies db, queue
      ensures queue.Valid()
      ensures db.View() == Next(old(db.View()), ReserveStep(userId, seatId, paymentToken, env))
      ensures r == Verdict(old(db.booking), seatId, env)
      ensures r.Success? ==>
                && B.SeatTaken(old(db.booking), db.booking, userId, seatId)
                && db.tokens == old(db.tokens)[paymentToken := Claim(userId, seatId, r.value)]
                && db.jobs == old(db.jobs) + {(r.value, seatId)}
      ensures var retired := B.SeatFree(old(db.booking), seatId) && !ReserveFails(env) && !IssueFails(env);
              && Retired(old(queue.waiting), queue.waiting, queueToken, retired)
              && Retired(old(queue.active), queue.active, queueToken, retired)
    {
      r := ReserveUnderLock(userId, seatId, env);
      if r.Failure? {
        return;
      }
      r := IssueTokenAndQueueJob(userId, seatId, r.value, queueToken, paymentToken, env);
    }

    /** Exactly a caller whose own queue token was signed within the hour and, after the
        update, is active and not waiting, its session not over when looked at, is
        admitted. Anybody else changes nothing but the queues and is told so; an admitted
        caller takes one reserving step of the saga and reserves the seat, with token and
        expiry job, exactly if it is AVAILABLE and nothing fails. */
    method TemporaryReserve(userId: int, seatId: int, queueToken: Token, signed: Option<Queue.QueueClaim>,
                            paymentToken: Token, env: Env)
      returns (r: Result<nat, ReserveError>, ghost seen: nat, ghost admission: Queues)
      requires Wired() && queue.Valid()
      modifies db, queue
      ensures queue.Valid() && admission.clock >= seen >= old(queue.clock)
      ensures var waiting, active := old(queue.waiting), old(queue.active);
              && SortedSets.Members(admission.active) == Admitted(waiting, active, old(queue.maxCount))
              && admission.waiting ==
                 waiting[Queue.Promotions(waiting, SortedSets.Members(active), old(queue.maxCount))..]
      ensures r != Failure(InvalidQueueToken) <==> MayReserve(admission, userId, queueToken, signed, seen)
      ensures r == Failure(InvalidQueueToken) ==> db.View() == old(db.View())
      ensures r != Failure(InvalidQueueToken) ==>
                && db.View() == Next(old(db.View()), ReserveStep(userId, seatId, paymentToken, env))
                && r == Verdict(old(db.booking), seatId, env)
      ensures r.Success? ==>
                && B.SeatTaken(old(db.booking), db.booking, userId, seatId)
                && db.tokens == old(db.tokens)[paymentToken := Claim(userId, seatId, r.value)]
                && db.jobs == old(db.jobs) + {(r.value, seatId)}
                && queueToken !in SortedSets.Members(queue.waiting) && queueToken !in SortedSets.Members(queue.active)
    {
      var isValidToken;
      isValidToken, seen := Admit(userId, queueToken, signed);
      admission := Queues(queue.waiting, queue.active, queue.clock);
      if !isValidToken {
        r := Failure(InvalidQueueToken);
        return;
      }
      r := ReserveAdmitted(userId, seatId, queueToken, paymentToken, env);
    }
  }

  class ReservationExpireConsumer {
    const db: Stores
    const seats: SeatRepository
    const reservations: ReservationRepository

    constructor (db: Stores)
      ensures this.db == db && Wired()
    {
      this.db := db;
      seats := new SeatRepository(db);
      reservations := new ReservationRepository(db);
    }

    predicate Wired() {
      seats.db == db && reservations.db == db
    }

    /** One transaction: PENDING to EXPIRED, then RESERVED to AVAILABLE, or nothing. */
    method Process(reservationId: nat, seatId: int, fails: bool) returns (ok: bool)
      requires Wired() && (reservationId, seatId) in db.jobs
      modifies db`booking
      ensures db.View() == Next(old(db.View()), Action.Expire(reservationId, seatId, fails))
      ensures ok == (B.Expire(old(db.booking), reservationId, seatId).Success? && !fails)
      ensures ok <==>
              && !fails && reservationId < |old(db.booking).reservations|
              && old(db.booking).reservations[reservationId].status == Pending
              && seatId in old(db.booking).seats && old(db.booking).seats[seatId].status == Reserved
      ensures if !ok then db.booking == old(db.booking)
              else B.Settled(old(db.booking), db.booking, reservationId, seatId, Expired,
                           old(db.booking).reservations[reservationId].paidAt, Available)
    {
      var begin := db.booking;
      var reservation := reservations.FindOne(reservationId);
      if reservation == null {
        return false;
      }
      reservation.SetExpired();
      var updated := reservations.Update(reservation, Pending);
      if !updated {
        return false;
      }
      var seat := seats.FindOne(seatId);
      if seat == null {
        db.booking := begin;
        return false;
      }
      seat.SetAvailable();
      updated := seats.Update(seat, Reserved);
      if !updated || fails {
        db.booking := begin;
        return false;
      }
      ok := true;
    }
  }
}

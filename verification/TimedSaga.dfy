/** The saga with a clock: payment tokens run out and expiry jobs become due.

    A reservation's token is stored some time after its commit, and its expiry job is
    queued some time after that; a token is good for PAYMENT_EXPIRE_TTL from when it was
    stored, a job is due SEAT_EXPIRE_TTL after it was queued. */
module TimedSaga {
  import opened Tables
  import opened PaymentTokens
  import S = Saga
  import I = SagaInvariant
  import B = Booking

  /** `until` is when each token runs out, `dueAt` when the job of each reservation is due. */
  datatype Timed = Timed(saga: S.State, clock: nat, until: map<Token, nat>, dueAt: map<nat, nat>)

  /** Take is a step of the saga; a reserving one says how long after the commit its
      token is stored, and how long after that its job is queued. */
  datatype Move =
    | Wait(ms: nat)
    | Take(step: S.Action, storedAfter: nat, queuedAfter: nat)

  function Start(seats: map<int, SeatRow>): Timed {
    Timed(S.Initial(seats), 0, map[], map[])
  }

  /** A stored token has not run out. */
  predicate Usable(t: Timed, token: Token) {
    token in t.until && t.clock < t.until[token]
  }

  predicate Due(t: Timed, id: nat) {
    id in t.dueAt && t.dueAt[id] <= t.clock
  }

  /** The clock stands in the way of this step. */
  predicate TooEarlyOrLate(t: Timed, a: S.Action) {
    (a.Request? && !Usable(t, a.token)) || (a.Expire? && !Due(t, a.id))
  }

  function TakeReserve(t: Timed, a: S.Action, storedAfter: nat, queuedAfter: nat): Timed
    requires a.Reserve?
  {
    var saga := S.Next(t.saga, a);
    var id := |t.saga.booking.reservations|;
    if |saga.booking.reservations| == id || !a.tokenIssued then t.(saga := saga)
    else
      var stored := t.clock + storedAfter;
      t.(saga := saga, until := t.until[a.token := stored + PAYMENT_EXPIRE_TTL * 1000],
         dueAt := if a.jobQueued then t.dueAt[id := stored + queuedAfter + SEAT_EXPIRE_TTL * 1000] else t.dueAt)
  }

  function Next(t: Timed, m: Move): Timed {
    match m
    case Wait(ms) => t.(clock := t.clock + ms)
    case Take(a, storedAfter, queuedAfter) =>
      if a.Reserve? then TakeReserve(t, a, storedAfter, queuedAfter)
      else if TooEarlyOrLate(t, a) then t
      else t.(saga := S.Next(t.saga, a))
  }

  function Run(t: Timed, moves: seq<Move>): Timed {
    if moves == [] then t else Next(Run(t, moves[..|moves| - 1]), moves[|moves| - 1])
  }

  ghost predicate Reachable(t: Timed) {
    exists seats, moves :: I.AllAvailable(seats) && t == Run(Start(seats), moves)
  }

  // ---------- a timed run is a run of the saga ----------

  function StepOf(t: Timed, m: Move): Option<S.Action> {
    if m.Wait? || (!m.step.Reserve? && TooEarlyOrLate(t, m.step)) then None else Some(m.step)
  }

  lemma {:induction false} RunIsSagaRun(seats: map<int, SeatRow>, moves: seq<Move>) returns (steps: seq<S.Action>)
    ensures Run(Start(seats), moves).saga == S.Run(S.Initial(seats), steps)
  {
    if moves == [] {
      steps := [];
    } else {
      var before, m := Run(Start(seats), moves[..|moves| - 1]), moves[|moves| - 1];
      steps := RunIsSagaRun(seats, moves[..|moves| - 1]);
      if StepOf(before, m).Some? {
        assert (steps + [m.step])[..|steps|] == steps;
        steps := steps + [m.step];
      }
    }
  }

  lemma ReachableInSaga(t: Timed)
    requires Reachable(t)
    ensures I.Reachable(t.saga)
  {
    var seats, moves :| I.AllAvailable(seats) && t == Run(Start(seats), moves);
    var steps := RunIsSagaRun(seats, moves);
  }

  // ---------- tokens run out before reservations expire ----------

  /** A stored token runs out at least a second before its reservation's job is due. */
  ghost predicate TokensFirst(t: Timed) {
    forall token :: token in t.saga.tokens ==>
      && token in t.until
      && (t.saga.tokens[token].reservation in t.dueAt ==>
            t.until[token] + 1000 <= t.dueAt[t.saga.tokens[token].reservation])
  }

  /** Only jobs that are due have expired a reservation. */
  ghost predicate ExpiredIsDue(t: Timed) {
    forall id :: 0 <= id < |t.saga.booking.reservations| && t.saga.booking.reservations[id].status == Expired ==>
      Due(t, id)
  }

  ghost predicate DueExists(t: Timed) {
    forall id :: id in t.dueAt ==> id < |t.saga.booking.reservations|
  }

  ghost predicate TimedInv(t: Timed) {
    TokensFirst(t) && ExpiredIsDue(t) && DueExists(t)
  }

  lemma ReserveKeepsTimed(t: Timed, a: S.Action, storedAfter: nat, queuedAfter: nat)
    requires TimedInv(t) && I.TokensOk(t.saga.tokens, t.saga.booking.reservations) && a.Reserve?
    ensures TimedInv(TakeReserve(t, a, storedAfter, queuedAfter))
  {
  }

  /** Expires nothing and stores no token. */
  predicate Mild(s: S.State, s': S.State) {
    && s'.tokens.Items <= s.tokens.Items
    && |s'.booking.reservations| == |s.booking.reservations|
    && forall id :: 0 <= id < |s.booking.reservations| && s'.booking.reservations[id].status == Expired ==>
         s.booking.reservations[id].status == Expired
  }

  lemma HandlerIsMild(s: S.State, i: nat, fails: bool, late: bool, now: int)
    requires i < |s.tasks|
    ensures Mild(s, S.HandleTask(s, i, fails, late, now))
  {
    if s.tasks[i].SuccessEvent? {
      SuccessIsMild(s, i, fails, late, now);
    } else {
      var row, entry := I.HandlerMoves(s, i, fails, late, now);
      HandlerStoresNoToken(s, i, fails, late, now);
    }
  }

  lemma HandlerStoresNoToken(s: S.State, i: nat, fails: bool, late: bool, now: int)
    requires i < |s.tasks|
    ensures S.HandleTask(s, i, fails, late, now).tokens.Items <= s.tokens.Items
  {
  }

  lemma SuccessIsMild(s: S.State, i: nat, fails: bool, late: bool, now: int)
    requires i < |s.tasks| && s.tasks[i].SuccessEvent?
    ensures Mild(s, S.HandleSuccess(s, i, fails, late, now))
  {
  }

  lemma OtherStepIsMild(s: S.State, a: S.Action)
    requires !a.Reserve? && !a.Expire?
    ensures Mild(s, S.Next(s, a))
  {
    if a.Handle? {
      if a.i < |s.tasks| {
        HandlerIsMild(s, a.i, a.fails, a.late, a.now);
      }
    } else {
      OutsideStepIsMild(s, a);
    }
  }

  lemma OutsideStepIsMild(s: S.State, a: S.Action)
    requires !a.Reserve? && !a.Expire? && !a.Handle?
    ensures Mild(s, S.Next(s, a))
  {
  }

  lemma OtherStepKeepsTimed(t: Timed, a: S.Action)
    requires TimedInv(t) && !a.Reserve? && !a.Expire?
    ensures TimedInv(t.(saga := S.Next(t.saga, a)))
  {
    OtherStepIsMild(t.saga, a);
    var s' := S.Next(t.saga, a);
    forall token | token in s'.tokens ensures token in t.saga.tokens && t.saga.tokens[token] == s'.tokens[token] {
      assert (token, s'.tokens[token]) in s'.tokens.Items;
    }
  }

  lemma ExpireKeepsTimed(t: Timed, a: S.Action)
    requires TimedInv(t) && a.Expire? && Due(t, a.id)
    ensures TimedInv(t.(saga := S.Next(t.saga, a)))
  {
  }

  lemma NextKeepsTimed(t: Timed, m: Move)
    requires TimedInv(t) && I.TokensOk(t.saga.tokens, t.saga.booking.reservations)
    ensures TimedInv(Next(t, m))
  {
    if m.Take? {
      if m.step.Reserve? {
        ReserveKeepsTimed(t, m.step, m.storedAfter, m.queuedAfter);
      } else if m.step.Expire? {
        if Due(t, m.step.id) {
          ExpireKeepsTimed(t, m.step);
        }
      } else {
        OtherStepKeepsTimed(t, m.step);
      }
    }
  }

  lemma {:induction false} RunKeepsTimed(seats: map<int, SeatRow>, moves: seq<Move>)
    requires I.AllAvailable(seats)
    ensures TimedInv(Run(Start(seats), moves))
  {
    if moves != [] {
      var before := Run(Start(seats), moves[..|moves| - 1]);
      RunKeepsTimed(seats, moves[..|moves| - 1]);
      assert Reachable(before);
      ReachableInSaga(before);
      I.ReachableIsInv(before.saga);
      NextKeepsTimed(before, moves[|moves| - 1]);
    }
  }

  /** A request that is let through for the reservation its own token was issued with
      finds that reservation not expired, however late the token and the job were issued. */
  lemma AcceptedIsNotExpired(t: Timed, user: int, reservation: nat, token: Token, tx: TxId)
    requires Reachable(t)
    requires Next(t, Take(S.Request(user, reservation, token, tx), 0, 0)) != t
    requires reservation == t.saga.tokens[token].reservation
    ensures t.saga.booking.reservations[reservation].status != Expired
  {
    var seats, moves :| I.AllAvailable(seats) && t == Run(Start(seats), moves);
    RunKeepsTimed(seats, moves);
  }

  /** A token is usable for exactly its time to live from when it was stored, and the job
      is due exactly from its delay on. */
  lemma LifetimesExactly(t: Timed, a: S.Action, storedAfter: nat, queuedAfter: nat, ms: nat)
    requires a.Reserve? && a.tokenIssued && a.jobQueued && !a.fails
    requires B.Reserve(t.saga.booking, a.user, a.seat).Success?
    ensures var later, id := Next(Next(t, Take(a, storedAfter, queuedAfter)), Wait(ms)), |t.saga.booking.reservations|;
            && a.token in later.saga.tokens && later.saga.tokens[a.token].reservation == id
            && (Usable(later, a.token) <==> ms < storedAfter + 300000)
            && (Due(later, id) <==> ms >= storedAfter + queuedAfter + 301000)
  {
  }

  // ---------- a token for another reservation ----------

  lemma GoOn(t: Timed, m: Move)
    requires Reachable(t)
    ensures Reachable(Next(t, m))
  {
    var seats, moves :| I.AllAvailable(seats) && t == Run(Start(seats), moves);
    assert (moves + [m])[..|moves|] == moves;
    assert Run(Start(seats), moves + [m]) == Next(t, m);
  }

  const SEATS := map[10 := SeatRow(1, 30, Available), 11 := SeatRow(1, 30, Available)]

  const FIRST := S.Reserve(1, 10, "a", false, true, true)

  lemma FirstReserves() returns (t: Timed)
    ensures Reachable(t) && t.clock == 0 && 0 in t.dueAt && t.dueAt[0] == 301000
    ensures t.saga.booking
            == B.Store(SEATS[10 := SeatRow(1, 30, Reserved)], [ReservationRow(1, 10, 30, Pending, None)])
    ensures t.saga.tasks == [] && t.saga.jobs == {(0, 10)}
  {
    var t0 := Start(SEATS);
    assert t0 == Run(Start(SEATS), []);
    GoOn(t0, Take(FIRST, 0, 0));
    t := Next(t0, Take(FIRST, 0, 0));
  }

  /** Seat 10 reserved at 0 with token "a", and expired 301 seconds later. */
  lemma FirstExpires() returns (t: Timed)
    ensures Reachable(t) && t.clock == 301000 && t.saga.booking.seats == SEATS && t.saga.tasks == []
    ensures t.saga.booking.reservations == [ReservationRow(1, 10, 30, Expired, None)]
  {
    var t1 := FirstReserves();
    GoOn(t1, Wait(301000));
    var t2 := Next(t1, Wait(301000));
    var expire := Take(S.Expire(0, 10, false), 0, 0);
    GoOn(t2, expire);
    t := Next(t2, expire);
    assert t.saga.booking == B.Expire(t1.saga.booking, 0, 10).value;
    assert SEATS[10 := SeatRow(1, 30, Reserved)][10 := SeatRow(1, 30, Available)] == SEATS;
  }

  /** The token of a later reservation lets its user pay for the one that has expired. */
  lemma AcceptedForExpired() returns (t: Timed)
    ensures Reachable(t) && |t.saga.booking.reservations| == 2 && t.saga.booking.reservations[0].status == Expired
    ensures "b" in t.saga.tokens && t.saga.tokens["b"] == Claim(1, 11, 1)
    ensures t.saga.tasks == [S.TryEvent(S.Payload(0, 1, 10, 30, "x", "b"))]
  {
    var t1 := FirstExpires();
    var reserve := S.Reserve(1, 11, "b", false, true, true);
    GoOn(t1, Take(reserve, 0, 0));
    var t2 := Next(t1, Take(reserve, 0, 0));
    assert t2.saga.booking.reservations ==
           [ReservationRow(1, 10, 30, Expired, None), ReservationRow(1, 11, 30, Pending, None)];
    GoOn(t2, Take(S.Request(1, 0, "b", "x"), 0, 0));
    t := Next(t2, Take(S.Request(1, 0, "b", "x"), 0, 0));
  }
}

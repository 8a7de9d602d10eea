/** Reservations, confirmations, expiries and ranking updates of many schedules,
    interleaved at single commits and Redis commands. */
module SelloutRuns {
  import opened Sums
  import opened Tables
  import B = Booking

  /** One schedule on sale: the counters in Redis, and its duration in the ranking, if
      ranked. `lastSale` is auxiliary: when the latest seat was sold. */
  datatype Sale = Sale(lastSale: int, booked: int, total: int, start: int, ranked: Option<int>)

  /** One updateRanking call, from the commit it follows to its end. */
  datatype Update =
    | SaleCommitted(schedule: nat)         // seat SOLD and committed, not yet counted
    | Incremented(schedule: nat)           // after INCR
    | Counted(schedule: nat, booked: int)  // after GET
    | Finished(schedule: nat)

  datatype State = State(clock: int, booking: B.Store, sales: map<nat, Sale>, updates: seq<Update>)

  datatype Action =
    | Reserve(user: int, seat: int)
    | Confirm(id: nat, tx: TxId)
    | Expire(id: nat, seat: int)
    | Advance(i: nat)
    | Tick(ms: nat)

  function SeatsOf(b: B.Store, k: nat): set<int> {
    set seat | seat in b.seats && b.seats[seat].schedule == k
  }

  function SoldSeats(b: B.Store, k: nat): set<int> {
    set seat | seat in b.seats && b.seats[seat].schedule == k && b.seats[seat].status == Sold
  }

  /** Right after startToSell, with nothing sold and as many seats as the schedule says. */
  ghost predicate OnSale(s: State) {
    && (forall k :: k in s.sales ==>
          && s.sales[k].booked == 0 && s.sales[k].total == |SeatsOf(s.booking, k)| >= 1 && s.sales[k].ranked.None?
          && SoldSeats(s.booking, k) == {})
    && s.updates == []
  }

  function Elapsed(start: int, now: int): int {
    now - start
  }

  /** What update u does to its schedule at time `now`, and where it goes on. */
  function Step(u: Update, sale: Sale, now: int): (Sale, Update) {
    match u
    case SaleCommitted(k) => (sale.(booked := sale.booked + 1), Incremented(k))
    case Incremented(k) => (sale, Counted(k, sale.booked))
    case Counted(k, booked) =>
      (if booked >= sale.total then sale.(ranked := Some(Elapsed(sale.start, now))) else sale, Finished(k))
    case Finished(_) => (sale, u)
  }

  /** The first n steps of an update of schedule k that nobody interrupts. */
  function Uninterrupted(sale: Sale, k: nat, n: nat, now: int): (Sale, Update) {
    if n == 0 then (sale, SaleCommitted(k))
    else
      var (before, u) := Uninterrupted(sale, k, n - 1, now);
      Step(u, before, now)
  }

  function StepsOf(sale: Sale, k: nat, n: nat, now: int): Sale {
    Uninterrupted(sale, k, n, now).0
  }

  /** Nobody in between, an update counts its sale and ranks the schedule if that makes
      the counter reach the seats. */
  lemma ThreeSteps(sale: Sale, k: nat, now: int)
    ensures var booked := sale.booked + 1;
            StepsOf(sale, k, 3, now)
            == sale.(booked := booked,
                     ranked := if booked >= sale.total then Some(Elapsed(sale.start, now)) else sale.ranked)
    ensures StepsOf(sale, k, 1, now) == sale.(booked := sale.booked + 1) && StepsOf(sale, k, 0, now) == sale
  {
    assert Uninterrupted(sale, k, 1, now) == (sale.(booked := sale.booked + 1), Incremented(k));
    assert Uninterrupted(sale, k, 2, now) == (sale.(booked := sale.booked + 1), Counted(k, sale.booked + 1));
  }

  /** The schedule whose seat a reservation is for. */
  function ScheduleOf(b: B.Store, id: nat): nat
    requires id < |b.reservations| && b.reservations[id].seat in b.seats
  {
    b.seats[b.reservations[id].seat].schedule
  }

  function HandleConfirm(s: State, id: nat, tx: TxId): State {
    var r := B.Confirm(s.booking, id, Stamp(s.clock, tx));
    if r.Failure? then s
    else
      var k := ScheduleOf(s.booking, id);
      s.(booking := r.value,
         sales := if k in s.sales then s.sales[k := s.sales[k].(lastSale := s.clock)] else s.sales,
         updates := s.updates + [SaleCommitted(k)])
  }

  function Next(s: State, a: Action): State {
    match a
    case Reserve(user, seat) =>
      var r := B.Reserve(s.booking, user, seat); if r.Success? then s.(booking := r.value) else s
    case Confirm(id, tx) => HandleConfirm(s, id, tx)
    case Expire(id, seat) =>
      var r := B.Expire(s.booking, id, seat); if r.Success? then s.(booking := r.value) else s
    case Advance(i) =>
      if i < |s.updates| && s.updates[i].schedule in s.sales then
        var k := s.updates[i].schedule;
        var (sale, u) := Step(s.updates[i], s.sales[k], s.clock);
        s.(sales := s.sales[k := sale], updates := s.updates[i := u])
      else s
    case Tick(ms) => s.(clock := s.clock + ms)
  }

  function Run(s: State, actions: seq<Action>): State {
    if actions == [] then s else Next(Run(s, actions[..|actions| - 1]), actions[|actions| - 1])
  }

  // ---------- sold seats ----------

  /** Confirming sells one seat of one schedule, reserving and expiring none of any. */
  lemma PerformSells(b: B.Store, op: B.Op, k: nat)
    requires B.Perform(b, op).Success?
    ensures var t := B.Perform(b, op).value;
            && SeatsOf(t, k) == SeatsOf(b, k)
            && |SoldSeats(t, k)| == |SoldSeats(b, k)| + (if op.ConfirmOp? && ScheduleOf(b, op.id) == k then 1 else 0)
  {
    var t := B.Perform(b, op).value;
    if op.ConfirmOp? && ScheduleOf(b, op.id) == k {
      assert SoldSeats(t, k) == SoldSeats(b, k) + {b.reservations[op.id].seat};
    } else {
      assert SoldSeats(t, k) == SoldSeats(b, k);
    }
  }

  lemma {:induction false} SubsetIsSmaller(a: set<int>, b: set<int>)
    requires a <= b
    ensures |a| <= |b| && (|a| == |b| <==> a == b)
  {
    assert b == a + (b - a);
  }

  lemma SoldIsAtMostAll(b: B.Store, k: nat)
    ensures |SoldSeats(b, k)| <= |SeatsOf(b, k)|
    ensures |SoldSeats(b, k)| == |SeatsOf(b, k)| <==> SoldSeats(b, k) == SeatsOf(b, k)
  {
    SubsetIsSmaller(SoldSeats(b, k), SeatsOf(b, k));
  }

  // ---------- the invariant ----------

  function Uncounted(k: nat): Update -> int {
    (u: Update) => if u == SaleCommitted(k) then 1 else 0
  }

  /** With the counter at `total` or beyond, this update is going to rank schedule k. */
  predicate Ranks(u: Update, k: nat, total: int) {
    u == Incremented(k) || (u.Counted? && u.schedule == k && u.booked >= total)
  }

  predicate WillRank(updates: seq<Update>, k: nat, total: int) {
    exists i :: 0 <= i < |updates| && Ranks(updates[i], k, total)
  }

  ghost predicate SaleOk(clock: int, sold: int, sale: Sale, updates: seq<Update>, k: nat) {
    && sale.booked == sold - Sum(updates, Uncounted(k))
    && sold <= sale.total && sale.total >= 1
    && (sale.ranked.Some? ==> sale.booked == sold == sale.total && sale.start + sale.ranked.value >= sale.lastSale)
    && (sale.booked >= sale.total ==> sale.ranked.Some? || WillRank(updates, k, sale.total))
    && (sold > 0 ==> sale.lastSale <= clock)
    && (forall i :: 0 <= i < |updates| && updates[i].Counted? && updates[i].schedule == k ==>
          updates[i].booked <= sale.booked)
  }

  ghost predicate Inv(s: State) {
    forall k :: k in s.sales ==>
      && s.sales[k].total == |SeatsOf(s.booking, k)|
      && SaleOk(s.clock, |SoldSeats(s.booking, k)|, s.sales[k], s.updates, k)
  }

  lemma StillWillRank(updates: seq<Update>, u: Update, k: nat, total: int)
    ensures WillRank(updates, k, total) ==> WillRank(updates + [u], k, total)
  {
    if i :| 0 <= i < |updates| && Ranks(updates[i], k, total) {
      assert Ranks((updates + [u])[i], k, total);
    }
  }

  /** Replacing an update that was not going to rank schedule k. */
  lemma OthersStillRank(updates: seq<Update>, i: nat, u: Update, k: nat, total: int)
    requires i < |updates| && !Ranks(updates[i], k, total)
    ensures WillRank(updates, k, total) ==> WillRank(updates[i := u], k, total)
  {
    if w :| 0 <= w < |updates| && Ranks(updates[w], k, total) {
      assert Ranks(updates[i := u][w], k, total);
    }
  }

  lemma ConfirmKeepsSale(clock: int, sold: int, sale: Sale, updates: seq<Update>, own: nat, k: nat)
    requires SaleOk(clock, sold, sale, updates, k) && (own == k ==> sold < sale.total) && sold >= 0
    ensures SaleOk(clock, if own == k then sold + 1 else sold, if own == k then sale.(lastSale := clock) else sale,
                   updates + [SaleCommitted(own)], k)
  {
    SumAppend(updates, SaleCommitted(own), Uncounted(k));
    SumIsNonNegative(updates, Uncounted(k));
    StillWillRank(updates, SaleCommitted(own), k, sale.total);
  }

  /** Update i moves on; for its own schedule it may hand the ranking over to itself. */
  lemma OwnStepKeepsSale(clock: int, sold: int, sale: Sale, updates: seq<Update>, i: nat)
    requires i < |updates| && SaleOk(clock, sold, sale, updates, updates[i].schedule)
    ensures var (sale', u) := Step(updates[i], sale, clock);
            SaleOk(clock, sold, sale', updates[i := u], updates[i].schedule)
  {
    var k := updates[i].schedule;
    var (sale', u) := Step(updates[i], sale, clock);
    SumUpdate(updates, i, u, Uncounted(k));
    SumIsNonNegative(updates[i := u], Uncounted(k));
    if u.Incremented? || (u.Counted? && u.booked >= sale.total) {
      assert Ranks(updates[i := u][i], k, sale.total);
    } else if !Ranks(updates[i], k, sale.total) {
      OthersStillRank(updates, i, u, k, sale.total);
    }
  }

  lemma OtherStepKeepsSale(clock: int, sold: int, sale: Sale, updates: seq<Update>, i: nat, u: Update, k: nat)
    requires i < |updates| && SaleOk(clock, sold, sale, updates, k)
    requires updates[i].schedule != k && u.schedule == updates[i].schedule
    ensures SaleOk(clock, sold, sale, updates[i := u], k)
  {
    SumUpdate(updates, i, u, Uncounted(k));
    OthersStillRank(updates, i, u, k, sale.total);
  }

  lemma ConfirmKeepsInv(s: State, id: nat, tx: TxId)
    requires Inv(s)
    ensures Inv(HandleConfirm(s, id, tx))
  {
    var op := B.ConfirmOp(id, Stamp(s.clock, tx));
    if B.Perform(s.booking, op).Success? {
      var s' := HandleConfirm(s, id, tx);
      forall k | k in s'.sales
        ensures s'.sales[k].total == |SeatsOf(s'.booking, k)|
        ensures SaleOk(s'.clock, |SoldSeats(s'.booking, k)|, s'.sales[k], s'.updates, k)
      {
        PerformSells(s.booking, op, k);
        SoldIsAtMostAll(s'.booking, k);
        ConfirmKeepsSale(s.clock, |SoldSeats(s.booking, k)|, s.sales[k], s.updates, ScheduleOf(s.booking, id), k);
      }
    }
  }

  lemma AdvanceKeepsInv(s: State, i: nat)
    requires Inv(s) && i < |s.updates| && s.updates[i].schedule in s.sales
    ensures Inv(Next(s, Advance(i)))
  {
    var s' := Next(s, Advance(i));
    forall k | k in s'.sales ensures SaleOk(s'.clock, |SoldSeats(s'.booking, k)|, s'.sales[k], s'.updates, k) {
      if s.updates[i].schedule == k {
        OwnStepKeepsSale(s.clock, |SoldSeats(s.booking, k)|, s.sales[k], s.updates, i);
      } else {
        OtherStepKeepsSale(s.clock, |SoldSeats(s.booking, k)|, s.sales[k], s.updates, i, s'.updates[i], k);
      }
    }
  }

  /** Reserving and expiring sell nothing. */
  lemma BookingKeepsInv(s: State, op: B.Op)
    requires Inv(s) && !op.ConfirmOp? && B.Perform(s.booking, op).Success?
    ensures Inv(s.(booking := B.Perform(s.booking, op).value))
  {
    forall k | k in s.sales
      ensures |SoldSeats(B.Perform(s.booking, op).value, k)| == |SoldSeats(s.booking, k)|
      ensures SeatsOf(B.Perform(s.booking, op).value, k) == SeatsOf(s.booking, k)
    {
      PerformSells(s.booking, op, k);
    }
  }

  lemma NextKeepsInv(s: State, a: Action)
    requires Inv(s)
    ensures Inv(Next(s, a))
  {
    match a
    case Reserve(user, seat) =>
      if B.Reserve(s.booking, user, seat).Success? {
        BookingKeepsInv(s, B.ReserveOp(user, seat));
      }
    case Confirm(id, tx) => ConfirmKeepsInv(s, id, tx);
    case Expire(id, seat) =>
      if B.Expire(s.booking, id, seat).Success? {
        BookingKeepsInv(s, B.ExpireOp(id, seat));
      }
    case Advance(i) =>
      if i < |s.updates| && s.updates[i].schedule in s.sales {
        AdvanceKeepsInv(s, i);
      }
    case Tick(_) =>
  }

  lemma {:induction false} RunKeepsInv(s: State, actions: seq<Action>)
    requires OnSale(s)
    ensures Inv(Run(s, actions)) && Run(s, actions).sales.Keys == s.sales.Keys
  {
    if actions != [] {
      RunKeepsInv(s, actions[..|actions| - 1]);
      NextKeepsInv(Run(s, actions[..|actions| - 1]), actions[|actions| - 1]);
    }
  }

  predicate AllFinished(s: State) {
    forall i :: 0 <= i < |s.updates| ==> s.updates[i].Finished?
  }

  /** In every interleaving, a schedule's booked count is the number of its SOLD seats
      minus the confirmations not yet counted. Once no update is under way, it is in the
      ranking exactly when all its seats are SOLD, and then with a sellout time no
      earlier than its last sale. */
  lemma RankingAgreesWithSales(s: State, actions: seq<Action>, k: nat)
    requires OnSale(s) && k in s.sales
    ensures var t := Run(s, actions);
            && k in t.sales
            && var sale, sold := t.sales[k], SoldSeats(t.booking, k);
               && sale.booked == |sold| - Sum(t.updates, Uncounted(k))
               && (sale.ranked.Some? ==>
                     sold == SeatsOf(t.booking, k) && sale.start + sale.ranked.value >= sale.lastSale)
               && (AllFinished(t) ==>
                     && sale.booked == |sold|
                     && (sale.ranked.Some? <==> sold == SeatsOf(t.booking, k)))
  {
    RunKeepsInv(s, actions);
    var t := Run(s, actions);
    assert SaleOk(t.clock, |SoldSeats(t.booking, k)|, t.sales[k], t.updates, k);
    SoldIsAtMostAll(t.booking, k);
    if AllFinished(t) {
      SumIsZero(t.updates, Uncounted(k));
    }
  }

  /** An update that nobody interrupts, as a run: three steps, and it is finished. */
  lemma UninterruptedUpdate(s: State, i: nat, k: nat)
    requires i < |s.updates| && s.updates[i] == SaleCommitted(k) && k in s.sales
    ensures Run(s, [Advance(i), Advance(i), Advance(i)])
            == s.(sales := s.sales[k := StepsOf(s.sales[k], k, 3, s.clock)], updates := s.updates[i := Finished(k)])
  {
    var sale := s.sales[k];
    ThreeSteps(sale, k, s.clock);
    var a := Advance(i);
    assert [a, a, a][..2] == [a, a] && [a, a][..1] == [a] && [a][..0] == [];
    var s1 := Next(s, a);
    var s2 := Next(s1, a);
    assert Run(s, [a]) == s1 && Run(s, [a, a]) == s2 && Run(s, [a, a, a]) == Next(s2, a);
    assert s1.updates[i] == Incremented(k) && s1.sales[k] == sale.(booked := sale.booked + 1);
    assert s2.updates[i] == Counted(k, sale.booked + 1);
    assert Next(s2, a).updates == s.updates[i := Finished(k)];
  }
}

/** The other direction of StatementSaga's refinement: what the saga does in atomic steps
    the statements can do. Every run of the saga whose charges leave no gap is the run of
    some interleaving of statements, so the atomic steps add nothing to the system. */
module SagaRealized {
  import opened Tables
  import opened StatementSaga
  import P = Points
  import B = Booking
  import PR = PointRuns
  import BR = BookingRuns
  import PA = PointAlone
  import BA = BookingAlone
  import S = Saga
  import I = SagaInvariant

  /** Some statements lead from s to t. */
  ghost predicate LeadsTo(s: State, t: State) {
    exists actions :: t == Run(s, actions)
  }

  lemma {:induction false} RunAppends(s: State, a: seq<Action>, b: seq<Action>)
    ensures Run(s, a + b) == Run(Run(s, a), b)
  {
    if b == [] {
      assert a + b == a;
    } else {
      RunAppends(s, a, b[..|b| - 1]);
      assert (a + b)[..|a + b| - 1] == a + b[..|b| - 1];
    }
  }

  lemma Then(s: State, t: State, u: State)
    requires LeadsTo(s, t) && LeadsTo(t, u)
    ensures LeadsTo(s, u)
  {
    var a :| t == Run(s, a);
    var b :| u == Run(t, b);
    RunAppends(s, a, b);
  }

  lemma Stay(s: State)
    ensures LeadsTo(s, s)
  {
    assert s == Run(s, []);
  }

  lemma Take(s: State, a: Action)
    ensures LeadsTo(s, Next(s, a))
  {
    assert [a][..0] == [];
    assert Run(s, [a]) == Next(s, a);
  }

  /** The current version of the tables. */
  function Latest(b: BR.State): nat
    requires b.versions != []
  {
    |b.versions| - 1
  }

  ghost predicate PointsCalm(p: PR.State) {
    (forall k :: 0 <= k < |p.txns| ==> PointEnd(p.txns[k]).Some?) && p.rowLock == map[] && p.redis == map[]
  }

  ghost predicate BookingCalm(b: BR.State) {
    && (forall k :: 0 <= k < |b.txns| ==> BookEnd(b.txns[k]).Some?)
    && b.seatLock == map[] && b.rowLock == map[]
    && b.versions != [] && b.versions[Latest(b)] == b.db
  }

  /** No transaction is under way and no lock is held. */
  ghost predicate Idle(s: State, start: B.Store) {
    Inv(s, start) && I.Inv(View(s)) && PointsCalm(s.points) && BookingCalm(s.booking)
  }

  // ---------- one balance transaction ----------

  /** Transaction k, the last one, is about to run; all the others are over. */
  ghost predicate PointStarted(s: State, start: B.Store, k: nat) {
    && Inv(s, start) && I.Inv(View(s)) && k + 1 == |s.points.txns| == |s.payers|
    && PA.AboutToRun(s.points, k)
    && (forall j :: 0 <= j < k ==> PointEnd(s.points.txns[j]).Some?)
    && BookingCalm(s.booking)
  }

  lemma StartIsStarted(s: State, start: B.Store, op: P.Op, payer: Option<nat>)
    requires Idle(s, start) && PayerOk(payer, op, s.tasks)
    ensures PointStarted(StartPoint(s, op, payer), start, |s.points.txns|)
    ensures View(StartPoint(s, op, payer)) == View(s)
    ensures var begun, k := StartPoint(s, op, payer), |s.points.txns|;
            && |s.payers| == k && begun.payers[k] == payer && begun.points.txns[k].op == op
            && begun.points.commits == s.points.commits && begun.points.db == s.points.db
  {
    StartPointKeepsInv(s, start, op, payer);
  }

  lemma {:induction false} StatementsLead(s: State, k: nat, n: nat)
    requires k < |s.payers| && PA.Underway(s.points, k, n)
    ensures LeadsTo(s, s.(points := PA.Statements(s.points, k, n)))
  {
    if n == 0 {
      Stay(s);
    } else {
      StatementsLead(s, k, n - 1);
      var before := s.(points := PA.Statements(s.points, k, n - 1));
      assert PA.Statements(s.points, k, n) == PR.Next(before.points, PR.Advance(k, false));
      assert !PA.Over(PA.Statements(s.points, k, n).txns[k]);
      Take(before, Point(k, false));
      Then(s, before, Next(before, Point(k, false)));
    }
  }

  lemma {:induction false} RunKeepsBoth(s: State, start: B.Store, actions: seq<Action>)
    requires Inv(s, start) && I.Inv(View(s))
    ensures Inv(Run(s, actions), start) && I.Inv(View(Run(s, actions)))
  {
    if actions != [] {
      var shorter, a := actions[..|actions| - 1], actions[|actions| - 1];
      RunKeepsBoth(s, start, shorter);
      NextKeepsInv(Run(s, shorter), start, a);
      NextFollows(Run(s, shorter), start, a);
      if Shadow(Run(s, shorter), a).Some? {
        I.NextKeepsInv(View(Run(s, shorter)), Shadow(Run(s, shorter), a).value);
      }
    }
  }

  lemma LeadsToKeepsBoth(s: State, start: B.Store, t: State)
    requires Inv(s, start) && I.Inv(View(s)) && LeadsTo(s, t)
    ensures Inv(t, start) && I.Inv(View(t))
  {
    var actions :| t == Run(s, actions);
    RunKeepsBoth(s, start, actions);
  }

  /** The last statement of transaction k. */
  lemma LastStatement(s: State, k: nat, n: nat)
    requires k < |s.payers| && PA.Underway(s.points, k, n)
    requires k < |PA.Statements(s.points, k, n + 1).txns| && PA.Statements(s.points, k, n + 1).txns[k].phase.Ended?
    ensures var ended := s.(points := PA.Statements(s.points, k, n + 1));
            LeadsTo(s, PointOver(ended, k, ended.points.txns[k].phase.committed))
  {
    StatementsLead(s, k, n);
    var before := s.(points := PA.Statements(s.points, k, n));
    assert !PA.Over(before.points.txns[k]);
    assert PA.Statements(s.points, k, n + 1) == PR.Next(before.points, PR.Advance(k, false));
    Take(before, Point(k, false));
    Then(s, before, Next(before, Point(k, false)));
  }

  lemma ReleaseLeads(s: State, k: nat)
    ensures LeadsTo(s, s.(points := PR.Next(s.points, PR.Release(k))))
  {
    Take(s, ReleaseLock(k));
  }

  /** The transaction's end, then the release of its lock. */
  lemma OverThenReleased(s: State, ended: State, k: nat) returns (t: State)
    requires k < |s.payers| && k + 1 == |s.points.txns| && BookingCalm(s.booking)
    requires forall j :: 0 <= j < k ==> PointEnd(s.points.txns[j]).Some?
    requires ended == s.(points := ended.points) && PA.EndedAtomically(s.points, ended.points, k)
    requires LeadsTo(s, PointOver(ended, k, ended.points.txns[k].phase.committed))
    ensures LeadsTo(s, t) && PointsCalm(t.points) && BookingCalm(t.booking)
    ensures View(t) == View(PointOver(ended, k, ended.points.txns[k].phase.committed))
  {
    var over := PointOver(ended, k, ended.points.txns[k].phase.committed);
    PointOverMoves(ended, k, ended.points.txns[k].phase.committed);
    ReleasedIsFree(s.points, ended.points, k);
    t := over.(points := PR.Next(over.points, PR.Release(k)));
    ReleaseLeads(over, k);
    Then(s, over, t);
  }

  /** Transaction k alone, to its end and the release of its lock. */
  lemma PointFinishes(s: State, start: B.Store, k: nat) returns (t: State)
    requires PointStarted(s, start, k)
    ensures LeadsTo(s, t) && Idle(t, start)
    ensures var op, r := s.points.txns[k].op, P.Perform(s.points.db, P.Plain(s.points.txns[k].op));
            View(t) == Follow(View(s), PaymentShadow(s.payers[k], op, s.points.commits + [P.Plain(op)], r.Success?))
  {
    var n := PA.AloneIsAtomic(s.points, k);
    var ended := s.(points := PA.Statements(s.points, k, n + 1));
    LastStatement(s, k, n);
    t := OverThenReleased(s, ended, k);
    assert PayerOk(s.payers[k], s.points.txns[k].op, s.tasks);
    OverIsShadow(s, ended, k);
    LeadsToKeepsBoth(s, start, t);
  }

  lemma OverIsShadow(s: State, ended: State, k: nat)
    requires k < |s.payers| && k < |s.points.txns| && PayerOk(s.payers[k], s.points.txns[k].op, s.tasks)
    requires ended == s.(points := ended.points) && PA.EndedAtomically(s.points, ended.points, k)
    ensures var op, r := s.points.txns[k].op, P.Perform(s.points.db, P.Plain(s.points.txns[k].op));
            View(PointOver(ended, k, r.Success?))
            == Follow(View(s), PaymentShadow(s.payers[k], op, s.points.commits + [P.Plain(op)], r.Success?))
  {
    var op := s.points.txns[k].op;
    PointOverFollows(s, ended, k, op, P.Perform(s.points.db, P.Plain(op)).Success?);
  }

  /** The lock is the only one there was. */
  lemma ReleasedIsFree(p: PR.State, ended: PR.State, k: nat)
    requires k + 1 == |p.txns| && PA.EndedAtomically(p, ended, k)
    requires forall j :: 0 <= j < k ==> PointEnd(p.txns[j]).Some?
    ensures var q := PR.Next(ended, PR.Release(k));
            && q.db == ended.db && q.rowLock == map[] && q.redis == map[]
            && forall j :: 0 <= j < |q.txns| ==> PointEnd(q.txns[j]).Some?
  {
  }

  lemma FailsAtOnce(p: PR.State, k: nat)
    requires PA.AboutToRun(p, k) && k + 1 == |p.txns| && forall j :: 0 <= j < k ==> PointEnd(p.txns[j]).Some?
    ensures PR.Enabled(p, PR.Advance(k, true))
    ensures var q := PR.Statement(p, k, true);
            PointsCalm(q) && q.db == p.db && |q.txns| == |p.txns|
            && q.txns[k] == p.txns[k].(phase := PR.Released(false))
  {
  }

  lemma TakeFailing(s: State, k: nat)
    requires k < |s.payers| && k < |s.points.txns| && PR.Enabled(s.points, PR.Advance(k, true))
    requires k < |PR.Statement(s.points, k, true).txns|
    requires PR.Statement(s.points, k, true).txns[k].phase == PR.Released(false)
    ensures LeadsTo(s, PointOver(s.(points := PR.Statement(s.points, k, true)), k, false))
  {
    Take(s, Point(k, true));
  }

  /** The transaction fails at its first statement. */
  lemma PointFails(s: State, start: B.Store, k: nat) returns (t: State)
    requires PointStarted(s, start, k)
    ensures LeadsTo(s, t) && Idle(t, start)
    ensures View(t) == Follow(View(s), PaymentShadow(s.payers[k], s.points.txns[k].op, [], false))
  {
    FailsAtOnce(s.points, k);
    TakeFailing(s, k);
    var ended := s.(points := PR.Statement(s.points, k, true));
    t := PointOver(ended, k, false);
    PointOverMoves(ended, k, false);
    LeadsToKeepsBoth(s, start, t);
    assert PayerOk(s.payers[k], s.points.txns[k].op, s.tasks);
    PointOverFollows(s, ended, k, s.points.txns[k].op, false);
  }

  // ---------- one seat transaction ----------

  ghost predicate BookStarted(s: State, start: B.Store, k: nat) {
    Inv(s, start) && I.Inv(View(s)) && LastBegins(s.booking, k) && PointsCalm(s.points)
  }

  lemma StartedAlone(b: BR.State, op: B.Op)
    requires BookingCalm(b) && BR.Enabled(b, BR.Start(op, Latest(b)))
    ensures var b' := BR.Next(b, BR.Start(op, Latest(b)));
            && |b'.txns| == |b.txns| + 1 && b'.txns[|b.txns|].op == op && b'.db == b.db && b'.versions == b.versions
            && BA.AboutToRun(b', |b.txns|, Latest(b))
            && forall j :: 0 <= j < |b.txns| ==> BookEnd(b'.txns[j]).Some?
  {
  }

  lemma StartBookStarts(s: State, op: B.Op, settler: Option<nat>)
    requires BookingCalm(s.booking) && BR.Enabled(s.booking, BR.Start(op, Latest(s.booking)))
    ensures var begun := StartBook(s, op, Latest(s.booking), settler);
            && begun == s.(booking := BR.Next(s.booking, BR.Start(op, Latest(s.booking))),
                           settlers := s.settlers + [settler])
            && begun.booking.db == s.booking.db
  {
  }

  /** The last transaction of b is about to run, all the others are over. */
  ghost predicate LastBegins(b: BR.State, k: nat) {
    && k + 1 == |b.txns| && b.versions != [] && BA.AboutToRun(b, k, Latest(b))
    && forall j :: 0 <= j < k ==> BookEnd(b.txns[j]).Some?
  }

  lemma StartedLast(b: BR.State, op: B.Op)
    requires BookingCalm(b) && BR.Enabled(b, BR.Start(op, Latest(b)))
    ensures var b' := BR.Next(b, BR.Start(op, Latest(b)));
            && LastBegins(b', |b.txns|) && b'.txns[|b.txns|].op == op && Latest(b') == Latest(b) && b'.db == b.db
  {
    StartedAlone(b, op);
  }

  lemma StartBookIsStarted(s: State, start: B.Store, op: B.Op, settler: Option<nat>)
    requires Idle(s, start) && SettlerOk(settler, op, s.tasks, s.jobs)
    requires BR.Enabled(s.booking, BR.Start(op, Latest(s.booking)))
    ensures var begun := StartBook(s, op, Latest(s.booking), settler);
            && BookStarted(begun, start, |s.booking.txns|) && View(begun) == View(s)
            && begun.settlers == s.settlers + [settler] && |s.settlers| == |s.booking.txns|
            && begun.booking.txns[|s.booking.txns|].op == op && Latest(begun.booking) == Latest(s.booking)
  {
    StartBookKeepsInv(s, start, op, Latest(s.booking), settler);
    StartBookStarts(s, op, settler);
    StartedLast(s.booking, op);
  }

  predicate IsStatement(k: nat, a: Action) {
    a.Book? && a.k == k && !a.fails
  }

  lemma TakeBook(s: State, a: Action, b: BR.State)
    requires a.Book? && a.k < |s.settlers| && a.k < |b.txns| && !b.txns[a.k].phase.Ended?
    requires b == BR.Next(s.booking, BR.Advance(a.k, a.version, a.fails))
    ensures LeadsTo(s, s.(booking := b))
  {
    Take(s, a);
  }

  lemma TakeLastBook(s: State, a: Action, b: BR.State)
    requires a.Book? && a.k < |s.settlers| && a.k < |b.txns| && b.txns[a.k].phase.Ended?
    requires BR.Enabled(s.booking, BR.Advance(a.k, a.version, a.fails))
    requires b == BR.Statement(s.booking, a.k, a.version, a.fails)
    ensures LeadsTo(s, BookOver(s.(booking := b), a, |s.booking.db.reservations|, b.txns[a.k].phase.committed))
  {
    Take(s, a);
  }

  lemma {:induction false} BookStatementsLead(s: State, k: nat, a: Action, n: nat)
    requires k < |s.settlers| && IsStatement(k, a) && BA.Underway(s.booking, k, a.version, n)
    ensures LeadsTo(s, s.(booking := BA.Statements(s.booking, k, a.version, n)))
  {
    if n == 0 {
      Stay(s);
    } else {
      BookStatementsLead(s, k, a, n - 1);
      var before := s.(booking := BA.Statements(s.booking, k, a.version, n - 1));
      var b := BA.Statements(s.booking, k, a.version, n);
      assert b == BR.Next(before.booking, BR.Advance(k, a.version, false));
      assert !b.txns[k].phase.Ended?;
      TakeBook(before, a, b);
      Then(s, before, before.(booking := b));
    }
  }

  lemma LastBookStatement(s: State, k: nat, a: Action, n: nat)
    requires k < |s.settlers| && IsStatement(k, a) && BA.Underway(s.booking, k, a.version, n)
    requires k < |s.booking.txns|
    requires var b := BA.Statements(s.booking, k, a.version, n + 1); k < |b.txns| && b.txns[k].phase.Ended?
    ensures var ended := s.(booking := BA.Statements(s.booking, k, a.version, n + 1));
            var id := |s.booking.db.reservations|;
            LeadsTo(s, BookOver(ended, a, id, ended.booking.txns[k].phase.committed))
  {
    BookStatementsLead(s, k, a, n);
    BA.UnderwayWritesNothing(s.booking, k, a.version, n);
    var before := s.(booking := BA.Statements(s.booking, k, a.version, n));
    var b := BA.Statements(s.booking, k, a.version, n + 1);
    assert !before.booking.txns[k].phase.Ended?;
    assert b == BR.Next(before.booking, BR.Advance(k, a.version, false));
    TakeLastBook(before, a, b);
    Then(s, before, BookOver(before.(booking := b), a, |s.booking.db.reservations|, b.txns[k].phase.committed));
  }

  lemma EndIsCalm(b: BR.State, ended: BR.State, k: nat, version: nat)
    requires k + 1 == |b.txns| && forall j :: 0 <= j < k ==> BookEnd(b.txns[j]).Some?
    requires BA.AboutToRun(b, k, version) && b.versions != [] && version == Latest(b) && BA.EndedAtomically(b, ended, k)
    ensures BookingCalm(ended)
  {
  }

  /** The end of a seat transaction, and what its message does then. */
  lemma BookOverIsIdle(s: State, start: B.Store, k: nat, a: Action, b: BR.State, committed: bool) returns (t: State)
    requires Inv(s, start) && I.Inv(View(s)) && PointsCalm(s.points) && BookingCalm(b)
    requires a.Book? && a.k == k && k < |s.settlers| && k < |b.txns| && k < |s.booking.txns|
    requires b.txns[k].op == s.booking.txns[k].op && BookEnd(s.booking.txns[k]) == None
    requires if committed then B.Perform(s.booking.db, s.booking.txns[k].op) == Success(b.db) else b.db == s.booking.db
    requires LeadsTo(s, BookOver(s.(booking := b), a, |s.booking.db.reservations|, committed))
    ensures LeadsTo(s, t) && Idle(t, start)
    ensures View(t) == Follow(View(s), SettlementShadow(s.settlers[k], s.booking.txns[k].op, a, committed))
  {
    var ended := s.(booking := b);
    t := BookOver(ended, a, |s.booking.db.reservations|, committed);
    BookOverMoves(ended, a, |s.booking.db.reservations|, committed);
    LeadsToKeepsBoth(s, start, t);
    assert SettlerOk(s.settlers[k], s.booking.txns[k].op, s.tasks, s.jobs);
    BookOverFollows(s, ended, s.booking.txns[k].op, a, committed);
  }

  /** Transaction k alone, to its end. */
  lemma BookFinishes(s: State, start: B.Store, k: nat, a: Action) returns (t: State)
    requires BookStarted(s, start, k) && IsStatement(k, a) && a.version == Latest(s.booking)
    ensures LeadsTo(s, t) && Idle(t, start)
    ensures var op := s.booking.txns[k].op;
            View(t) == Follow(View(s), SettlementShadow(s.settlers[k], op, a, B.Perform(s.booking.db, op).Success?))
  {
    var n := BA.AloneIsAtomic(s.booking, start, k, a.version);
    var b := BA.Statements(s.booking, k, a.version, n + 1);
    LastBookStatement(s, k, a, n);
    EndIsCalm(s.booking, b, k, a.version);
    t := BookOverIsIdle(s, start, k, a, b, B.Perform(s.booking.db, s.booking.txns[k].op).Success?);
  }

  lemma BookFailsAtOnce(b: BR.State, k: nat, version: nat)
    requires k + 1 == |b.txns| && forall j :: 0 <= j < k ==> BookEnd(b.txns[j]).Some?
    requires BA.AboutToRun(b, k, version) && b.versions != [] && version == Latest(b)
    ensures BR.Enabled(b, BR.Advance(k, version, true))
    ensures var b' := BR.Statement(b, k, version, true);
            && BookingCalm(b') && b'.db == b.db && |b'.txns| == |b.txns|
            && b'.txns[k] == b.txns[k].(phase := BR.Ended(false))
  {
  }

  lemma BookFails(s: State, start: B.Store, k: nat, a: Action) returns (t: State)
    requires BookStarted(s, start, k) && a.Book? && a.k == k && a.version == Latest(s.booking) && a.fails
    ensures LeadsTo(s, t) && Idle(t, start)
    ensures View(t) == Follow(View(s), SettlementShadow(s.settlers[k], s.booking.txns[k].op, a, false))
  {
    BookFailsAtOnce(s.booking, k, a.version);
    var b := BR.Statement(s.booking, k, a.version, true);
    TakeLastBook(s, a, b);
    t := BookOverIsIdle(s, start, k, a, b, false);
  }

  // ---------- every step of the saga ----------

  /** t is what the saga's step a makes of s, with nothing left under way. */
  ghost predicate Realizes(s: State, start: B.Store, a: S.Action, t: State) {
    LeadsTo(s, t) && Idle(t, start) && View(t) == S.Next(View(s), a)
  }

  /** The action that starts this balance transaction. */
  predicate StartsPoint(s: State, a: Action, op: P.Op, payer: Option<nat>) {
    Next(s, a) == StartPoint(s, op, payer)
  }

  lemma BegunThen(s: State, a: Action, op: P.Op, payer: Option<nat>, t: State)
    requires StartsPoint(s, a, op, payer) && LeadsTo(StartPoint(s, op, payer), t)
    ensures LeadsTo(s, t)
  {
    Take(s, a);
    Then(s, StartPoint(s, op, payer), t);
  }

  lemma FailedShadow(payer: Option<nat>, op: P.Op, a: seq<P.Op>, b: seq<P.Op>)
    ensures PaymentShadow(payer, op, a, false) == PaymentShadow(payer, op, b, false)
  {
  }

  lemma RealizePoint(s: State, start: B.Store, a: Action, op: P.Op, payer: Option<nat>, fails: bool) returns (t: State)
    requires Idle(s, start) && PayerOk(payer, op, s.tasks) && StartsPoint(s, a, op, payer) && P.Plain(op) == op
    ensures LeadsTo(s, t) && Idle(t, start)
    ensures var committed := !fails && P.Perform(s.points.db, op).Success?;
            View(t) == Follow(View(s), PaymentShadow(payer, op, s.points.commits + [op], committed))
  {
    StartIsStarted(s, start, op, payer);
    if fails {
      t := PointFails(StartPoint(s, op, payer), start, |s.points.txns|);
      FailedShadow(payer, op, [], s.points.commits + [op]);
    } else {
      t := PointFinishes(StartPoint(s, op, payer), start, |s.points.txns|);
    }
    BegunThen(s, a, op, payer, t);
  }

  lemma RealizeCharge(s: State, start: B.Store, user: int, amount: int, fails: bool) returns (t: State)
    requires Idle(s, start)
    ensures Realizes(s, start, S.Action.Charge(user, amount, 0, fails), t)
  {
    t := RealizePoint(s, start, StartCharge(user, amount), P.ChargeOp(user, amount, 0), None, fails);
  }

  lemma RealizeSpend(s: State, start: B.Store, user: int, amount: int, fails: bool) returns (t: State)
    requires Idle(s, start)
    ensures Realizes(s, start, S.Spend(user, amount, fails), t)
  {
    t := RealizePoint(s, start, StartSpend(user, amount), P.UseOp(user, amount, None), None, fails);
  }

  lemma StartingPayment(s: State, start: B.Store, i: nat)
    requires Idle(s, start) && i < |s.tasks| && PaymentOp(s.tasks[i]).Some?
    ensures StartsPoint(s, StartPayment(i), PaymentOp(s.tasks[i]).value, Some(i))
  {
  }

  lemma PaymentShadowIsHandle(s: State, i: nat, fails: bool, late: bool, now: int)
    requires i < |s.tasks| && PaymentOp(s.tasks[i]).Some?
    ensures var committed := !fails && P.Perform(s.points.db, PaymentOp(s.tasks[i]).value).Success?;
            S.Next(View(s), S.Handle(i, !committed, false, 0)) == S.Next(View(s), S.Handle(i, fails, late, now))
  {
  }

  lemma RealizePayment(s: State, start: B.Store, i: nat, fails: bool, late: bool, now: int) returns (t: State)
    requires Idle(s, start) && i < |s.tasks| && PaymentOp(s.tasks[i]).Some?
    ensures Realizes(s, start, S.Handle(i, fails, late, now), t)
  {
    StartingPayment(s, start, i);
    t := RealizePoint(s, start, StartPayment(i), PaymentOp(s.tasks[i]).value, Some(i), fails);
    PaymentShadowIsHandle(s, i, fails, late, now);
  }

  lemma RealizeBook(s: State, start: B.Store, a: Action, op: B.Op, settler: Option<nat>, run: Action) returns (t: State)
    requires Idle(s, start) && SettlerOk(settler, op, s.tasks, s.jobs)
    requires BR.Enabled(s.booking, BR.Start(op, Latest(s.booking)))
    requires Next(s, a) == StartBook(s, op, Latest(s.booking), settler)
    requires run.Book? && run.k == |s.booking.txns| && run.version == Latest(s.booking)
    ensures LeadsTo(s, t) && Idle(t, start)
    ensures var committed := !run.fails && B.Perform(s.booking.db, op).Success?;
            View(t) == Follow(View(s), SettlementShadow(settler, op, run, committed))
  {
    StartBookIsStarted(s, start, op, settler);
    Take(s, a);
    var begun := StartBook(s, op, Latest(s.booking), settler);
    if run.fails {
      t := BookFails(begun, start, |s.booking.txns|, run);
    } else {
      t := BookFinishes(begun, start, |s.booking.txns|, run);
    }
    Then(s, begun, t);
  }

  lemma RealizeReserve(s: State, start: B.Store, a: S.Action) returns (t: State)
    requires Idle(s, start) && a.Reserve?
    ensures Realizes(s, start, a, t)
  {
    if a.seat !in s.booking.db.seats {
      Stay(s);
      t := s;
    } else {
      var version := Latest(s.booking);
      var run := Book(|s.booking.txns|, version, a.fails, false, a.token, a.tokenIssued, a.jobQueued);
      t := RealizeBook(s, start, StartReserve(a.user, a.seat, version), B.ReserveOp(a.user, a.seat), None, run);
    }
  }

  lemma RealizeExpire(s: State, start: B.Store, a: S.Action) returns (t: State)
    requires Idle(s, start) && a.Expire?
    ensures Realizes(s, start, a, t)
  {
    if (a.id, a.seat) !in s.jobs {
      Stay(s);
      t := s;
    } else {
      var version := Latest(s.booking);
      var run := Book(|s.booking.txns|, version, a.fails, false, "", false, false);
      t := RealizeBook(s, start, StartExpire(a.id, a.seat, version), B.ExpireOp(a.id, a.seat), None, run);
    }
  }

  lemma NoneSettling(s: State, i: nat)
    requires BookingCalm(s.booking)
    ensures NotSettling(s, i)
  {
  }

  lemma StartingConfirm(s: State, i: nat, now: int, version: nat)
    requires i < |s.tasks| && s.tasks[i].SuccessEvent? && NotSettling(s, i)
    ensures Next(s, StartConfirm(i, now, version))
            == StartBook(s, B.ConfirmOp(s.tasks[i].p.reservation, Stamp(now, s.tasks[i].p.tx)), version, Some(i))
  {
  }

  lemma ConfirmShadowIsHandle(s: State, i: nat, fails: bool, late: bool, now: int)
    requires i < |s.tasks| && s.tasks[i].SuccessEvent?
    ensures var op := B.ConfirmOp(s.tasks[i].p.reservation, Stamp(now, s.tasks[i].p.tx));
            var committed := !fails && B.Perform(s.booking.db, op).Success?;
            S.Next(View(s), S.Handle(i, !committed, committed && late, now))
            == S.Next(View(s), S.Handle(i, fails, late, now))
  {
  }

  lemma RealizeConfirm(s: State, start: B.Store, i: nat, fails: bool, late: bool, now: int) returns (t: State)
    requires Idle(s, start) && i < |s.tasks| && s.tasks[i].SuccessEvent?
    ensures Realizes(s, start, S.Handle(i, fails, late, now), t)
  {
    var version := Latest(s.booking);
    var op := B.ConfirmOp(s.tasks[i].p.reservation, Stamp(now, s.tasks[i].p.tx));
    var run := Book(|s.booking.txns|, version, fails, late, "", false, false);
    NoneSettling(s, i);
    StartingConfirm(s, i, now, version);
    t := RealizeBook(s, start, StartConfirm(i, now, version), op, Some(i), run);
    ConfirmShadowIsHandle(s, i, fails, late, now);
  }

  lemma RealizeOther(s: State, start: B.Store, a: S.Action) returns (t: State)
    requires Idle(s, start) && IsOther(s, a)
    ensures Realizes(s, start, a, t)
  {
    Take(s, Other(a));
    t := Next(s, Other(a));
    LeadsToKeepsBoth(s, start, t);
    OtherFollows(s, a);
  }

  /** Whatever the saga does in one step, failing or not, the statements can do. */
  lemma RealizeStep(s: State, start: B.Store, a: S.Action) returns (t: State)
    requires Idle(s, start) && (a.Charge? ==> a.gap == 0)
    ensures Realizes(s, start, a, t)
  {
    match a
    case Charge(user, amount, _, fails) => t := RealizeCharge(s, start, user, amount, fails);
    case Spend(user, amount, fails) => t := RealizeSpend(s, start, user, amount, fails);
    case Reserve(_, _, _, _, _, _) => t := RealizeReserve(s, start, a);
    case Expire(_, _, _) => t := RealizeExpire(s, start, a);
    case Handle(i, fails, late, now) =>
      if i >= |s.tasks| {
        Stay(s);
        t := s;
      } else if PaymentOp(s.tasks[i]).Some? {
        t := RealizePayment(s, start, i, fails, late, now);
      } else if s.tasks[i].SuccessEvent? {
        t := RealizeConfirm(s, start, i, fails, late, now);
      } else {
        t := RealizeOther(s, start, a);
      }
    case _ => t := RealizeOther(s, start, a);
  }

  predicate NoGaps(steps: seq<S.Action>) {
    forall a :: a in steps ==> (a.Charge? ==> a.gap == 0)
  }

  lemma InitialIsIdle(seats: map<int, SeatRow>)
    requires I.AllAvailable(seats)
    ensures Idle(Initial(seats), Start(seats)) && View(Initial(seats)) == S.Initial(seats)
  {
    InitialIsInv(seats);
    I.RunKeepsInv(seats, []);
  }

  lemma {:induction false} RunIsRealized(seats: map<int, SeatRow>, steps: seq<S.Action>) returns (t: State)
    requires I.AllAvailable(seats) && NoGaps(steps)
    ensures LeadsTo(Initial(seats), t) && Idle(t, Start(seats)) && View(t) == S.Run(S.Initial(seats), steps)
  {
    if steps == [] {
      InitialIsIdle(seats);
      Stay(Initial(seats));
      t := Initial(seats);
    } else {
      var shorter, a := steps[..|steps| - 1], steps[|steps| - 1];
      assert a in steps;
      var before := RunIsRealized(seats, shorter);
      t := RealizeStep(before, Start(seats), a);
      Then(Initial(seats), before, t);
    }
  }

  /** What the saga reaches with charges that leave no gap, some interleaving of
      statements reaches; with StatementSaga.RunRefinesSaga, atomic steps and statements
      describe the same system. */
  lemma SagaIsRealized(seats: map<int, SeatRow>, steps: seq<S.Action>)
    requires I.AllAvailable(seats) && NoGaps(steps)
    ensures exists actions :: View(Run(Initial(seats), actions)) == S.Run(S.Initial(seats), steps)
  {
    var t := RunIsRealized(seats, steps);
    var actions :| t == Run(Initial(seats), actions);
  }
}

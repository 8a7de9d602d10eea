/** A balance transaction that runs with nobody in between: what its statements come to. */
module PointAlone {
  import opened Tables
  import opened Points
  import opened PointRuns

  /** n statements of transaction i, nobody in between. */
  function Statements(s: State, i: nat, n: nat): State {
    if n == 0 then s else Next(Statements(s, i, n - 1), Advance(i, false))
  }

  predicate Over(t: Txn) {
    t.phase.Ended? || t.phase.Released?
  }

  /** Transaction i has not begun, and nobody holds a lock. */
  predicate AboutToRun(s: State, i: nat) {
    i < |s.txns| && s.txns[i].phase.Waiting? && s.rowLock == map[] && s.redis == map[]
  }

  ghost predicate Underway(s: State, i: nat, n: nat) {
    forall m :: 0 <= m <= n ==> i < |Statements(s, i, m).txns| && !Over(Statements(s, i, m).txns[i])
  }

  /** It has ended as the atomic transaction does; a Redis lock is left to be released. */
  ghost predicate EndedAtomically(s: State, s': State, i: nat)
    requires i < |s.txns|
  {
    var op := s.txns[i].op;
    var r := Perform(s.db, Plain(op));
    && s'.txns == s.txns[i := Txn(op, Ended(r.Success?))]
    && s'.db == (if r.Success? then r.value else s.db)
    && s'.commits == (if r.Success? then s.commits + [Plain(op)] else s.commits)
    && s'.rowLock == map[] && s'.redis == (if InRedis(op) then map[op.user := i] else map[])
  }

  lemma UnderwayGrows(s: State, i: nat, n: nat)
    requires n > 0 ==> Underway(s, i, n - 1)
    requires i < |Statements(s, i, n).txns| && !Over(Statements(s, i, n).txns[i])
    ensures Underway(s, i, n)
  {
  }

  /** Transaction i, n statements after it was about to run, is at phase, having written nothing. */
  ghost predicate At(s: State, i: nat, n: nat, phase: Phase, rowLock: map<int, nat>)
    requires i < |s.txns|
  {
    var op := s.txns[i].op;
    Statements(s, i, n) == s.(txns := s.txns[i := Txn(op, phase)], rowLock := rowLock,
                              redis := if InRedis(op) && n > 0 then map[op.user := i] else map[])
  }

  lemma FirstStatementAlone(s: State, i: nat)
    requires AboutToRun(s, i)
    ensures Underway(s, i, 0)
    ensures InRedis(s.txns[i].op) ==> At(s, i, 1, Locked, map[])
  {
    assert Statements(s, i, 0) == s;
    assert Statements(s, i, 1) == Next(s, Advance(i, false));
  }

  /** The read: plain for a charge, with the row's lock otherwise. */
  lemma ReadAlone(s: State, i: nat, n: nat)
    requires AboutToRun(s, i) && Underway(s, i, n)
    requires if InRedis(s.txns[i].op) then n == 1 && At(s, i, 1, Locked, map[]) else n == 0
    ensures var op, found := s.txns[i].op, Current(s.db, s.txns[i].op.user);
            if op.ChargeOp? then At(s, i, n + 1, Read(found), map[])
            else if found.Some? then At(s, i, n + 1, Read(found), map[op.user := i])
            else EndedAtomically(s, Statements(s, i, n + 1), i)
  {
    assert n == 0 ==> Statements(s, i, 0) == s;
    assert Statements(s, i, n + 1) == Next(Statements(s, i, n), Advance(i, false));
  }

  /** The write, or the end if the guard refuses. */
  lemma WriteAlone(s: State, i: nat, n: nat, rowLock: map<int, nat>)
    requires AboutToRun(s, i) && n > 0
    requires var op, found := s.txns[i].op, Current(s.db, s.txns[i].op.user);
             && At(s, i, n, Read(found), rowLock) && (found.None? ==> op.ChargeOp?)
             && rowLock == (if op.ChargeOp? then map[] else map[op.user := i])
    ensures var op, b := s.txns[i].op, NewBalance(s.txns[i].op, Current(s.db, s.txns[i].op.user));
            if b.Some? then At(s, i, n + 1, Written(b.value), map[op.user := i])
            else EndedAtomically(s, Statements(s, i, n + 1), i)
  {
    assert Statements(s, i, n + 1) == Next(Statements(s, i, n), Advance(i, false));
  }

  lemma CommitAlone(s: State, i: nat, n: nat)
    requires AboutToRun(s, i) && n > 0
    requires var op, found := s.txns[i].op, Current(s.db, s.txns[i].op.user);
             && (found.None? ==> op.ChargeOp?) && NewBalance(op, found).Some?
             && At(s, i, n, Written(NewBalance(op, found).value), map[op.user := i])
    ensures EndedAtomically(s, Statements(s, i, n + 1), i)
  {
    assert Statements(s, i, n + 1) == Next(Statements(s, i, n), Advance(i, false));
  }

  /** The phase counts as under way. */
  lemma AtIsUnderway(s: State, i: nat, n: nat, phase: Phase, rowLock: map<int, nat>)
    requires i < |s.txns| && At(s, i, n, phase, rowLock) && !phase.Ended? && !phase.Released?
    requires n > 0 ==> Underway(s, i, n - 1)
    ensures Underway(s, i, n)
  {
    UnderwayGrows(s, i, n);
  }

  ghost predicate EndsAfter(s: State, i: nat, n: nat) {
    i < |s.txns| && n <= 3 && Underway(s, i, n) && EndedAtomically(s, Statements(s, i, n + 1), i)
  }

  lemma LockedEnds(s: State, i: nat, rowLock: map<int, nat>) returns (n: nat)
    requires AboutToRun(s, i) && Underway(s, i, 1)
    requires var op, found := s.txns[i].op, Current(s.db, s.txns[i].op.user);
             && At(s, i, 2, Read(found), rowLock) && (found.None? ==> op.ChargeOp?)
             && rowLock == (if op.ChargeOp? then map[] else map[op.user := i])
    ensures EndsAfter(s, i, n)
  {
    var op, b := s.txns[i].op, NewBalance(s.txns[i].op, Current(s.db, s.txns[i].op.user));
    AtIsUnderway(s, i, 2, Read(Current(s.db, op.user)), rowLock);
    WriteAlone(s, i, 2, rowLock);
    n := 2;
    if b.Some? {
      AtIsUnderway(s, i, 3, Written(b.value), map[op.user := i]);
      CommitAlone(s, i, 3);
      n := 3;
    }
  }

  lemma RefundEnds(s: State, i: nat) returns (n: nat)
    requires AboutToRun(s, i) && s.txns[i].op.RefundOp? && Underway(s, i, 0)
    requires var found := Current(s.db, s.txns[i].op.user);
             found.Some? && At(s, i, 1, Read(found), map[s.txns[i].op.user := i])
    ensures EndsAfter(s, i, n)
  {
    var op, b := s.txns[i].op, NewBalance(s.txns[i].op, Current(s.db, s.txns[i].op.user));
    AtIsUnderway(s, i, 1, Read(Current(s.db, op.user)), map[op.user := i]);
    WriteAlone(s, i, 1, map[op.user := i]);
    AtIsUnderway(s, i, 2, Written(b.value), map[op.user := i]);
    CommitAlone(s, i, 2);
    n := 2;
  }

  /** A transaction that runs alone does in at most four statements what the atomic one
      does: it commits exactly if that succeeds, with no gap, and otherwise changes nothing. */
  lemma AloneIsAtomic(s: State, i: nat) returns (n: nat)
    requires AboutToRun(s, i)
    ensures n <= 3 && Underway(s, i, n) && EndedAtomically(s, Statements(s, i, n + 1), i)
  {
    var op, found := s.txns[i].op, Current(s.db, s.txns[i].op.user);
    FirstStatementAlone(s, i);
    if InRedis(op) {
      AtIsUnderway(s, i, 1, Locked, map[]);
      ReadAlone(s, i, 1);
      if op.ChargeOp? || found.Some? {
        n := LockedEnds(s, i, if op.ChargeOp? then map[] else map[op.user := i]);
      } else {
        n := 1;
      }
    } else {
      ReadAlone(s, i, 0);
      if found.Some? {
        n := RefundEnds(s, i);
      } else {
        n := 0;
      }
    }
  }
}

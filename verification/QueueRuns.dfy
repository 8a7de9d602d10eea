/** n callers of updateEntireQueue, interleaved at single Redis commands, with
    tokens arriving and being deleted meanwhile. */
module QueueRuns {
  import opened Sums
  import opened Tables
  import opened SortedSets
  import Queue

  /** Where a caller is in its loop. After ZADD it counts again, as a new call would. */
  datatype Caller =
    | Idle
    | Counted(active: nat)       // after ZCARD of the active queue
    | Admitting                  // after ZCARD of the waiting queue, loop condition true
    | Fetched(token: Token)      // after ZRANGE 0 0
    | Removed(token: Token)      // after ZREM

  /** Auxiliary: `arrival` is the time read for each token before its ZADD, `added` are
      the tokens whose ZADD has been executed, `taken` those some caller removed from
      the waiting queue, and `seen[t]` what had been added when t was last fetched. */
  datatype State = State(waiting: SortedSet, active: SortedSet, maxCount: nat, clock: nat, callers: seq<Caller>,
                         arrival: map<Token, nat>, added: set<Token>, taken: set<Token>, seen: map<Token, set<Token>>)

  datatype Action =
    | Advance(i: nat)
    | Arrive(token: Token)      // Date.now() of addToWaitingQueue
    | Enqueue(token: Token)    // its ZADD
    | Delete(token: Token)
    | Tick(ms: nat)

  function Initial(n: nat, maxCount: nat): State {
    State([], [], maxCount, 0, seq(n, i => Idle), map[], {}, {}, map[])
  }

  function Put(s: State, i: nat, c: Caller): State
    requires i < |s.callers|
  {
    s.(callers := s.callers[i := c])
  }

  /** The next Redis command of caller i. */
  function Command(s: State, i: nat): State
    requires i < |s.callers|
  {
    match s.callers[i]
    case Idle => Put(s, i, Counted(|s.active|))
    case Counted(a) => Put(s, i, if a < s.maxCount && |s.waiting| > 0 then Admitting else Idle)
    case Admitting =>
      // An empty reply makes the caller throw.
      if s.waiting == [] then Put(s, i, Idle)
      else
        var token := s.waiting[0].member;
        Put(s, i, Fetched(token)).(seen := s.seen[token := s.added])
    case Fetched(token) =>
      Put(s, i, Removed(token)).(
        waiting := Remove(s.waiting, token),
        taken := if token in Members(s.waiting) then s.taken + {token} else s.taken)
    case Removed(token) => Put(s, i, Idle).(active := Add(s.active, s.clock, token))
  }

  /** Tokens are fresh: none is enqueued twice. */
  function Next(s: State, a: Action): State {
    match a
    case Advance(i) => if i < |s.callers| then Command(s, i) else s
    case Arrive(token) => if token in s.arrival then s else s.(arrival := s.arrival[token := s.clock])
    case Enqueue(token) =>
      if token !in s.arrival || token in s.added then s
      else s.(waiting := Add(s.waiting, s.arrival[token], token), added := s.added + {token})
    case Delete(token) => s.(waiting := Remove(s.waiting, token), active := Remove(s.active, token))
    case Tick(ms) => s.(clock := s.clock + ms)
  }

  function Run(s: State, actions: seq<Action>): State {
    if actions == [] then s else Next(Run(s, actions[..|actions| - 1]), actions[|actions| - 1])
  }

  /** Some interleaving of n callers, arrivals and deletions leads to s. */
  ghost predicate Reachable(n: nat, maxCount: nat, s: State) {
    exists actions :: s == Run(Initial(n, maxCount), actions)
  }

  // ---------- how far the active queue may overshoot ----------

  /** Past a passing count, not yet in the active queue. */
  function Pending(maxCount: nat): Caller -> int {
    (c: Caller) => match c case Idle => 0 case Counted(a) => (if a < maxCount then 1 else 0) case _ => 1
  }

  lemma {:induction false} PendingAtMost(callers: seq<Caller>, maxCount: nat)
    ensures 0 <= Sum(callers, Pending(maxCount)) <= |callers|
  {
    if callers != [] {
      PendingAtMost(callers[..|callers| - 1], maxCount);
    }
  }

  ghost predicate QueuesValid(s: State) {
    Valid(s.waiting) && Valid(s.active)
  }

  ghost predicate Bounded(s: State) {
    |s.active| + Sum(s.callers, Pending(s.maxCount)) <= s.maxCount + |s.callers| - 1
  }

  lemma CommandKeepsQueuesValid(s: State, i: nat)
    requires QueuesValid(s) && i < |s.callers|
    ensures QueuesValid(Command(s, i))
  {
    if s.callers[i].Fetched? {
      RemoveIsValid(s.waiting, s.callers[i].token);
    } else if s.callers[i].Removed? {
      AddIsValid(s.active, s.clock, s.callers[i].token);
    }
  }

  lemma NextKeepsQueuesValid(s: State, a: Action)
    requires QueuesValid(s)
    ensures QueuesValid(Next(s, a))
  {
    if a.Advance? {
      if a.i < |s.callers| {
        CommandKeepsQueuesValid(s, a.i);
      }
    } else if a.Enqueue? {
      if a.token in s.arrival {
        AddIsValid(s.waiting, s.arrival[a.token], a.token);
      }
    } else if a.Delete? {
      RemoveIsValid(s.waiting, a.token);
      RemoveIsValid(s.active, a.token);
    }
  }

  /** A caller that is not pending leaves room for itself. */
  lemma RoomForOneMore(callers: seq<Caller>, i: nat, maxCount: nat)
    requires i < |callers| && Pending(maxCount)(callers[i]) == 0
    ensures Sum(callers, Pending(maxCount)) <= |callers| - 1
  {
    SumUpdate(callers, i, Admitting, Pending(maxCount));
    PendingAtMost(callers[i := Admitting], maxCount);
  }

  /** What a command does to the count of callers that are pending. */
  lemma CommandShiftsPending(s: State, i: nat)
    requires i < |s.callers|
    ensures var s', pending := Command(s, i), Pending(s.maxCount);
            && |s'.callers| == |s.callers| && s'.maxCount == s.maxCount
            && Sum(s'.callers, pending) == Sum(s.callers, pending) - pending(s.callers[i]) + pending(s'.callers[i])
  {
    SumUpdate(s.callers, i, Command(s, i).callers[i], Pending(s.maxCount));
  }

  lemma CommandKeepsBounded(s: State, i: nat)
    requires QueuesValid(s) && Bounded(s) && i < |s.callers|
    ensures Bounded(Command(s, i))
  {
    CommandShiftsPending(s, i);
    match s.callers[i]
    case Idle =>
      // The count read is below the maximum, or the caller does not become pending.
      RoomForOneMore(s.callers, i, s.maxCount);
    case Removed(token) => AddIsValid(s.active, s.clock, token);
    case _ =>
  }

  lemma NextKeepsBounded(s: State, a: Action)
    requires QueuesValid(s) && Bounded(s)
    ensures Bounded(Next(s, a))
  {
    if a.Advance? && a.i < |s.callers| {
      CommandKeepsBounded(s, a.i);
    } else if a.Delete? {
      RemoveIsValid(s.active, a.token);
    }
  }

  lemma InitialIsBounded(n: nat, maxCount: nat)
    requires n >= 1
    ensures QueuesValid(Initial(n, maxCount)) && Bounded(Initial(n, maxCount))
  {
    var callers := Initial(n, maxCount).callers;
    forall i | 0 <= i < |callers| ensures Pending(maxCount)(callers[i]) == 0 {
      assert callers[i] == Idle;
    }
    SumIsZero(callers, Pending(maxCount));
  }

  lemma NextKeepsCallers(s: State, a: Action)
    ensures |Next(s, a).callers| == |s.callers| && Next(s, a).maxCount == s.maxCount
  {
  }

  lemma {:induction false} RunKeepsBounded(n: nat, maxCount: nat, actions: seq<Action>)
    requires n >= 1
    ensures var s := Run(Initial(n, maxCount), actions);
            QueuesValid(s) && |s.callers| == n && s.maxCount == maxCount && Bounded(s)
  {
    if actions == [] {
      InitialIsBounded(n, maxCount);
    } else {
      RunKeepsBounded(n, maxCount, actions[..|actions| - 1]);
      NextKeepsQueuesValid(Run(Initial(n, maxCount), actions[..|actions| - 1]), actions[|actions| - 1]);
      NextKeepsBounded(Run(Initial(n, maxCount), actions[..|actions| - 1]), actions[|actions| - 1]);
      NextKeepsCallers(Run(Initial(n, maxCount), actions[..|actions| - 1]), actions[|actions| - 1]);
    }
  }

  /** With n callers, the active queue never exceeds maxCount + n - 1, whatever the
      interleaving, arrivals and deletions. */
  lemma ActiveIsBounded(n: nat, maxCount: nat, s: State)
    requires n >= 1 && Reachable(n, maxCount, s)
    ensures |s.active| <= maxCount + n - 1
  {
    var actions :| s == Run(Initial(n, maxCount), actions);
    RunKeepsBounded(n, maxCount, actions);
    PendingAtMost(s.callers, maxCount);
  }

  lemma RunOne(s: State, a: Action)
    ensures Run(s, [a]) == Next(s, a)
  {
    assert [a][..0] == [];
  }

  lemma {:induction false} RunAppends(s: State, a: seq<Action>, b: seq<Action>)
    ensures Run(s, a + b) == Run(Run(s, a), b)
  {
    if b == [] {
      assert a + b == a;
    } else {
      RunAppends(s, a, b[..|b| - 1]);
      assert (a + b)[..|a + b| - 1] == a + b[..|b| - 1];
    }
  }

  /** Callers below k have seen room, the rest have not started. */
  predicate AllAdmitting(s: State, k: nat) {
    && k <= |s.callers|
    && (forall i :: 0 <= i < k ==> s.callers[i] == Admitting)
    && (forall i :: k <= i < |s.callers| ==> s.callers[i] == Idle)
  }

  /** A caller that counts both queues, sees room and somebody waiting. */
  lemma TwoCounts(s: State, i: nat)
    requires i < |s.callers| && s.callers[i] == Idle && |s.active| < s.maxCount && s.waiting != []
    ensures Next(Next(s, Advance(i)), Advance(i)) == s.(callers := s.callers[i := Admitting])
  {
    assert Next(s, Advance(i)).callers == s.callers[i := Counted(|s.active|)];
  }

  /** k callers count one after the other while there is room and somebody waits. */
  lemma {:induction false} EveryoneCounts(s: State, k: nat) returns (actions: seq<Action>)
    requires AllAdmitting(s, 0) && k <= |s.callers| && |s.active| < s.maxCount && s.waiting != []
    ensures AllAdmitting(Run(s, actions), k) && Run(s, actions) == s.(callers := Run(s, actions).callers)
    ensures |Run(s, actions).callers| == |s.callers|
  {
    if k == 0 {
      actions := [];
    } else {
      var before := EveryoneCounts(s, k - 1);
      var t := Run(s, before);
      var t1 := Next(t, Advance(k - 1));
      RunAppends(s, before, [Advance(k - 1)]);
      RunOne(t, Advance(k - 1));
      RunAppends(s, before + [Advance(k - 1)], [Advance(k - 1)]);
      RunOne(t1, Advance(k - 1));
      TwoCounts(t, k - 1);
      actions := before + [Advance(k - 1)] + [Advance(k - 1)];
    }
  }

  /** Callers from k on still have to promote somebody. */
  predicate AdmittingFrom(s: State, k: nat) {
    k <= |s.callers| && forall i :: k <= i < |s.callers| ==> s.callers[i] == Admitting
  }

  /** The three commands with which an admitting caller promotes the first waiting token. */
  lemma ThreeCommands(s: State, i: nat)
    requires i < |s.callers| && s.callers[i] == Admitting && s.waiting != []
    ensures var token := s.waiting[0].member;
            var t := Run(s, [Advance(i)] + [Advance(i)] + [Advance(i)]);
            && t.callers == s.callers[i := Idle] && t.waiting == Remove(s.waiting, token)
            && t.active == Add(s.active, s.clock, token)
  {
    var token := s.waiting[0].member;
    var t1 := Next(s, Advance(i));
    assert t1.callers == s.callers[i := Fetched(token)] && t1.waiting == s.waiting && t1.active == s.active;
    var t2 := Next(t1, Advance(i));
    assert t2.callers == s.callers[i := Removed(token)];
    RunOne(s, Advance(i));
    RunAppends(s, [Advance(i)], [Advance(i)]);
    RunOne(t1, Advance(i));
    RunAppends(s, [Advance(i)] + [Advance(i)], [Advance(i)]);
    RunOne(t2, Advance(i));
    assert Next(t2, Advance(i)).callers == s.callers[i := Idle];
  }

  /** Nothing but commands of caller i. */
  predicate Only(actions: seq<Action>, i: nat) {
    forall k :: 0 <= k < |actions| ==> actions[k] == Advance(i)
  }

  lemma {:induction false} CommandsKeepTime(s: State, actions: seq<Action>, i: nat)
    requires Only(actions, i)
    ensures Run(s, actions).clock == s.clock && Run(s, actions).maxCount == s.maxCount
  {
    if actions != [] {
      CommandsKeepTime(s, actions[..|actions| - 1], i);
    }
  }

  /** One round of a caller that sees room and somebody waiting. */
  lemma OneRound(s: State, i: nat) returns (actions: seq<Action>)
    requires i < |s.callers| && s.callers[i] == Idle && |s.active| < s.maxCount && s.waiting != []
    ensures Only(actions, i)
    ensures var token, t := s.waiting[0].member, Run(s, actions);
            && t.callers == s.callers && t.clock == s.clock && t.maxCount == s.maxCount
            && t.waiting == Remove(s.waiting, token) && t.active == Add(s.active, s.clock, token)
  {
    var a := Advance(i);
    var admitted := s.(callers := s.callers[i := Admitting]);
    TwoCounts(s, i);
    RunOne(s, a);
    RunAppends(s, [a], [a]);
    RunOne(Next(s, a), a);
    ThreeCommands(admitted, i);
    RunAppends(s, [a] + [a], [a] + [a] + [a]);
    actions := [a] + [a] + ([a] + [a] + [a]);
    CommandsKeepTime(s, actions, i);
  }

  lemma {:induction false} RoundsUpdate(s: State, i: nat, waiting: SortedSet, active: SortedSet, promoted: nat)
    returns (actions: seq<Action>)
    requires i < |s.callers| && s.callers[i] == Idle
    requires Queue.Promoted(waiting, active, s.waiting, s.active, promoted, s.maxCount, s.clock, s.clock)
    ensures Only(actions, i)
    ensures var t := Run(s, actions);
            && t.callers == s.callers && (|t.active| >= t.maxCount || t.waiting == []) && t.maxCount == s.maxCount
            && Queue.Updated(waiting, active, t.waiting, t.active, s.maxCount, s.clock, s.clock)
    decreases |s.waiting|
  {
    if |s.active| >= s.maxCount || s.waiting == [] {
      actions := [];
      Queue.AllPromoted(waiting, active, s.waiting, s.active, promoted, s.maxCount, s.clock, s.clock);
    } else {
      var first := RoundPromotes(s, i, waiting, active, promoted);
      var rest := RoundsUpdate(Run(s, first), i, waiting, active, promoted + 1);
      RunAppends(s, first, rest);
      actions := first + rest;
    }
  }

  lemma RoundPromotes(s: State, i: nat, waiting: SortedSet, active: SortedSet, promoted: nat)
    returns (actions: seq<Action>)
    requires i < |s.callers| && s.callers[i] == Idle && |s.active| < s.maxCount && s.waiting != []
    requires Queue.Promoted(waiting, active, s.waiting, s.active, promoted, s.maxCount, s.clock, s.clock)
    ensures Only(actions, i)
    ensures var t := Run(s, actions);
            && t.callers == s.callers && t.clock == s.clock && t.maxCount == s.maxCount
            && |t.waiting| < |s.waiting|
            && Queue.Promoted(waiting, active, t.waiting, t.active, promoted + 1, s.maxCount, s.clock, s.clock)
  {
    actions := OneRound(s, i);
    Queue.PromoteFirst(waiting, active, s.waiting, s.active, promoted, s.maxCount, s.clock, s.clock, s.clock);
  }

  /** A caller that nobody interrupts does what the method does: its commands update the
      queues as QueueRankingService.UpdateEntireQueue promises. */
  lemma UninterruptedUpdate(s: State, i: nat) returns (actions: seq<Action>)
    requires Queue.QueueOk(s.waiting) && Queue.QueueOk(s.active) && i < |s.callers| && s.callers[i] == Idle
    ensures Only(actions, i)
    ensures var t := Run(s, actions);
            && t.callers == s.callers && (|t.active| >= t.maxCount || t.waiting == [])
            && Queue.Updated(s.waiting, s.active, t.waiting, t.active, s.maxCount, s.clock, s.clock)
  {
    Queue.NothingPromoted(s.waiting, s.active, s.maxCount, s.clock);
    actions := RoundsUpdate(s, i, s.waiting, s.active, 0);
  }

  /** One admitting caller fetches, removes and adds the first waiting token. */
  lemma OnePromotes(s: State, i: nat) returns (actions: seq<Action>)
    requires QueuesValid(s) && i < |s.callers| && s.callers[i] == Admitting && s.waiting != []
    requires s.waiting[0].member !in Members(s.active)
    ensures var t := Run(s, actions);
            && t.callers == s.callers[i := Idle] && t.waiting == s.waiting[1..] && QueuesValid(t)
            && |t.active| == |s.active| + 1
            && Members(t.active) == Members(s.active) + {s.waiting[0].member}
  {
    var token := s.waiting[0].member;
    actions := [Advance(i)] + [Advance(i)] + [Advance(i)];
    ThreeCommands(s, i);
    RemoveFirst(s.waiting);
    AddIsValid(s.active, s.clock, token);
  }

  lemma {:induction false} EveryonePromotes(s: State, k: nat) returns (actions: seq<Action>)
    requires QueuesValid(s) && AdmittingFrom(s, k) && |s.waiting| >= |s.callers| - k
    requires Members(s.waiting) !! Members(s.active)
    ensures |Run(s, actions).active| == |s.active| + |s.callers| - k
    decreases |s.callers| - k
  {
    if k == |s.callers| {
      actions := [];
    } else {
      assert s.waiting[0].member in Members(s.waiting);
      var first := OnePromotes(s, k);
      var t := Run(s, first);
      assert forall m :: m in Members(t.waiting) ==> m in Members(s.waiting);
      assert s.waiting[0].member !in Members(t.waiting);
      var rest := EveryonePromotes(t, k + 1);
      RunAppends(s, first, rest);
      actions := first + rest;
    }
  }

  /** The bound is exact: whenever the active queue is one short of full, the n
      callers are about to start and n tokens wait, some interleaving of nothing but
      their commands overshoots to maxCount + n - 1. */
  lemma BoundIsReached(s: State) returns (actions: seq<Action>)
    requires QueuesValid(s) && AllAdmitting(s, 0) && |s.callers| >= 1
    requires |s.active| + 1 == s.maxCount && |s.waiting| >= |s.callers|
    requires Members(s.waiting) !! Members(s.active)
    ensures |Run(s, actions).active| == s.maxCount + |s.callers| - 1
  {
    var count := EveryoneCounts(s, |s.callers|);
    var promote := EveryonePromotes(Run(s, count), 0);
    RunAppends(s, count, promote);
    actions := count + promote;
  }

  lemma ReachableRun(n: nat, maxCount: nat, s: State, actions: seq<Action>)
    requires Reachable(n, maxCount, s)
    ensures Reachable(n, maxCount, Run(s, actions))
  {
    var before :| s == Run(Initial(n, maxCount), before);
    RunAppends(Initial(n, maxCount), before, actions);
  }

  lemma ReachableNext(n: nat, maxCount: nat, s: State, a: Action)
    requires Reachable(n, maxCount, s)
    ensures Reachable(n, maxCount, Next(s, a))
  {
    ReachableRun(n, maxCount, s, [a]);
    RunOne(s, a);
  }

  /** k tokens wait, everybody is idle, nobody is active, and names of length k or more are fresh. */
  ghost predicate Filled(s: State, k: nat) {
    && QueuesValid(s) && AllAdmitting(s, 0) && |s.waiting| == k && s.active == []
    && (forall t :: t in s.arrival ==> |t| < k)
    && (forall t :: t in Members(s.waiting) ==> t in s.arrival)
    && s.added <= s.arrival.Keys
  }

  lemma {:induction false} TokensArrive(n: nat, maxCount: nat, k: nat) returns (s: State)
    requires n >= 1
    ensures Reachable(n, maxCount, s) && Filled(s, k) && |s.callers| == n && s.maxCount == maxCount
    decreases k
  {
    if k == 0 {
      s := Initial(n, maxCount);
      assert s == Run(Initial(n, maxCount), []);
    } else {
      var before := TokensArrive(n, maxCount, k - 1);
      var token := seq(k - 1, i => 'a');
      ReachableNext(n, maxCount, before, Arrive(token));
      var stamped := Next(before, Arrive(token));
      ReachableNext(n, maxCount, stamped, Enqueue(token));
      s := Next(stamped, Enqueue(token));
      AddIsValid(stamped.waiting, stamped.clock, token);
    }
  }

  /** Caller 0 counts, sees room, and promotes the first waiting token. */
  lemma CallerZeroPromotes(s: State) returns (actions: seq<Action>)
    requires QueuesValid(s) && AllAdmitting(s, 0) && |s.callers| >= 1
    requires |s.active| < s.maxCount && s.waiting != [] && Members(s.waiting) !! Members(s.active)
    ensures var t := Run(s, actions);
            && QueuesValid(t) && AllAdmitting(t, 0) && |t.callers| == |s.callers| && t.maxCount == s.maxCount
            && |t.active| == |s.active| + 1 && |t.waiting| == |s.waiting| - 1
            && Members(t.waiting) !! Members(t.active)
  {
    var count := EveryoneCounts(s, 1);
    var counted := Run(s, count);
    assert s.waiting[0].member in Members(s.waiting);
    var promote := OnePromotes(counted, 0);
    RunAppends(s, count, promote);
    actions := count + promote;
    var t := Run(counted, promote);
    assert t.waiting == s.waiting[1..];
    assert forall m :: m in Members(t.waiting) ==> m in Members(s.waiting);
    assert s.waiting[0].member !in Members(t.waiting);
    KeepsMaxCount(counted, promote);
  }

  lemma {:induction false} KeepsMaxCount(s: State, actions: seq<Action>)
    ensures Run(s, actions).maxCount == s.maxCount
  {
    if actions != [] {
      KeepsMaxCount(s, actions[..|actions| - 1]);
      NextKeepsCallers(Run(s, actions[..|actions| - 1]), actions[|actions| - 1]);
    }
  }

  lemma {:induction false} CallerZeroPromotesMany(s: State, j: nat) returns (actions: seq<Action>)
    requires QueuesValid(s) && AllAdmitting(s, 0) && |s.callers| >= 1
    requires |s.active| + j <= s.maxCount && j <= |s.waiting| && Members(s.waiting) !! Members(s.active)
    ensures var t := Run(s, actions);
            && QueuesValid(t) && AllAdmitting(t, 0) && |t.callers| == |s.callers| && t.maxCount == s.maxCount
            && |t.active| == |s.active| + j && |t.waiting| == |s.waiting| - j
            && Members(t.waiting) !! Members(t.active)
    decreases j
  {
    if j == 0 {
      actions := [];
    } else {
      var first := CallerZeroPromotes(s);
      var rest := CallerZeroPromotesMany(Run(s, first), j - 1);
      RunAppends(s, first, rest);
      actions := first + rest;
    }
  }

  /** The bound is exact: for every number of callers and every maximum of at least one
      some run reaches maxCount + n - 1 active tokens. */
  lemma BoundIsReachedFromStart(n: nat, maxCount: nat) returns (s: State)
    requires n >= 1 && maxCount >= 1
    ensures Reachable(n, maxCount, s) && |s.active| == maxCount + n - 1
  {
    var full := TokensArrive(n, maxCount, maxCount - 1 + n);
    var promote := CallerZeroPromotesMany(full, maxCount - 1);
    ReachableRun(n, maxCount, full, promote);
    var ready := Run(full, promote);
    var overshoot := BoundIsReached(ready);
    ReachableRun(n, maxCount, ready, overshoot);
    s := Run(ready, overshoot);
  }

  // ---------- no overtaking ----------

  ghost predicate Orderly(s: State) {
    && (forall e :: e in s.waiting ==> e.member in s.added && e.member in s.arrival && e.score == s.arrival[e.member])
    && (forall i :: 0 <= i < |s.callers| && s.callers[i].Fetched? ==> FirstInLine(s, s.callers[i].token))
    && (forall t :: t in s.taken ==> FirstInLine(s, t))
  }

  /** Nobody who had been added when `token` was fetched, with an earlier time, still waits. */
  ghost predicate FirstInLine(s: State, token: Token) {
    && token in s.arrival && token in s.seen && s.seen[token] <= s.added
    && forall e :: e in s.waiting && e.member in s.seen[token] ==> e.score >= s.arrival[token]
  }

  lemma HeadIsLeast(s: State)
    requires QueuesValid(s) && s.waiting != []
    ensures forall e :: e in s.waiting ==> e.score >= s.waiting[0].score
  {
    forall e | e in s.waiting ensures e.score >= s.waiting[0].score {
      FirstIsLeast(s.waiting, e);
    }
  }

  lemma FetchKeepsOrderly(s: State, i: nat)
    requires QueuesValid(s) && Orderly(s) && i < |s.callers| && s.callers[i].Admitting? && s.waiting != []
    ensures Orderly(Command(s, i))
  {
    var s' := Command(s, i);
    HeadIsLeast(s);
    assert s.waiting[0] in s.waiting;
    assert FirstInLine(s', s.waiting[0].member);
    forall t | FirstInLine(s, t) ensures FirstInLine(s', t) {
    }
  }

  lemma RemoveKeepsOrderly(s: State, i: nat)
    requires QueuesValid(s) && Orderly(s) && i < |s.callers| && s.callers[i].Fetched?
    ensures Orderly(Command(s, i))
  {
    var s' := Command(s, i);
    RemoveIsValid(s.waiting, s.callers[i].token);
    assert FirstInLine(s, s.callers[i].token);
    forall t | FirstInLine(s, t) ensures FirstInLine(s', t) {
    }
  }

  lemma CommandKeepsOrderly(s: State, i: nat)
    requires QueuesValid(s) && Orderly(s) && i < |s.callers|
    ensures Orderly(Command(s, i))
  {
    if s.callers[i].Admitting? && s.waiting != [] {
      FetchKeepsOrderly(s, i);
    } else if s.callers[i].Fetched? {
      RemoveKeepsOrderly(s, i);
    } else {
      var s' := Command(s, i);
      forall t | FirstInLine(s, t) ensures FirstInLine(s', t) {
      }
    }
  }

  lemma EnqueueKeepsOrderly(s: State, token: Token)
    requires QueuesValid(s) && Orderly(s) && token in s.arrival && token !in s.added
    ensures Orderly(Next(s, Enqueue(token)))
  {
    AddIsValid(s.waiting, s.arrival[token], token);
    var s' := Next(s, Enqueue(token));
    forall t | FirstInLine(s, t) ensures FirstInLine(s', t) {
    }
  }

  lemma ArriveKeepsOrderly(s: State, token: Token)
    requires Orderly(s)
    ensures Orderly(Next(s, Arrive(token)))
  {
    var s' := Next(s, Arrive(token));
    forall t | FirstInLine(s, t) ensures FirstInLine(s', t) {
    }
  }

  lemma FewerWaitingKeepOrderly(s: State, s': State)
    requires Orderly(s) && s' == s.(waiting := s'.waiting, active := s'.active)
    requires forall e :: e in s'.waiting ==> e in s.waiting
    ensures Orderly(s')
  {
    forall t | FirstInLine(s, t) ensures FirstInLine(s', t) {
    }
  }

  lemma NextKeepsOrderly(s: State, a: Action)
    requires QueuesValid(s) && Orderly(s)
    ensures Orderly(Next(s, a))
  {
    match a
    case Advance(i) =>
      if i < |s.callers| {
        CommandKeepsOrderly(s, i);
      }
    case Arrive(token) => ArriveKeepsOrderly(s, token);
    case Enqueue(token) =>
      if token in s.arrival && token !in s.added {
        EnqueueKeepsOrderly(s, token);
      }
    case Delete(token) =>
      RemoveIsValid(s.waiting, token);
      FewerWaitingKeepOrderly(s, Next(s, a));
    case Tick(_) =>
  }

  lemma {:induction false} RunKeepsOrderly(n: nat, maxCount: nat, actions: seq<Action>)
    requires n >= 1
    ensures Orderly(Run(Initial(n, maxCount), actions))
  {
    if actions != [] {
      RunKeepsOrderly(n, maxCount, actions[..|actions| - 1]);
      RunKeepsBounded(n, maxCount, actions[..|actions| - 1]);
      NextKeepsOrderly(Run(Initial(n, maxCount), actions[..|actions| - 1]), actions[|actions| - 1]);
    }
  }

  /** No overtaking, even among concurrent callers: once a token has been taken from
      the waiting queue, every token with an earlier time that had been added before the
      later one was fetched has been taken or deleted too. */
  lemma NoOvertaking(n: nat, maxCount: nat, s: State, earlier: Token, later: Token)
    requires n >= 1 && Reachable(n, maxCount, s)
    requires later in s.taken
    ensures later in s.arrival && later in s.seen
    ensures earlier in s.arrival && s.arrival[earlier] < s.arrival[later] && earlier in s.seen[later] ==>
              earlier !in Members(s.waiting)
  {
    var actions :| s == Run(Initial(n, maxCount), actions);
    RunKeepsOrderly(n, maxCount, actions);
    assert FirstInLine(s, later);
  }

  /** Added once, and no longer waiting. */
  predicate Gone(s: State, token: Token) {
    token in s.added && token !in Members(s.waiting)
  }

  lemma NextKeepsGone(s: State, a: Action, token: Token)
    requires QueuesValid(s) && Gone(s, token)
    ensures Gone(Next(s, a), token)
  {
    match a
    case Advance(i) =>
      if i < |s.callers| && s.callers[i].Fetched? {
        RemoveIsValid(s.waiting, s.callers[i].token);
      }
    case Enqueue(t) =>
      if t in s.arrival {
        AddIsValid(s.waiting, s.arrival[t], t);
      }
    case Delete(t) => RemoveIsValid(s.waiting, t);
    case _ =>
  }

  lemma {:induction false} GoneStaysGone(s: State, actions: seq<Action>, token: Token)
    requires QueuesValid(s) && Gone(s, token)
    ensures QueuesValid(Run(s, actions)) && Gone(Run(s, actions), token)
  {
    if actions != [] {
      GoneStaysGone(s, actions[..|actions| - 1], token);
      NextKeepsGone(Run(s, actions[..|actions| - 1]), actions[|actions| - 1], token);
      NextKeepsQueuesValid(Run(s, actions[..|actions| - 1]), actions[|actions| - 1]);
    }
  }

  /** Once the later token has been taken, the earlier one is never found waiting in any
      continuation, now included, if and only if it has been added and is gone. */
  lemma NeverWaitsExactlyWhen(n: nat, maxCount: nat, s: State, earlier: Token)
    requires n >= 1 && Reachable(n, maxCount, s) && earlier in s.arrival
    ensures MayWait(s, earlier) <==> !Gone(s, earlier)
  {
    RunKeepsValid(n, maxCount, s);
    if Gone(s, earlier) {
      forall actions ensures earlier !in Members(Run(s, actions).waiting) {
        GoneStaysGone(s, actions, earlier);
      }
    } else {
      PresentMayWait(s, earlier);
    }
  }

  /** Some continuation finds the token waiting. */
  ghost predicate MayWait(s: State, token: Token) {
    exists actions :: token in Members(Run(s, actions).waiting)
  }

  lemma PresentMayWait(s: State, token: Token)
    requires QueuesValid(s) && token in s.arrival && !Gone(s, token)
    ensures MayWait(s, token)
  {
    if token in s.added {
      assert Run(s, []) == s;
    } else {
      AddIsValid(s.waiting, s.arrival[token], token);
      RunOne(s, Enqueue(token));
      assert token in Members(Run(s, [Enqueue(token)]).waiting);
    }
  }

  /** Some continuation in which `later` has been taken while `earlier` waits. */
  ghost predicate MayOvertake(s: State, later: Token, earlier: Token) {
    exists actions :: later in Run(s, actions).taken && earlier in Members(Run(s, actions).waiting)
  }

  /** Where an interleaving can let a token overtake an earlier one: from the moment a
      caller is about to fetch it, if and only if the earlier one, having read its time,
      has not been added yet. */
  lemma OvertakenExactlyWhen(n: nat, maxCount: nat, s: State, i: nat, earlier: Token)
    requires n >= 1 && Reachable(n, maxCount, s)
    requires i < |s.callers| && s.callers[i] == Admitting && s.waiting != []
    requires s.waiting[0].member in s.arrival && earlier in s.arrival
    requires s.arrival[earlier] < s.arrival[s.waiting[0].member]
    ensures MayOvertake(s, s.waiting[0].member, earlier) <==> earlier !in s.added
  {
    RunKeepsValid(n, maxCount, s);
    if earlier in s.added {
      AddedEarlierIsGone(n, maxCount, s, earlier);
      forall actions ensures earlier !in Members(Run(s, actions).waiting) {
        GoneStaysGone(s, actions, earlier);
      }
    } else {
      var actions := TakeFirst(s, i, earlier);
    }
  }

  /** Nobody earlier than the head waits. */
  lemma AddedEarlierIsGone(n: nat, maxCount: nat, s: State, earlier: Token)
    requires n >= 1 && Reachable(n, maxCount, s) && s.waiting != [] && earlier in s.added
    requires s.waiting[0].member in s.arrival && earlier in s.arrival
    requires s.arrival[earlier] < s.arrival[s.waiting[0].member]
    ensures Gone(s, earlier)
  {
    RunKeepsValid(n, maxCount, s);
    var actions :| s == Run(Initial(n, maxCount), actions);
    RunKeepsOrderly(n, maxCount, actions);
    HeadIsLeast(s);
    assert s.waiting[0] in s.waiting;
  }

  /** The admitting caller takes the first waiting token; then `token` is added. */
  lemma TakeFirst(s: State, i: nat, token: Token) returns (actions: seq<Action>)
    requires QueuesValid(s) && i < |s.callers| && s.callers[i] == Admitting && s.waiting != []
    requires token in s.arrival && token !in s.added
    ensures s.waiting[0].member in Run(s, actions).taken && token in Members(Run(s, actions).waiting)
  {
    var first := s.waiting[0].member;
    assert s.waiting[0] in s.waiting;
    var t1 := Next(s, Advance(i));
    var t2 := Next(t1, Advance(i));
    assert t1.callers[i] == Fetched(first) && first in t2.taken;
    actions := [Advance(i)] + [Advance(i)] + [Enqueue(token)];
    RunOne(s, Advance(i));
    RunAppends(s, [Advance(i)], [Advance(i)]);
    RunOne(t1, Advance(i));
    RunAppends(s, [Advance(i)] + [Advance(i)], [Enqueue(token)]);
    RunOne(t2, Enqueue(token));
    RemoveIsValid(s.waiting, first);
    AddIsValid(t2.waiting, s.arrival[token], token);
  }

  /** A token whose ZADD comes after a later one was fetched is overtaken by it: `a`
      gets its time first, and is added after `b` has been promoted. */
  lemma LateArrivalIsOvertaken(n: nat, maxCount: nat, a: Token, b: Token) returns (s: State)
    requires n >= 1 && maxCount >= 1 && a != b
    ensures Reachable(n, maxCount, s) && a in Members(s.waiting) && b in s.taken
    ensures a in s.arrival && b in s.arrival && s.arrival[a] < s.arrival[b]
  {
    var waiting := LaterOneWaits(n, maxCount, a, b);
    var taken := LaterOneIsTaken(waiting, n, maxCount, a, b);
    ReachableNext(n, maxCount, taken, Enqueue(a));
    s := Next(taken, Enqueue(a));
    RunKeepsValid(n, maxCount, taken);
    AddIsValid(taken.waiting, taken.arrival[a], a);
  }

  lemma RunKeepsValid(n: nat, maxCount: nat, s: State)
    requires n >= 1 && Reachable(n, maxCount, s)
    ensures QueuesValid(s)
  {
    var actions :| s == Run(Initial(n, maxCount), actions);
    RunKeepsBounded(n, maxCount, actions);
  }

  /** `a` and `b` have read the clock, at 0 and 1, and only `b` has been added. */
  ghost predicate OnlyLaterWaits(s: State, n: nat, maxCount: nat, a: Token, b: Token) {
    && AllAdmitting(s, 0) && |s.callers| == n && s.maxCount == maxCount
    && s.waiting == [Entry(1, b)] && s.active == [] && s.added == {b}
    && a in s.arrival && s.arrival[a] == 0 && b in s.arrival && s.arrival[b] == 1
  }

  lemma StartIsReachable(n: nat, maxCount: nat) returns (s: State)
    ensures Reachable(n, maxCount, s) && AllAdmitting(s, 0) && |s.callers| == n && s.maxCount == maxCount
    ensures s.waiting == [] && s.active == [] && s.arrival == map[] && s.added == {} && s.clock == 0
  {
    s := Initial(n, maxCount);
    assert s == Run(Initial(n, maxCount), []);
  }

  /** Both have read the clock, neither has been added. */
  lemma BothArrive(n: nat, maxCount: nat, a: Token, b: Token) returns (s: State)
    requires a != b
    ensures Reachable(n, maxCount, s) && AllAdmitting(s, 0) && |s.callers| == n && s.maxCount == maxCount
    ensures s.waiting == [] && s.active == [] && s.added == {}
    ensures a in s.arrival && s.arrival[a] == 0 && b in s.arrival && s.arrival[b] == 1
  {
    var s0 := StartIsReachable(n, maxCount);
    ReachableNext(n, maxCount, s0, Arrive(a));
    var s1 := Next(s0, Arrive(a));
    ReachableNext(n, maxCount, s1, Tick(1));
    var s2 := Next(s1, Tick(1));
    ReachableNext(n, maxCount, s2, Arrive(b));
    s := Next(s2, Arrive(b));
  }

  lemma LaterOneWaits(n: nat, maxCount: nat, a: Token, b: Token) returns (s: State)
    requires n >= 1 && a != b
    ensures Reachable(n, maxCount, s) && OnlyLaterWaits(s, n, maxCount, a, b)
  {
    var before := BothArrive(n, maxCount, a, b);
    ReachableNext(n, maxCount, before, Enqueue(b));
    AddToEmpty(1, b);
    s := Next(before, Enqueue(b));
  }

  lemma LaterOneIsTaken(s: State, n: nat, maxCount: nat, a: Token, b: Token) returns (t: State)
    requires n >= 1 && maxCount >= 1 && a != b && Reachable(n, maxCount, s) && OnlyLaterWaits(s, n, maxCount, a, b)
    ensures Reachable(n, maxCount, t) && b in t.taken && t.arrival == s.arrival && t.added == s.added
  {
    var count := EveryoneCounts(s, 1);
    ReachableRun(n, maxCount, s, count);
    var s1 := Run(s, count);
    ReachableNext(n, maxCount, s1, Advance(0));
    var s2 := Command(s1, 0);
    assert s2.callers[0] == Fetched(b);
    ReachableNext(n, maxCount, s2, Advance(0));
    t := Command(s2, 0);
    assert s2.waiting[0] in s2.waiting;
  }
}

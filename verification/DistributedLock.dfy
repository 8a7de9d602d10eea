/** The Redis lock: what one withLock call does, and when holders exclude each other. */
module DistributedLock {
  import opened Sums
  import opened Tables

  type Key = string

  datatype LockError = LockNotAcquired | ActionFailed(message: string) | ReleaseFailed

  datatype Command =
    | SetNx(key: Key, ttl: nat, granted: bool)
    | Sleep(ms: nat)
    | RunAction
    | Del(key: Key)

  /** The first attempt that Redis grants, among the first n; n if none is. */
  function FirstGrant(replies: seq<bool>, n: nat): (k: nat)
    requires n <= |replies|
    ensures k <= n
    ensures forall i :: 0 <= i < k ==> !replies[i]
    ensures k < n ==> replies[k]
  {
    if n == 0 then 0
    else
      var k := FirstGrant(replies, n - 1);
      if k < n - 1 then k else if replies[n - 1] then n - 1 else n
  }

  /** k refused attempts, each followed by the pause. */
  function Refusals(key: Key, ttl: nat, k: nat, interval: nat): seq<Command> {
    if k == 0 then [] else Refusals(key, ttl, k - 1, interval) + [SetNx(key, ttl, false), Sleep(interval)]
  }

  /** Everything a withLock call does, in order. */
  function Script(key: Key, ttl: nat, replies: seq<bool>, maxRetry: nat, interval: nat): seq<Command>
    requires maxRetry <= |replies|
  {
    var k := FirstGrant(replies, maxRetry);
    Refusals(key, ttl, k, interval) + if k < maxRetry then [SetNx(key, ttl, true), RunAction, Del(key)] else []
  }

  /** `trace` records what the service did. Redis' answers to the attempts (an error
      counts as a refusal) and the action's outcome come from outside. */
  class DistributedLockService {
    var trace: seq<Command>

    constructor ()
      ensures trace == []
    {
      trace := [];
    }

    method AcquireLock(key: Key, ttl: nat, reply: bool) returns (acquired: bool)
      modifies this
      ensures acquired == reply && trace == old(trace) + [SetNx(key, ttl, reply)]
    {
      trace := trace + [SetNx(key, ttl, reply)];
      acquired := reply;
    }

    method ReleaseLock(key: Key)
      modifies this
      ensures trace == old(trace) + [Del(key)]
    {
      trace := trace + [Del(key)];
    }

    /** The action's own result, normal or exceptional, or the error after maxRetry
        refusals; the lock is released in either case of the former, not in the latter.
        An error while releasing hides the action's result, even a normal one. */
    method WithLock<T>(key: Key, ttl: nat, action: Result<T, string>, replies: seq<bool>, releaseFails: bool,
                       maxRetry: nat, retryInterval: nat) returns (r: Result<T, LockError>)
      requires maxRetry <= |replies|
      modifies this
      ensures trace == old(trace) + Script(key, ttl, replies, maxRetry, retryInterval)
      ensures r == if FirstGrant(replies, maxRetry) == maxRetry then Failure(LockNotAcquired)
                   else if releaseFails then Failure(ReleaseFailed)
                   else match action case Success(v) => Success(v) case Failure(m) => Failure(ActionFailed(m))
    {
      var lockAcquired := false;
      ghost var k := FirstGrant(replies, maxRetry);
      ghost var before := trace;
      for i := 0 to maxRetry
        invariant !lockAcquired && i <= k
        invariant trace == before + Refusals(key, ttl, i, retryInterval)
      {
        lockAcquired := AcquireLock(key, ttl, replies[i]);
        if lockAcquired {
          break;
        }
        trace := trace + [Sleep(retryInterval)];
        assert trace == before + Refusals(key, ttl, i + 1, retryInterval);
      }
      if !lockAcquired {
        assert trace == before + (Refusals(key, ttl, k, retryInterval) + []);
        return Failure(LockNotAcquired);
      }
      trace := trace + [RunAction];
      match action {
        case Success(v) => r := Success(v);
        case Failure(m) => r := Failure(ActionFailed(m));
      }
      ReleaseLock(key);
      if releaseFails {
        r := Failure(ReleaseFailed);
      }
      assert trace == before + (Refusals(key, ttl, k, retryInterval) + [SetNx(key, ttl, true), RunAction, Del(key)]);
    }
  }

  function IsAction(c: Command): int { if c.RunAction? then 1 else 0 }
  function IsSetNx(c: Command): int { if c.SetNx? then 1 else 0 }
  function IsDel(c: Command): int { if c.Del? then 1 else 0 }

  lemma {:induction false} RefusalCounts(key: Key, ttl: nat, k: nat, interval: nat)
    ensures var s := Refusals(key, ttl, k, interval);
            Sum(s, IsAction) == 0 && Sum(s, IsSetNx) == k && Sum(s, IsDel) == 0
  {
    if k > 0 {
      RefusalCounts(key, ttl, k - 1, interval);
      var s := Refusals(key, ttl, k - 1, interval);
      AppendTwo(s, SetNx(key, ttl, false), Sleep(interval), IsAction);
      AppendTwo(s, SetNx(key, ttl, false), Sleep(interval), IsSetNx);
      AppendTwo(s, SetNx(key, ttl, false), Sleep(interval), IsDel);
    }
  }

  lemma AppendTwo(s: seq<Command>, a: Command, b: Command, g: Command -> int)
    ensures Sum(s + [a, b], g) == Sum(s, g) + g(a) + g(b)
  {
    SumAppend(s, a, g);
    SumAppend(s + [a], b, g);
    assert s + [a] + [b] == s + [a, b];
  }

  /** Each call tries at most maxRetry times and runs its action at most once: once
      if some attempt was granted, and then it deletes the key exactly once, last;
      not at all otherwise, and then it deletes nothing. */
  lemma CallRunsActionAtMostOnce(key: Key, ttl: nat, replies: seq<bool>, maxRetry: nat, interval: nat)
    requires maxRetry <= |replies|
    ensures var s := Script(key, ttl, replies, maxRetry, interval);
            var granted := exists i :: 0 <= i < maxRetry && replies[i];
            && Sum(s, IsSetNx) <= maxRetry
            && Sum(s, IsAction) == Sum(s, IsDel) == (if granted then 1 else 0)
            && (granted ==> |s| >= 2 && s[|s| - 1] == Del(key) && s[|s| - 2] == RunAction)
  {
    var k := FirstGrant(replies, maxRetry);
    RefusalCounts(key, ttl, k, interval);
    var s := Refusals(key, ttl, k, interval);
    if k < maxRetry {
      CountsAfter(s, key, ttl, IsAction);
      CountsAfter(s, key, ttl, IsSetNx);
      CountsAfter(s, key, ttl, IsDel);
    } else {
      assert s + [] == s;
    }
  }

  lemma CountsAfter(s: seq<Command>, key: Key, ttl: nat, g: Command -> int)
    ensures Sum(s + [SetNx(key, ttl, true), RunAction, Del(key)], g)
            == Sum(s, g) + g(SetNx(key, ttl, true)) + g(RunAction) + g(Del(key))
  {
    AppendTwo(s, SetNx(key, ttl, true), RunAction, g);
    SumAppend(s + [SetNx(key, ttl, true), RunAction], Del(key), g);
    assert s + [SetNx(key, ttl, true), RunAction] + [Del(key)] == s + [SetNx(key, ttl, true), RunAction, Del(key)];
  }

  lemma {:induction false} RefusalsSpelledOut(key: Key, ttl: nat, k: nat, interval: nat)
    ensures var s := Refusals(key, ttl, k, interval);
            && |s| == 2 * k
            && forall j :: 0 <= j < k ==> s[2 * j] == SetNx(key, ttl, false) && s[2 * j + 1] == Sleep(interval)
  {
    if k > 0 {
      RefusalsSpelledOut(key, ttl, k - 1, interval);
    }
  }

  /** A call in full: one attempt with the key and its time to live for each refusal, each
      followed by the pause; then, if some attempt among the first maxRetry is granted,
      that attempt, the action and the release of the same key. */
  lemma ScriptSpelledOut(key: Key, ttl: nat, replies: seq<bool>, maxRetry: nat, interval: nat, k: nat)
    requires k <= maxRetry <= |replies|
    requires (forall j :: 0 <= j < k ==> !replies[j]) && (k < maxRetry ==> replies[k])
    ensures var s := Script(key, ttl, replies, maxRetry, interval);
            && |s| == 2 * k + (if k < maxRetry then 3 else 0)
            && (forall j :: 0 <= j < k ==> s[2 * j] == SetNx(key, ttl, false) && s[2 * j + 1] == Sleep(interval))
            && (k < maxRetry ==>
                  s[2 * k] == SetNx(key, ttl, true) && s[2 * k + 1] == RunAction && s[2 * k + 2] == Del(key))
  {
    RefusalsSpelledOut(key, ttl, k, interval);
    assert FirstGrant(replies, maxRetry) == k;
  }

  // ---------- exclusion under the time to live ----------

  /** A Redis entry lives until `until`; `owner` is auxiliary, the value stored is
      the same for everyone. */
  datatype Entry = Entry(owner: nat, until: nat)

  datatype Hold = Hold(key: Key, since: nat, ttl: nat)

  datatype State = State(entries: map<Key, Entry>, holders: map<nat, Hold>, clock: nat)

  datatype Action =
    | Acquire(process: nat, key: Key, ttl: nat)
    | Release(process: nat)
    | Tick(ms: nat)

  const IDLE := State(map[], map[], 0)

  /** SET NX succeeds when there is no entry or it has expired. DEL deletes whatever
      entry is there. */
  function Next(s: State, a: Action): State {
    match a
    case Acquire(process, key, ttl) =>
      if process in s.holders || (key in s.entries && s.clock < s.entries[key].until) then s
      else s.(entries := s.entries[key := Entry(process, s.clock + ttl)],
              holders := s.holders[process := Hold(key, s.clock, ttl)])
    case Release(process) =>
      if process !in s.holders then s
      else s.(entries := s.entries - {s.holders[process].key}, holders := s.holders - {process})
    case Tick(ms) => s.(clock := s.clock + ms)
  }

  function Run(s: State, actions: seq<Action>): State {
    if actions == [] then s else Next(Run(s, actions[..|actions| - 1]), actions[|actions| - 1])
  }

  /** Nobody holds the lock for longer than its time to live. */
  predicate InTime(s: State) {
    forall p :: p in s.holders ==> s.clock < s.holders[p].since + s.holders[p].ttl
  }

  ghost predicate AlwaysInTime(s: State, actions: seq<Action>) {
    InTime(Run(s, actions)) && (actions != [] ==> AlwaysInTime(s, actions[..|actions| - 1]))
  }

  /** Every holder's key still carries its own entry. */
  ghost predicate OwnEntries(s: State) {
    forall p :: p in s.holders ==>
      && s.holders[p].key in s.entries
      && s.entries[s.holders[p].key] == Entry(p, s.holders[p].since + s.holders[p].ttl)
  }

  lemma {:induction false} HoldersOwnTheirEntries(actions: seq<Action>)
    requires AlwaysInTime(IDLE, actions)
    ensures OwnEntries(Run(IDLE, actions))
  {
    if actions != [] {
      HoldersOwnTheirEntries(actions[..|actions| - 1]);
    }
  }

  /** If every holder finishes within its time to live, at most one action per key is
      running, and every release deletes the releaser's own entry. */
  lemma LockExcludes(actions: seq<Action>, p: nat, q: nat)
    requires AlwaysInTime(IDLE, actions)
    requires p in Run(IDLE, actions).holders && q in Run(IDLE, actions).holders
    ensures var s := Run(IDLE, actions);
            && (s.holders[p].key == s.holders[q].key ==> p == q)
            && s.holders[p].key in s.entries && s.entries[s.holders[p].key].owner == p
            && Next(s, Release(p)).entries == s.entries - {s.holders[p].key}
            && (p != q ==> Next(s, Release(p)).entries.Keys >= {s.holders[q].key})
  {
    HoldersOwnTheirEntries(actions);
  }

  ghost predicate Exclusive(s: State) {
    forall p, q :: p in s.holders && q in s.holders && s.holders[p].key == s.holders[q].key ==> p == q
  }

  /** Whoever comes next keeps the lock exclusive, on every key and with every time to
      live, if and only if no holder has outlived its own time to live. */
  lemma ExclusionSurvivesExactlyWhen(s: State, process: nat)
    requires OwnEntries(s) && Exclusive(s) && process !in s.holders
    ensures (forall key, ttl :: Exclusive(Next(s, Acquire(process, key, ttl)))) <==> InTime(s)
  {
    if !InTime(s) {
      var q :| q in s.holders && s.clock >= s.holders[q].since + s.holders[q].ttl;
      var key := s.holders[q].key;
      var s' := Next(s, Acquire(process, key, 0));
      assert process in s'.holders && q in s'.holders && s'.holders[process].key == s'.holders[q].key;
      assert !Exclusive(s');
    }
  }

  /** One overrun is enough: the second holder gets in, and the first one's release
      deletes the second one's entry and lets a third in. */
  lemma OverrunBreaksExclusion(key: Key)
    ensures var s1 := Next(Next(Next(IDLE, Acquire(1, key, 3000)), Tick(3000)), Acquire(2, key, 3000));
            var s2 := Next(Next(s1, Release(1)), Acquire(3, key, 3000));
            && s1.holders.Keys == {1, 2} && s1.holders[1].key == s1.holders[2].key == key
            && s1.entries[key].owner == 2
            && s2.holders.Keys == {2, 3} && s2.entries[key].owner == 3
  {
  }

  // ---------- one call on the machine ----------

  /** The key can be taken. */
  predicate Free(s: State, key: Key) {
    key !in s.entries || s.entries[key].until <= s.clock
  }

  /** What a command of `process` does to the machine. Redis counts a time to live in
      seconds, pauses and clock are in milliseconds. */
  function Execute(s: State, process: nat, c: Command): State {
    match c
    case SetNx(key, ttl, granted) => if granted then Next(s, Acquire(process, key, ttl * 1000)) else s
    case Sleep(ms) => Next(s, Tick(ms))
    case RunAction => s
    case Del(_) => Next(s, Release(process))
  }

  function ExecuteAll(s: State, process: nat, trace: seq<Command>): State {
    if trace == [] then s
    else Execute(ExecuteAll(s, process, trace[..|trace| - 1]), process, trace[|trace| - 1])
  }

  lemma ExecuteOneMore(s: State, process: nat, trace: seq<Command>, c: Command)
    ensures ExecuteAll(s, process, trace + [c]) == Execute(ExecuteAll(s, process, trace), process, c)
  {
    assert (trace + [c])[..|trace|] == trace;
  }

  /** The time after k pauses. */
  function After(clock: nat, k: nat, interval: nat): nat {
    if k == 0 then clock else After(clock, k - 1, interval) + interval
  }

  lemma {:induction false} AfterIs(clock: nat, k: nat, interval: nat)
    ensures After(clock, k, interval) == clock + k * interval
  {
    if k > 0 {
      AfterIs(clock, k - 1, interval);
      assert k * interval == (k - 1) * interval + interval;
    }
  }

  lemma {:induction false} LaterIsLater(clock: nat, j: nat, k: nat, interval: nat)
    requires j <= k
    ensures After(clock, j, interval) <= After(clock, k, interval)
  {
    if j < k {
      LaterIsLater(clock, j, k - 1, interval);
    }
  }

  lemma {:induction false} RefusalsWait(s: State, process: nat, key: Key, ttl: nat, k: nat, interval: nat)
    ensures ExecuteAll(s, process, Refusals(key, ttl, k, interval)) == s.(clock := After(s.clock, k, interval))
  {
    if k > 0 {
      var before := Refusals(key, ttl, k - 1, interval);
      RefusalsWait(s, process, key, ttl, k - 1, interval);
      ExecuteOneMore(s, process, before, SetNx(key, ttl, false));
      ExecuteOneMore(s, process, before + [SetNx(key, ttl, false)], Sleep(interval));
      assert Refusals(key, ttl, k, interval) == before + [SetNx(key, ttl, false)] + [Sleep(interval)];
    }
  }

  /** The answers Redis gives to a lone caller's attempts, a pause apart. */
  ghost predicate Answered(s: State, key: Key, replies: seq<bool>, interval: nat) {
    forall j :: 0 <= j < |replies| ==> (replies[j] <==> Free(s.(clock := After(s.clock, j, interval)), key))
  }

  /** What the granted attempt leaves: the process's own entry, for its whole time to live. */
  ghost predicate Holds(s: State, held: State, process: nat, key: Key, ttl: nat, at: nat) {
    && held == Next(s.(clock := at), Acquire(process, key, ttl * 1000))
    && held.entries == s.entries[key := Entry(process, at + ttl * 1000)]
    && held.holders == s.holders[process := Hold(key, at, ttl * 1000)]
  }

  lemma GrantHolds(s: State, process: nat, key: Key, ttl: nat, at: nat)
    requires process !in s.holders && Free(s.(clock := at), key)
    ensures var held := Execute(s.(clock := at), process, SetNx(key, ttl, true));
            && Holds(s, held, process, key, ttl, at)
            && Execute(held, process, Del(key)) == s.(clock := at, entries := s.entries - {key})
  {
    var held := Execute(s.(clock := at), process, SetNx(key, ttl, true));
    assert held.holders - {process} == s.holders;
    assert held.entries - {key} == s.entries - {key};
  }

  lemma ScriptParts(key: Key, ttl: nat, replies: seq<bool>, maxRetry: nat, interval: nat, k: nat)
    requires k < maxRetry <= |replies| && replies[k] && forall j :: 0 <= j < k ==> !replies[j]
    ensures var script, running := Script(key, ttl, replies, maxRetry, interval),
                                   Refusals(key, ttl, k, interval) + [SetNx(key, ttl, true)] + [RunAction];
            && script == running + [Del(key)] && |running| == 2 * k + 2
            && script[2 * k + 1] == RunAction && script[..2 * k + 2] == running
  {
    RefusalsSpelledOut(key, ttl, k, interval);
    assert FirstGrant(replies, maxRetry) == k;
  }

  lemma RunningHolds(s: State, process: nat, key: Key, ttl: nat, k: nat, interval: nat)
    requires process !in s.holders && Free(s.(clock := After(s.clock, k, interval)), key)
    ensures var running := Refusals(key, ttl, k, interval) + [SetNx(key, ttl, true)] + [RunAction];
            var at := After(s.clock, k, interval);
            && Holds(s, ExecuteAll(s, process, running), process, key, ttl, at)
            && ExecuteAll(s, process, running + [Del(key)]) == s.(clock := at, entries := s.entries - {key})
  {
    var waited, grant := Refusals(key, ttl, k, interval), SetNx(key, ttl, true);
    RefusalsWait(s, process, key, ttl, k, interval);
    ExecuteOneMore(s, process, waited, grant);
    ExecuteOneMore(s, process, waited + [grant], RunAction);
    ExecuteOneMore(s, process, waited + [grant] + [RunAction], Del(key));
    GrantHolds(s, process, key, ttl, After(s.clock, k, interval));
  }

  /** A call whose attempt k is the first one granted holds, while its action runs, the
      entry that Acquire leaves at that moment: its own, for its whole time to live; when it
      returns, neither its entry nor its hold is left and nobody else's is changed. */
  lemma CallHoldsItsEntry(s: State, process: nat, key: Key, ttl: nat, replies: seq<bool>, maxRetry: nat,
                          interval: nat, k: nat)
    requires process !in s.holders && Answered(s, key, replies, interval)
    requires k < maxRetry <= |replies| && replies[k] && forall j :: 0 <= j < k ==> !replies[j]
    ensures After(s.clock, k, interval) == s.clock + k * interval
    ensures var script, at := Script(key, ttl, replies, maxRetry, interval), After(s.clock, k, interval);
            && |script| == 2 * k + 3 && script[2 * k + 1] == RunAction
            && Holds(s, ExecuteAll(s, process, script[..2 * k + 2]), process, key, ttl, at)
            && ExecuteAll(s, process, script) == s.(clock := at, entries := s.entries - {key})
  {
    AfterIs(s.clock, k, interval);
    ScriptParts(key, ttl, replies, maxRetry, interval, k);
    RunningHolds(s, process, key, ttl, k, interval);
  }

  /** A lone caller outlasts somebody else's entry, and gets the lock, if and only if the
      entry is gone by its last attempt: with ten attempts 100 ms apart, an entry that has
      900 ms or less left to live. */
  lemma GetsLockExactlyWhen(s: State, key: Key, replies: seq<bool>, maxRetry: nat, interval: nat)
    requires 1 <= maxRetry <= |replies| && Answered(s, key, replies, interval)
    ensures FirstGrant(replies, maxRetry) < maxRetry <==>
            (key in s.entries ==> s.entries[key].until <= s.clock + (maxRetry - 1) * interval)
  {
    var k := FirstGrant(replies, maxRetry);
    AfterIs(s.clock, maxRetry - 1, interval);
    if k < maxRetry {
      LaterIsLater(s.clock, k, maxRetry - 1, interval);
      assert replies[k];
    } else {
      assert !replies[maxRetry - 1];
    }
  }
}

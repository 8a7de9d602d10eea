/** Payment tokens against the expiry of the reservations they were issued with. */
module PaymentTokens {
  import opened Tables

  const PAYMENT_EXPIRE_TTL := 300
  const SEAT_EXPIRE_TTL := 300 + 1

  /** One temporary reservation: its row's status, its token in Redis (valid while
      `clock < until`), and its delayed job. All times in milliseconds. */
  datatype Flow = Flow(status: ReservationStatus, tokenUntil: Option<nat>, jobAt: Option<nat>)

  datatype State = State(clock: nat, flows: seq<Flow>)

  /** temporaryReserve runs Commit, IssueToken and QueueJob in this order, each
      possibly much later than the one before, or never. */
  datatype Action =
    | Commit
    | IssueToken(i: nat)
    | QueueJob(i: nat)
    | DeleteToken(i: nat)
    | Confirm(i: nat)
    | Expire(i: nat)
    | Tick(ms: nat)

  function Update(s: State, i: nat, f: Flow): State
    requires i < |s.flows|
  {
    s.(flows := s.flows[i := f])
  }

  function Next(s: State, a: Action): State {
    match a
    case Commit => s.(flows := s.flows + [Flow(Pending, None, None)])
    case IssueToken(i) =>
      if i < |s.flows| && s.flows[i].tokenUntil.None? && s.flows[i].jobAt.None?
      then Update(s, i, s.flows[i].(tokenUntil := Some(s.clock + PAYMENT_EXPIRE_TTL * 1000))) else s
    case QueueJob(i) =>
      // Reached only once createToken has returned; the token may be gone again by then.
      if i < |s.flows| && s.flows[i].jobAt.None? && s.flows[i].tokenUntil.Some?
      then Update(s, i, s.flows[i].(jobAt := Some(s.clock + SEAT_EXPIRE_TTL * 1000))) else s
    case DeleteToken(i) =>
      if i < |s.flows| && s.flows[i].tokenUntil.Some?
      then Update(s, i, s.flows[i].(tokenUntil := Some(0))) else s
    case Confirm(i) =>
      if i < |s.flows| && s.flows[i].status == Pending then Update(s, i, s.flows[i].(status := Confirmed)) else s
    case Expire(i) =>
      if i < |s.flows| && s.flows[i].status == Pending && s.flows[i].jobAt.Some? && s.clock >= s.flows[i].jobAt.value
      then Update(s, i, s.flows[i].(status := Expired)) else s
    case Tick(ms) => s.(clock := s.clock + ms)
  }

  function Run(s: State, actions: seq<Action>): State {
    if actions == [] then s else Next(Run(s, actions[..|actions| - 1]), actions[|actions| - 1])
  }

  /** What verifyToken sees in Redis. */
  predicate TokenValid(s: State, i: nat)
    requires i < |s.flows|
  {
    s.flows[i].tokenUntil.Some? && s.clock < s.flows[i].tokenUntil.value
  }

  ghost predicate FlowOk(clock: nat, f: Flow) {
    && (f.jobAt.Some? ==> f.tokenUntil.Some? && f.tokenUntil.value + 1000 <= f.jobAt.value)
    && (f.tokenUntil.Some? ==> f.tokenUntil.value <= clock + PAYMENT_EXPIRE_TTL * 1000)
    && (f.status == Expired ==> f.jobAt.Some? && f.jobAt.value <= clock)
  }

  ghost predicate FlowsOk(s: State) {
    forall i :: 0 <= i < |s.flows| ==> FlowOk(s.clock, s.flows[i])
  }

  lemma NextKeepsFlows(s: State, a: Action)
    requires FlowsOk(s)
    ensures FlowsOk(Next(s, a))
  {
    var s' := Next(s, a);
    forall i | 0 <= i < |s'.flows| ensures FlowOk(s'.clock, s'.flows[i]) {
      assert i < |s.flows| ==> FlowOk(s.clock, s.flows[i]);
    }
  }

  lemma {:induction false} RunKeepsFlows(actions: seq<Action>)
    ensures FlowsOk(Run(State(0, []), actions))
  {
    if actions != [] {
      RunKeepsFlows(actions[..|actions| - 1]);
      NextKeepsFlows(Run(State(0, []), actions[..|actions| - 1]), actions[|actions| - 1]);
    }
  }

  /** In every timed run a token that is still valid was issued with a reservation
      that has not expired; a reservation expires at least one second after its
      token has become invalid. */
  lemma ValidTokenMeansNotExpired(actions: seq<Action>, i: nat)
    requires i < |Run(State(0, []), actions).flows|
    ensures var s := Run(State(0, []), actions);
            var f := s.flows[i];
            && (TokenValid(s, i) ==> f.status != Expired)
            && (f.status == Expired ==> f.tokenUntil.Some? && s.clock >= f.tokenUntil.value + 1000)
  {
    RunKeepsFlows(actions);
    assert FlowOk(Run(State(0, []), actions).clock, Run(State(0, []), actions).flows[i]);
  }

  /** A reservation made at the clock's time: its token issued and its job queued at once. */
  function Issued(clock: nat): State {
    Next(Next(Next(State(clock, []), Commit), IssueToken(0)), QueueJob(0))
  }

  /** The token is good for exactly five minutes, and the job expires the reservation
      exactly from five minutes and a second on. */
  lemma LifetimesExactly(clock: nat, ms: nat)
    ensures var later := Next(Issued(clock), Tick(ms));
            && |later.flows| == 1
            && (TokenValid(later, 0) <==> ms < 300000)
            && (Next(later, Expire(0)).flows[0].status == Expired <==> ms >= 301000)
  {
    assert Issued(clock).flows == [Flow(Pending, Some(clock + 300000), Some(clock + 301000))];
  }
}

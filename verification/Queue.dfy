/** The waiting and active queues as one caller sees them. */
module Queue {
  import opened Tables
  import opened SortedSets

  const SESSION_MS := 180000
  const QUEUE_TOKEN_TTL := 3600

  /** What a queue token was signed with; times in seconds. */
  datatype QueueClaim = QueueClaim(user: int, issuedAt: nat)

  /** What decoding a token gives at a time in milliseconds: nothing if its signature
      does not fit or its lifetime is over. */
  function Decoded(signed: Option<QueueClaim>, now: nat): (claim: Option<QueueClaim>)
    ensures claim.Some? <==> signed.Some? && now < (signed.value.issuedAt + QUEUE_TOKEN_TTL) * 1000
  {
    if signed.Some? && now / 1000 < signed.value.issuedAt + QUEUE_TOKEN_TTL then signed else None
  }

  datatype TokenStatus = Waiting | Processing

  /** How many tokens an update promotes: as long as the active queue is not full
      and somebody waits, the first of the waiting queue joins the active members. */
  function Promotions(waiting: SortedSet, active: set<Token>, maxCount: nat): (n: nat)
    ensures n <= |waiting|
  {
    if waiting == [] || |active| >= maxCount then 0
    else 1 + Promotions(waiting[1..], active + {waiting[0].member}, maxCount)
  }

  lemma MembersOfTail(waiting: SortedSet, active: set<Token>, k: nat)
    requires 1 <= k <= |waiting|
    ensures active + Members(waiting[..k]) == (active + {waiting[0].member}) + Members(waiting[1..][..k - 1])
  {
    assert waiting[..k] == [waiting[0]] + waiting[1..][..k - 1];
    MembersOfSlices(waiting[..k], 1);
    assert waiting[..k][..1] == [waiting[0]] && waiting[..k][1..] == waiting[1..][..k - 1];
  }

  /** An update leaves the active queue full or the waiting queue empty, and stops
      no later than that. */
  lemma {:induction false} PromotionsFillTheQueue(waiting: SortedSet, active: set<Token>, maxCount: nat, k: nat)
    requires k <= Promotions(waiting, active, maxCount)
    ensures var n := Promotions(waiting, active, maxCount);
            if k < n then |active + Members(waiting[..k])| < maxCount
            else |active + Members(waiting[..k])| >= maxCount || n == |waiting|
  {
    if k == 0 {
      assert active + Members(waiting[..0]) == active;
    } else {
      var rest, promoted := waiting[1..], active + {waiting[0].member};
      PromotionsFillTheQueue(rest, promoted, maxCount, k - 1);
      MembersOfTail(waiting, active, k);
      assert Promotions(waiting, active, maxCount) == 1 + Promotions(rest, promoted, maxCount);
    }
  }

  /** With the queues disjoint, an update moves exactly the first
      min(max(0, maxCount - |active|), |waiting|) tokens. */
  lemma {:induction false} PromotionsOfDisjointQueues(waiting: SortedSet, active: set<Token>, maxCount: nat)
    requires Valid(waiting) && Members(waiting) !! active
    ensures var room := if |active| < maxCount then maxCount - |active| else 0;
            Promotions(waiting, active, maxCount) == if room < |waiting| then room else |waiting|
  {
    if waiting != [] && |active| < maxCount {
      SlicesAreValid(waiting, 1);
      MembersOfSlices(waiting, 1);
      assert waiting[0].member in Members(waiting);
      assert waiting[..1] == [waiting[0]];
      PromotionsOfDisjointQueues(waiting[1..], active + {waiting[0].member}, maxCount);
    }
  }

  /** Who is left in the waiting queue moves up by exactly the number promoted. */
  lemma RanksDropByPromotions(waiting: SortedSet, n: nat, token: Token)
    requires Valid(waiting) && n <= |waiting| && token in Members(waiting[n..])
    ensures Rank(waiting[n..], token) == Rank(waiting, token) - n
  {
    SlicesAreValid(waiting, n);
    MembersOfSlices(waiting, n);
    var r := Rank(waiting[n..], token);
    RankOf(waiting, n + r);
  }

  /** Every active entry was there before, or is a promoted token's, stamped within [from, to]. */
  ghost predicate StampedWithin(active: SortedSet, before: SortedSet, promoted: set<Token>, from: nat, to: nat) {
    forall e :: e in active ==> e in before || (e.member in promoted && from <= e.score <= to)
  }

  ghost predicate QueueOk(z: SortedSet) {
    SortedSets.Valid(z) && forall e :: e in z ==> e.score >= 0
  }

  /** The queues after `promoted` promotions of an update that found waiting0 and active0. */
  ghost predicate Promoted(waiting0: SortedSet, active0: SortedSet, waiting: SortedSet, active: SortedSet,
                           promoted: nat, maxCount: nat, from: nat, to: nat)
  {
    && QueueOk(waiting) && QueueOk(active) && from <= to
    && promoted <= |waiting0| && waiting == waiting0[promoted..]
    && Members(active) == Members(active0) + Members(waiting0[..promoted])
    && promoted + Promotions(waiting, Members(active), maxCount) == Promotions(waiting0, Members(active0), maxCount)
    && StampedWithin(active, active0, Members(waiting0[..promoted]), from, to)
  }

  lemma StampMore(active': SortedSet, active: SortedSet, active0: SortedSet, promoted: set<Token>, token: Token,
                  from: nat, to: nat, now: nat)
    requires StampedWithin(active, active0, promoted, from, to) && from <= to <= now
    requires forall e :: e in active' ==> e == Entry(now, token) || e in active
    ensures StampedWithin(active', active0, promoted + {token}, from, now)
  {
  }

  /** What an update does: it moves exactly the first Promotions(...) tokens, in
      order, each stamped with a time during the call, and nothing else. */
  ghost predicate Updated(waiting0: SortedSet, active0: SortedSet, waiting: SortedSet, active: SortedSet,
                          maxCount: nat, from: nat, to: nat)
  {
    var n := Promotions(waiting0, Members(active0), maxCount);
    && waiting == waiting0[n..]
    && Members(active) == Members(active0) + Members(waiting0[..n])
    && StampedWithin(active, active0, Members(waiting0[..n]), from, to)
  }

  /** For disjoint queues an update moves exactly min(room, waiting) tokens, loses
      or duplicates none, and ends with the active queue full or the waiting queue
      empty. */
  lemma UpdateExactly(waiting0: SortedSet, active0: SortedSet, waiting: SortedSet, active: SortedSet,
                      maxCount: nat, from: nat, to: nat)
    requires QueueOk(waiting0) && QueueOk(active0) && QueueOk(active) && Members(waiting0) !! Members(active0)
    requires Updated(waiting0, active0, waiting, active, maxCount, from, to)
    ensures var room := if |active0| < maxCount then maxCount - |active0| else 0;
            var n := if room < |waiting0| then room else |waiting0|;
            && waiting == waiting0[n..] && Members(active) == Members(active0) + Members(waiting0[..n])
            && |active| == |active0| + n
            && (|active| >= maxCount || waiting == [])
    ensures Members(waiting) + Members(active) == Members(waiting0) + Members(active0)
    ensures Members(waiting) !! Members(active)
  {
    var n := Promotions(waiting0, Members(active0), maxCount);
    assert n == (var room := if |active0| < maxCount then maxCount - |active0| else 0;
                 if room < |waiting0| then room else |waiting0|) by {
      CardIsMembers(active0);
      PromotionsOfDisjointQueues(waiting0, Members(active0), maxCount);
    }
    SplitsDisjointly(waiting0, active0, n);
    ActiveGrowsBy(active0, active, waiting0[..n]);
  }

  lemma SplitsDisjointly(waiting0: SortedSet, active0: SortedSet, n: nat)
    requires SortedSets.Valid(waiting0) && n <= |waiting0| && Members(waiting0) !! Members(active0)
    ensures SortedSets.Valid(waiting0[..n])
    ensures Members(active0) !! Members(waiting0[..n])
    ensures Members(waiting0[n..]) + (Members(active0) + Members(waiting0[..n])) == Members(waiting0) + Members(active0)
    ensures Members(waiting0[n..]) !! Members(active0) + Members(waiting0[..n])
  {
    SlicesAreValid(waiting0, n);
    MembersOfSlices(waiting0, n);
  }

  lemma ActiveGrowsBy(active0: SortedSet, active: SortedSet, promoted: SortedSet)
    requires SortedSets.Valid(active0) && SortedSets.Valid(active) && SortedSets.Valid(promoted)
    requires Members(active0) !! Members(promoted) && Members(active) == Members(active0) + Members(promoted)
    ensures |active| == |active0| + |promoted|
  {
    CardIsMembers(active0);
    CardIsMembers(active);
    CardIsMembers(promoted);
  }

  lemma NothingPromoted(waiting: SortedSet, active: SortedSet, maxCount: nat, now: nat)
    requires QueueOk(waiting) && QueueOk(active)
    ensures Promoted(waiting, active, waiting, active, 0, maxCount, now, now)
  {
    assert waiting[0..] == waiting && Members(waiting[..0]) == {};
  }

  lemma AllPromoted(waiting0: SortedSet, active0: SortedSet, waiting: SortedSet, active: SortedSet,
                    promoted: nat, maxCount: nat, from: nat, to: nat)
    requires Promoted(waiting0, active0, waiting, active, promoted, maxCount, from, to)
    requires |active| >= maxCount || waiting == []
    ensures Updated(waiting0, active0, waiting, active, maxCount, from, to)
  {
    CardIsMembers(active);
  }

  /** One promotion: `waiting'` and `active'` are what ZREM and ZADD leave. */
  lemma PromoteOne(waiting0: SortedSet, active0: SortedSet, waiting: SortedSet, active: SortedSet,
                   waiting': SortedSet, active': SortedSet,
                   promoted: nat, maxCount: nat, from: nat, to: nat, now: nat)
    requires Promoted(waiting0, active0, waiting, active, promoted, maxCount, from, to)
    requires |active| < maxCount && waiting != [] && to <= now
    requires waiting' == waiting[1..]
    requires QueueOk(active') && Members(active') == Members(active) + {waiting[0].member}
    requires forall e :: e in active' ==> e == Entry(now, waiting[0].member) || e in active
    ensures Promoted(waiting0, active0, waiting', active', promoted + 1, maxCount, from, now)
  {
    CardIsMembers(active);
    MembersOfSlices(waiting0, promoted);
    SlicesAreValid(waiting, 1);
    StampMore(active', active, active0, Members(waiting0[..promoted]), waiting[0].member, from, to, now);
    assert waiting' == waiting0[promoted + 1..];
  }

  lemma PromoteFirst(waiting0: SortedSet, active0: SortedSet, waiting: SortedSet, active: SortedSet,
                     promoted: nat, maxCount: nat, from: nat, to: nat, now: nat)
    requires Promoted(waiting0, active0, waiting, active, promoted, maxCount, from, to)
    requires |active| < maxCount && waiting != [] && to <= now
    ensures Promoted(waiting0, active0, Remove(waiting, waiting[0].member), Add(active, now, waiting[0].member),
                     promoted + 1, maxCount, from, now)
    ensures |Remove(waiting, waiting[0].member)| < |waiting|
  {
    var waiting' := Remove(waiting, waiting[0].member);
    var active' := Add(active, now, waiting[0].member);
    assert waiting' == waiting[1..] by {
      RemoveFirst(waiting);
    }
    AddIsValid(active, now, waiting[0].member);
    PromoteOne(waiting0, active0, waiting, active, waiting', active', promoted, maxCount, from, to, now);
  }

  /** The service over its two Redis keys. `clock` is the time the next Date.now()
      may return or exceed. */
  class QueueRankingService {
    var waiting: SortedSet
    var active: SortedSet
    var maxCount: nat
    var clock: nat

    ghost predicate Valid()
      reads this
    {
      QueueOk(waiting) && QueueOk(active)
    }

    constructor ()
      ensures Valid() && waiting == [] && active == [] && maxCount == 10
    {
      waiting, active, maxCount, clock := [], [], 10, 0;
    }

    /** Time passes by an unknown amount. */
    method Now() returns (now: nat)
      modifies this`clock
      ensures clock == now >= old(clock)
    {
      var elapsed: nat :| true;
      clock := clock + elapsed;
      now := clock;
    }

    method AddToWaitingQueue(token: Token)
      requires Valid()
      modifies this`waiting, this`clock
      ensures Valid() && clock >= old(clock)
      ensures waiting == Add(old(waiting), clock, token)
    {
      var now := Now();
      AddIsValid(waiting, now, token);
      waiting := Add(waiting, now, token);
    }

    /** ZRANGE 0 0, ZREM and ZADD: the first waiting token becomes active. */
    method MoveFirst()
      requires waiting != []
      modifies this`waiting, this`active, this`clock
      ensures clock >= old(clock)
      ensures waiting == Remove(old(waiting), old(waiting)[0].member)
      ensures active == Add(old(active), clock, old(waiting)[0].member)
    {
      var token := waiting[0].member;
      waiting := Remove(waiting, token);
      var now := Now();
      active := Add(active, now, token);
    }

    /** Promotes from the waiting queue until the active queue is full or nobody waits. */
    method UpdateEntireQueue()
      requires Valid()
      modifies this`waiting, this`active, this`clock
      ensures Valid() && clock >= old(clock)
      ensures Updated(old(waiting), old(active), waiting, active, maxCount, old(clock), clock)
      ensures |active| >= maxCount || waiting == []
    {
      var activeCount := |active|;
      var waitingCount := |waiting|;
      ghost var waiting0, active0, from, promoted: nat := waiting, active, clock, 0;
      NothingPromoted(waiting, active, maxCount, clock);
      while activeCount < maxCount && waitingCount > 0
        invariant activeCount == |active| && waitingCount == |waiting|
        invariant Promoted(waiting0, active0, waiting, active, promoted, maxCount, from, clock)
        decreases waitingCount
      {
        ghost var waitingWas, activeWas, to := waiting, active, clock;
        MoveFirst();
        PromoteFirst(waiting0, active0, waitingWas, activeWas, promoted, maxCount, from, to, clock);
        promoted := promoted + 1;
        activeCount := |active|;
        waitingCount := |waiting|;
      }
      AllPromoted(waiting0, active0, waiting, active, promoted, maxCount, from, clock);
    }

    /** For a waiting token its rank, for an active one the time left of its session. */
    method CheckQueueStatus(token: Token) returns (waitingRank: int, activeRemainTime: int)
      requires Valid()
      modifies this`clock
      ensures Valid() && clock >= old(clock)
      ensures token in Members(waiting) ==>
                && 0 <= waitingRank < |waiting| && waiting[waitingRank].member == token
                && waitingRank == |set e | e in waiting && Before(e, waiting[waitingRank])|
                && activeRemainTime == -1
      ensures token !in Members(waiting) ==>
                && waitingRank == -1
                && if token in Members(active) && Score(active, token) + SESSION_MS > clock
                   then activeRemainTime == Score(active, token) + SESSION_MS - clock > 0
                   else activeRemainTime == -1
    {
      waitingRank, activeRemainTime := -1, -1;
      ghost var r := Rank(waiting, token);
      if r >= 0 {
        assert waiting[r] in waiting;
        RankIsAhead(waiting, r);
      }
      if Score(waiting, token) != -1 {
        waitingRank := Rank(waiting, token);
        return;
      }
      ghost var a := Rank(active, token);
      if a >= 0 {
        assert active[a] in active;
      }
      var now := Now();
      if Score(active, token) != -1 {
        var remaining := Score(active, token) + SESSION_MS - now;
        if remaining > 0 {
          activeRemainTime := remaining;
        }
      }
    }

    /** The token is in the queue it is needed in; an active one with session time left. */
    ghost predicate InPlace(token: Token, needed: TokenStatus, now: nat)
      reads this
      requires Valid()
    {
      match needed
      case Waiting => token in Members(waiting)
      case Processing =>
        && token !in Members(waiting)
        && token in Members(active) && Score(active, token) + SESSION_MS > now
    }

    /** queue-token: a token is good for waiting while it is in the waiting queue, and
        for processing while it is active (only) and its session has time left; in
        either case only in the hands of the user it was signed for. A token that is in
        place but was not signed here, or more than an hour ago, makes the call throw
        (None). The session was looked at when the clock said `seen`. */
    method VerifyToken(userId: int, token: Token, signed: Option<QueueClaim>, needed: TokenStatus)
      returns (valid: Option<bool>, ghost seen: nat)
      requires Valid()
      modifies this`clock
      ensures Valid() && clock >= seen >= old(clock)
      ensures valid == Some(true) <==>
              InPlace(token, needed, seen) && Decoded(signed, clock).Some? && signed.value.user == userId
      ensures valid == None <==> InPlace(token, needed, seen) && Decoded(signed, clock) == None
    {
      var waitingRank, activeRemainTime := CheckQueueStatus(token);
      seen := clock;
      if needed == Waiting && waitingRank == -1 {
        return Some(false), seen;
      }
      if needed == Processing && activeRemainTime == -1 {
        return Some(false), seen;
      }
      var now := Now();
      var payload := Decoded(signed, now);
      valid := if payload == None then None else Some(payload.value.user == userId);
    }

    /** Drops the token from both queues, and nobody else. */
    method DeleteToken(token: Token)
      requires Valid()
      modifies this`waiting, this`active
      ensures Valid()
      ensures waiting == Remove(old(waiting), token) && active == Remove(old(active), token)
      ensures Members(waiting) == Members(old(waiting)) - {token} && Members(active) == Members(old(active)) - {token}
    {
      RemoveIsValid(waiting, token);
      RemoveIsValid(active, token);
      waiting := Remove(waiting, token);
      active := Remove(active, token);
    }
  }
}

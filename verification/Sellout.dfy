/** The fast-sellout ranking: counters per schedule and a sorted set of durations. */
module Sellout {
  import opened Tables
  import opened SortedSets
  import R = SelloutRuns

  // ---------- ranking keys ----------

  const PREFIX := "schedule:"

  function Digit(d: nat): char
    requires d < 10
  {
    ['0', '1', '2', '3', '4', '5', '6', '7', '8', '9'][d]
  }

  function DigitValue(c: char): nat {
    if '0' <= c <= '9' then (c - '0') as int else 0
  }

  function Format(n: nat): string {
    if n < 10 then [Digit(n)] else Format(n / 10) + [Digit(n % 10)]
  }

  function Parse(s: string): nat {
    if s == [] then 0 else 10 * Parse(s[..|s| - 1]) + DigitValue(s[|s| - 1])
  }

  lemma {:induction false} ParseFormat(n: nat)
    ensures Parse(Format(n)) == n
  {
    if n >= 10 {
      ParseFormat(n / 10);
      assert Format(n)[..|Format(n)| - 1] == Format(n / 10);
    }
  }

  function DurationKey(scheduleId: nat): Token {
    PREFIX + Format(scheduleId)
  }

  /** Number(key.split('schedule:')[1]) */
  function ScheduleOf(key: Token): nat {
    Parse(key[if |PREFIX| <= |key| then |PREFIX| else |key|..])
  }

  /** A schedule is read back from its ranking key, so keys of different schedules differ. */
  lemma ScheduleOfDurationKey(scheduleId: nat)
    ensures ScheduleOf(DurationKey(scheduleId)) == scheduleId
  {
    ParseFormat(scheduleId);
    assert DurationKey(scheduleId)[|PREFIX|..] == Format(scheduleId);
  }

  // ---------- the service ----------

  datatype Schedule = Schedule(id: nat, totalSeats: int, startAt: int)

  datatype Item = Item(scheduleId: nat, startTime: int, selloutTime: int, duration: int, seatsCount: int)

  datatype Error = ScheduleNotFound

  /** ZRANGE 0 -1 WITHSCORES: members and scores alternate. */
  datatype Reply = Member(key: Token) | ScoreOf(score: int)

  function Flatten(z: SortedSet): (r: seq<Reply>)
    ensures |r| == 2 * |z|
    ensures forall i :: 0 <= i < |z| ==> r[2 * i] == Member(z[i].member) && r[2 * i + 1] == ScoreOf(z[i].score)
  {
    if z == [] then [] else Flatten(z[..|z| - 1]) + [Member(z[|z| - 1].member), ScoreOf(z[|z| - 1].score)]
  }

  /** A missing counter reads as 0, as Number(null) does. */
  function Read(m: map<nat, int>, scheduleId: nat): int {
    if scheduleId in m then m[scheduleId] else 0
  }

  function Started(m: map<nat, int>, schedules: seq<Schedule>, value: Schedule -> int): map<nat, int> {
    if schedules == [] then m
    else
      var last := schedules[|schedules| - 1];
      Started(m, schedules[..|schedules| - 1], value)[last.id := value(last)]
  }

  lemma {:induction false} StartedKeepsOthers(m: map<nat, int>, schedules: seq<Schedule>, value: Schedule -> int,
                                              id: nat)
    requires forall j :: 0 <= j < |schedules| ==> schedules[j].id != id
    ensures Read(Started(m, schedules, value), id) == Read(m, id)
  {
    if schedules != [] {
      StartedKeepsOthers(m, schedules[..|schedules| - 1], value, id);
    }
  }

  lemma {:induction false} StartedSetsEach(m: map<nat, int>, schedules: seq<Schedule>, value: Schedule -> int, i: nat)
    requires i < |schedules| && forall j :: i < j < |schedules| ==> schedules[j].id != schedules[i].id
    ensures Read(Started(m, schedules, value), schedules[i].id) == value(schedules[i])
  {
    if i < |schedules| - 1 {
      StartedSetsEach(m, schedules[..|schedules| - 1], value, i);
    }
  }

  /** Every ranked member is some schedule's key. */
  ghost predicate RankingOk(z: SortedSet) {
    && SortedSets.Valid(z)
    && forall e :: e in z ==> e.member == DurationKey(ScheduleOf(e.member))
  }

  lemma RankKeepsOk(z: SortedSet, duration: int, scheduleId: nat)
    requires RankingOk(z)
    ensures RankingOk(Add(z, duration, DurationKey(scheduleId)))
  {
    ScheduleOfDurationKey(scheduleId);
    AddIsValid(z, duration, DurationKey(scheduleId));
  }

  function ItemOf(e: Entry, sellingStart: map<nat, int>, totalSeats: map<nat, int>): Item {
    var id := ScheduleOf(e.member);
    Item(id, Read(sellingStart, id), Read(sellingStart, id) + e.score, e.score, Read(totalSeats, id))
  }

  /** The reported ranking lists different schedules, fastest sellout first, and each
      item names the schedule that was ranked. */
  lemma RankingIsAscending(z: SortedSet, sellingStart: map<nat, int>, totalSeats: map<nat, int>, j: nat, k: nat)
    requires RankingOk(z) && j < k < |z|
    ensures var a, b := ItemOf(z[j], sellingStart, totalSeats), ItemOf(z[k], sellingStart, totalSeats);
            && a.duration <= b.duration && a.scheduleId != b.scheduleId
            && DurationKey(a.scheduleId) == z[j].member && DurationKey(b.scheduleId) == z[k].member
  {
    assert z[j] in z && z[k] in z;
    assert Before(z[j], z[k]) && z[j].member != z[k].member;
  }

  /** How long a schedule has been on sale; from the epoch if it was never opened. */
  function OnSaleFor(sellingStart: map<nat, int>, scheduleId: nat, now: int): int {
    R.Elapsed(Read(sellingStart, scheduleId), now)
  }

  lemma DurationKeysDiffer(j: nat, k: nat)
    requires j != k
    ensures DurationKey(j) != DurationKey(k)
  {
    ScheduleOfDurationKey(j);
    ScheduleOfDurationKey(k);
  }

  /** A schedule's duration in the ranking. */
  function RankedFor(z: SortedSet, scheduleId: nat): Option<int> {
    var key := DurationKey(scheduleId);
    if key in Members(z) then Some(Score(z, key)) else None
  }

  lemma RankedAfterAdd(z: SortedSet, duration: int, scheduleId: nat, j: nat)
    requires SortedSets.Valid(z)
    ensures RankedFor(Add(z, duration, DurationKey(scheduleId)), j)
            == if j == scheduleId then Some(duration) else RankedFor(z, j)
  {
    ScoreAfterAdd(z, duration, DurationKey(scheduleId), DurationKey(j));
    if j != scheduleId {
      DurationKeysDiffer(j, scheduleId);
    }
    AddIsValid(z, duration, DurationKey(scheduleId));
  }

  lemma ItemOfRanked(sellingStart: map<nat, int>, totalSeats: map<nat, int>, scheduleId: nat, now: int)
    ensures var e := Entry(OnSaleFor(sellingStart, scheduleId, now), DurationKey(scheduleId));
            var item := ItemOf(e, sellingStart, totalSeats);
            item.scheduleId == scheduleId && item.selloutTime == now
  {
    ScheduleOfDurationKey(scheduleId);
  }

  lemma AddedIsThere(z: SortedSet, e: Entry) returns (i: nat)
    requires SortedSets.Valid(z)
    ensures i < |Add(z, e.score, e.member)| && Add(z, e.score, e.member)[i] == e
  {
    AddIsValid(z, e.score, e.member);
    assert e in Add(z, e.score, e.member);
    i :| 0 <= i < |Add(z, e.score, e.member)| && Add(z, e.score, e.member)[i] == e;
  }

  /** The reported sellout time of a schedule is the moment at which it was ranked. */
  lemma SelloutTimeIsRankingTime(z: SortedSet, sellingStart: map<nat, int>, totalSeats: map<nat, int>,
                                 scheduleId: nat, now: int)
    requires RankingOk(z)
    ensures var ranking := Add(z, OnSaleFor(sellingStart, scheduleId, now), DurationKey(scheduleId));
            exists i :: 0 <= i < |ranking|
              && ItemOf(ranking[i], sellingStart, totalSeats).scheduleId == scheduleId
              && ItemOf(ranking[i], sellingStart, totalSeats).selloutTime == now
  {
    var e := Entry(OnSaleFor(sellingStart, scheduleId, now), DurationKey(scheduleId));
    var i := AddedIsThere(z, e);
    ItemOfRanked(sellingStart, totalSeats, scheduleId, now);
  }

  /** Where Redis fails within one updateRanking. */
  datatype Outage = NoOutage | BeforeCount | AfterCount

  /** How many of the steps of an update are taken: count, read, rank. */
  function Commands(outage: Outage): nat {
    match outage case BeforeCount => 0 case AfterCount => 1 case NoOutage => 3
  }

  /** What one updateRanking leaves: one more sale of its schedule unless Redis failed
      before the count, and, if the seats are sold out by then and Redis never failed,
      the schedule in the ranking with the time since its start. */
  ghost predicate RankingUpdated(booked: map<nat, int>, booked': map<nat, int>, seats: map<nat, int>,
                                 start: map<nat, int>, ranking: SortedSet, ranking': SortedSet,
                                 schedule: nat, now: int, outage: Outage)
  {
    && Read(booked', schedule) == (if outage == BeforeCount then Read(booked, schedule) else Read(booked, schedule) + 1)
    && (forall k :: k != schedule ==> Read(booked', k) == Read(booked, k))
    && ranking' ==
       if outage == NoOutage && Read(booked', schedule) >= Read(seats, schedule)
       then Add(ranking, OnSaleFor(start, schedule, now), DurationKey(schedule)) else ranking
  }

  /** Schedule k as the interleaved runs see it. */
  function SaleOf(booked: map<nat, int>, seats: map<nat, int>, start: map<nat, int>, ranking: SortedSet,
                  k: nat, lastSale: int): R.Sale
  {
    R.Sale(lastSale, Read(booked, k), Read(seats, k), Read(start, k), RankedFor(ranking, k))
  }

  lemma OtherSalesStay(booked: map<nat, int>, booked': map<nat, int>, seats: map<nat, int>,
                           start: map<nat, int>, ranking: SortedSet, ranking': SortedSet,
                           schedule: nat, now: int, outage: Outage, k: nat, lastSale: int)
    requires RankingOk(ranking)
    requires RankingUpdated(booked, booked', seats, start, ranking, ranking', schedule, now, outage)
    requires k != schedule
    ensures SaleOf(booked', seats, start, ranking', k, lastSale) == SaleOf(booked, seats, start, ranking, k, lastSale)
  {
    RankedAfterAdd(ranking, OnSaleFor(start, schedule, now), schedule, k);
  }

  lemma OwnSaleSteps(booked: map<nat, int>, booked': map<nat, int>, seats: map<nat, int>,
                           start: map<nat, int>, ranking: SortedSet, ranking': SortedSet,
                           schedule: nat, now: int, outage: Outage, lastSale: int)
    requires RankingOk(ranking)
    requires RankingUpdated(booked, booked', seats, start, ranking, ranking', schedule, now, outage)
    ensures var sale, sale' := SaleOf(booked, seats, start, ranking, schedule, lastSale),
                               SaleOf(booked', seats, start, ranking', schedule, lastSale);
            sale' == R.StepsOf(sale, schedule, Commands(outage), now)
  {
    RankedAfterAdd(ranking, OnSaleFor(start, schedule, now), schedule, schedule);
    R.ThreeSteps(SaleOf(booked, seats, start, ranking, schedule, lastSale), schedule, now);
  }

  /** One updateRanking takes the steps that the interleaved runs are made of: all three
      without an outage, the first one if Redis fails after it, none if before; other
      schedules are left alone. */
  lemma UpdateTakesSteps(booked: map<nat, int>, booked': map<nat, int>, seats: map<nat, int>,
                           start: map<nat, int>, ranking: SortedSet, ranking': SortedSet,
                           schedule: nat, now: int, outage: Outage, k: nat, lastSale: int)
    requires RankingOk(ranking)
    requires RankingUpdated(booked, booked', seats, start, ranking, ranking', schedule, now, outage)
    ensures var sale, sale' := SaleOf(booked, seats, start, ranking, k, lastSale),
                               SaleOf(booked', seats, start, ranking', k, lastSale);
            sale' == if k == schedule then R.StepsOf(sale, k, Commands(outage), now) else sale
  {
    if k == schedule {
      OwnSaleSteps(booked, booked', seats, start, ranking, ranking', schedule, now, outage, lastSale);
    } else {
      OtherSalesStay(booked, booked', seats, start, ranking, ranking', schedule, now, outage, k, lastSale);
    }
  }

  class SelloutRankingService {
    var totalSeats: map<nat, int>
    var bookedCount: map<nat, int>
    var sellingStart: map<nat, int>
    var ranking: SortedSet

    ghost predicate Valid()
      reads this
    {
      RankingOk(ranking)
    }

    constructor ()
      ensures Valid() && totalSeats == map[] && bookedCount == map[] && sellingStart == map[] && ranking == []
    {
      totalSeats, bookedCount, sellingStart, ranking := map[], map[], map[], [];
    }

    /** Opens every schedule found; the last one of equal ids wins. */
    method StartToSell(schedules: seq<Schedule>) returns (r: Result<bool, Error>)
      requires Valid()
      modifies this`totalSeats, this`bookedCount, this`sellingStart
      ensures Valid() && (r.Failure? <==> schedules == []) && (r.Success? ==> r.value)
      ensures totalSeats == Started(old(totalSeats), schedules, (s: Schedule) => s.totalSeats)
      ensures bookedCount == Started(old(bookedCount), schedules, (s: Schedule) => 0)
      ensures sellingStart == Started(old(sellingStart), schedules, (s: Schedule) => s.startAt)
    {
      if schedules == [] {
        return Failure(ScheduleNotFound);
      }
      var total, zero, start := (s: Schedule) => s.totalSeats, (s: Schedule) => 0, (s: Schedule) => s.startAt;
      for i := 0 to |schedules|
        invariant totalSeats == Started(old(totalSeats), schedules[..i], total)
        invariant bookedCount == Started(old(bookedCount), schedules[..i], zero)
        invariant sellingStart == Started(old(sellingStart), schedules[..i], start)
      {
        var schedule := schedules[i];
        assert schedules[..i + 1][..i] == schedules[..i];
        totalSeats := totalSeats[schedule.id := schedule.totalSeats];
        bookedCount := bookedCount[schedule.id := 0];
        sellingStart := sellingStart[schedule.id := schedule.startAt];
      }
      assert schedules[..|schedules|] == schedules;
      r := Success(true);
    }

    /** The second half of updateRanking, after the sale is counted. */
    method RankIfSoldOut(scheduleId: nat, now: int)
      requires Valid()
      modifies this`ranking
      ensures Valid()
      ensures Read(bookedCount, scheduleId) >= Read(totalSeats, scheduleId) ==>
                ranking == Add(old(ranking), OnSaleFor(sellingStart, scheduleId, now), DurationKey(scheduleId))
      ensures Read(bookedCount, scheduleId) < Read(totalSeats, scheduleId) ==> ranking == old(ranking)
    {
      var booked := Read(bookedCount, scheduleId);
      var seats := Read(totalSeats, scheduleId);
      if booked >= seats {
        var duration := OnSaleFor(sellingStart, scheduleId, now);
        RankKeepsOk(ranking, duration, scheduleId);
        ranking := Add(ranking, duration, DurationKey(scheduleId));
      }
    }

    /** Counts one sale; once as many are counted as there are seats, ranks the
        schedule with the time it has been on sale. An error before the count leaves
        everything as it was, a later one a sale that is counted but not ranked. */
    method UpdateRanking(scheduleId: nat, now: int, outage: Outage) returns (ok: bool)
      requires Valid()
      modifies this`bookedCount, this`ranking
      ensures Valid() && ok == (outage == NoOutage)
      ensures RankingUpdated(old(bookedCount), bookedCount, totalSeats, sellingStart, old(ranking), ranking,
                             scheduleId, now, outage)
    {
      if outage == BeforeCount {
        return false;
      }
      bookedCount := bookedCount[scheduleId := Read(bookedCount, scheduleId) + 1];
      if outage == AfterCount {
        return false;
      }
      RankIfSoldOut(scheduleId, now);
      ok := true;
    }

    /** One item per ranked schedule, in ranking order. */
    method GetFastSelloutRanking() returns (items: seq<Item>)
      ensures |items| == |ranking|
      ensures forall k :: 0 <= k < |items| ==> items[k] == ItemOf(ranking[k], sellingStart, totalSeats)
      ensures forall k :: 0 <= k < |items| ==>
                && items[k].scheduleId == ScheduleOf(ranking[k].member) && items[k].duration == ranking[k].score
                && items[k].startTime == Read(sellingStart, items[k].scheduleId)
                && items[k].selloutTime == items[k].startTime + items[k].duration
                && items[k].seatsCount == Read(totalSeats, items[k].scheduleId)
    {
      var reply := Flatten(ranking);
      items := [];
      var i := 0;
      while i < |reply|
        invariant i == 2 * |items| && |items| <= |ranking|
        invariant forall k :: 0 <= k < |items| ==> items[k] == ItemOf(ranking[k], sellingStart, totalSeats)
      {
        var scheduleId := ScheduleOf(reply[i].key);
        var duration := reply[i + 1].score;
        var startTime := Read(sellingStart, scheduleId);
        items := items + [Item(scheduleId, startTime, startTime + duration, duration, Read(totalSeats, scheduleId))];
        i := i + 2;
      }
    }
  }
}

/** Redis sorted sets: members with scores, kept in (score, member) order. */
module SortedSets {
  import opened Tables

  datatype Entry = Entry(score: int, member: Token)

  type SortedSet = seq<Entry>

  /** Byte order on members. */
  predicate Less(a: string, b: string) {
    if a == [] || b == [] then a == [] && b != []
    else if a[0] != b[0] then a[0] < b[0]
    else Less(a[1..], b[1..])
  }

  lemma {:induction false} LessIsTotal(a: string, b: string)
    ensures Less(a, b) || a == b || Less(b, a)
    ensures !(Less(a, b) && Less(b, a)) && !Less(a, a)
  {
    if a != [] && b != [] && a[0] == b[0] {
      LessIsTotal(a[1..], b[1..]);
      assert a == [a[0]] + a[1..] && b == [b[0]] + b[1..];
    }
    LessIsIrreflexive(a);
  }

  lemma {:induction false} LessIsIrreflexive(a: string)
    ensures !Less(a, a)
  {
    if a != [] {
      LessIsIrreflexive(a[1..]);
    }
  }

  lemma {:induction false} LessIsTransitive(a: string, b: string, c: string)
    requires Less(a, b) && Less(b, c)
    ensures Less(a, c)
  {
    if a != [] && a[0] == b[0] == c[0] {
      LessIsTransitive(a[1..], b[1..], c[1..]);
    }
  }

  predicate Before(e: Entry, f: Entry) {
    e.score < f.score || (e.score == f.score && Less(e.member, f.member))
  }

  lemma BeforeIsStrictOrder(e: Entry, f: Entry, g: Entry)
    ensures Before(e, f) && Before(f, g) ==> Before(e, g)
    ensures !(Before(e, f) && Before(f, e)) && !Before(e, e)
    ensures e.member != f.member ==> Before(e, f) || Before(f, e)
  {
    LessIsTotal(e.member, f.member);
    if Less(e.member, f.member) && Less(f.member, g.member) {
      LessIsTransitive(e.member, f.member, g.member);
    }
  }

  ghost predicate Valid(z: SortedSet) {
    && (forall i, j :: 0 <= i < j < |z| ==> Before(z[i], z[j]))
    && (forall i, j :: 0 <= i < j < |z| ==> z[i].member != z[j].member)
  }

  function Members(z: SortedSet): set<Token> {
    set e | e in z :: e.member
  }

  function Entries(z: SortedSet): set<Entry> {
    set e | e in z
  }

  /** ZRANK; -1 when absent. */
  function Rank(z: SortedSet, member: Token): (r: int)
    ensures -1 <= r < |z|
    ensures r == -1 <==> member !in Members(z)
    ensures r >= 0 ==> z[r].member == member
  {
    if z == [] then -1
    else if z[|z| - 1].member == member then |z| - 1
    else
      var r := Rank(z[..|z| - 1], member);
      assert forall e :: e in z <==> e in z[..|z| - 1] || e == z[|z| - 1];
      r
  }

  /** ZSCORE; -1 when absent, as the program's wrapper has it. */
  function Score(z: SortedSet, member: Token): int {
    var r := Rank(z, member);
    if r == -1 then -1 else z[r].score
  }

  /** The stored score. */
  lemma ScoreOfEntry(z: SortedSet, e: Entry)
    requires Valid(z) && e in z
    ensures Score(z, e.member) == e.score
  {
    var i :| 0 <= i < |z| && z[i] == e;
    assert Rank(z, e.member) == i;
  }

  /** ZREM. */
  function Remove(z: SortedSet, member: Token): SortedSet {
    var r := Rank(z, member);
    if r == -1 then z else z[..r] + z[r + 1..]
  }

  /** Where an entry belongs: the number of entries before it. */
  function Place(z: SortedSet, e: Entry): (p: nat)
    ensures p <= |z|
  {
    if z == [] then 0
    else if Before(z[|z| - 1], e) then |z|
    else Place(z[..|z| - 1], e)
  }

  /** ZADD: a member that is already there moves to its new score. */
  function Add(z: SortedSet, score: int, member: Token): SortedSet {
    var rest := Remove(z, member);
    var p := Place(rest, Entry(score, member));
    rest[..p] + [Entry(score, member)] + rest[p..]
  }

  lemma {:induction false} PlaceSplits(z: SortedSet, e: Entry)
    requires Valid(z) && e.member !in Members(z)
    ensures forall i :: 0 <= i < Place(z, e) ==> Before(z[i], e)
    ensures forall i :: Place(z, e) <= i < |z| ==> Before(e, z[i])
  {
    if z != [] {
      var last := z[|z| - 1];
      assert last.member in Members(z);
      if Before(last, e) {
        forall i | 0 <= i < |z| ensures Before(z[i], e) {
          BeforeIsStrictOrder(z[i], last, e);
        }
      } else {
        assert forall f :: f in z[..|z| - 1] ==> f in z;
        PlaceSplits(z[..|z| - 1], e);
        BeforeIsStrictOrder(e, last, e);
      }
    }
  }

  /** z without its entry at r. */
  predicate Without(z: SortedSet, r: nat, z': SortedSet) {
    && r < |z| == |z'| + 1
    && (forall i :: 0 <= i < r ==> z'[i] == z[i])
    && (forall i :: r <= i < |z'| ==> z'[i] == z[i + 1])
  }

  lemma WithoutKeepsOrder(z: SortedSet, r: nat, z': SortedSet)
    requires Valid(z) && Without(z, r, z')
    ensures Valid(z')
  {
  }

  lemma WithoutKeepsOthers(z: SortedSet, r: nat, z': SortedSet, e: Entry)
    requires Valid(z) && Without(z, r, z')
    ensures e in z' <==> e in z && e.member != z[r].member
  {
    if e in z && e.member != z[r].member {
      var i :| 0 <= i < |z| && z[i] == e;
      assert if i < r then z'[i] == e else z'[i - 1] == e;
    }
  }

  lemma RemoveIsValid(z: SortedSet, member: Token)
    requires Valid(z)
    ensures Valid(Remove(z, member))
    ensures Members(Remove(z, member)) == Members(z) - {member}
    ensures |Remove(z, member)| == if member in Members(z) then |z| - 1 else |z|
    ensures forall e :: e in Remove(z, member) <==> e in z && e.member != member
  {
    var r := Rank(z, member);
    var z' := Remove(z, member);
    if r >= 0 {
      assert Without(z, r, z');
      WithoutKeepsOrder(z, r, z');
      forall e ensures e in z' <==> e in z && e.member != member {
        WithoutKeepsOthers(z, r, z', e);
      }
    } else {
      assert forall e :: e in z ==> e.member in Members(z);
    }
    forall m ensures m in Members(z') <==> m in Members(z) && m != member {
      if m in Members(z) && m != member {
        var e :| e in z && e.member == m;
        assert e in z';
      }
    }
  }

  /** The entries of rest before and after e's place keep their order around it. */
  lemma InsertKeepsOrder(rest: SortedSet, e: Entry, p: nat, z: SortedSet, i: nat, j: nat)
    requires Valid(rest) && p <= |rest| && z == rest[..p] + [e] + rest[p..] && i < j < |z|
    requires forall k :: 0 <= k < p ==> Before(rest[k], e) && rest[k].member != e.member
    requires forall k :: p <= k < |rest| ==> Before(e, rest[k]) && rest[k].member != e.member
    ensures Before(z[i], z[j]) && z[i].member != z[j].member
  {
    if i < p {
      assert z[i] == rest[i];
    } else if i > p {
      assert z[i] == rest[i - 1];
    }
    if j < p {
      assert z[j] == rest[j];
    } else if j > p {
      assert z[j] == rest[j - 1];
    }
  }

  lemma InsertIsValid(rest: SortedSet, e: Entry, p: nat)
    requires Valid(rest) && e.member !in Members(rest) && p == Place(rest, e)
    ensures Valid(rest[..p] + [e] + rest[p..])
  {
    PlaceSplits(rest, e);
    var z := rest[..p] + [e] + rest[p..];
    forall k | 0 <= k < |rest| ensures rest[k].member != e.member {
      assert rest[k].member in Members(rest);
    }
    forall i, j | 0 <= i < j < |z| ensures Before(z[i], z[j]) && z[i].member != z[j].member {
      InsertKeepsOrder(rest, e, p, z, i, j);
    }
  }

  lemma AddIsValid(z: SortedSet, score: int, member: Token)
    requires Valid(z)
    ensures Valid(Add(z, score, member))
    ensures Members(Add(z, score, member)) == Members(z) + {member}
    ensures |Add(z, score, member)| == if member in Members(z) then |z| else |z| + 1
    ensures forall e :: e in Add(z, score, member) <==> e == Entry(score, member) || (e in z && e.member != member)
  {
    var e := Entry(score, member);
    var rest := Remove(z, member);
    RemoveIsValid(z, member);
    var p := Place(rest, e);
    InsertIsValid(rest, e, p);
    AddContents(rest, e, p);
  }

  /** ZADD stores the score and leaves every other one alone. */
  lemma ScoreAfterAdd(z: SortedSet, score: int, member: Token, other: Token)
    requires Valid(z)
    ensures Score(Add(z, score, member), other) == if other == member then score else Score(z, other)
  {
    var z' := Add(z, score, member);
    AddIsValid(z, score, member);
    if other == member {
      assert Entry(score, member) in z';
      ScoreOfEntry(z', Entry(score, member));
    } else if e :| e in z && e.member == other {
      ScoreOfEntry(z, e);
      ScoreOfEntry(z', e);
    }
  }

  lemma AddContents(rest: SortedSet, e: Entry, p: nat)
    requires p <= |rest|
    ensures var z := rest[..p] + [e] + rest[p..];
            && (forall f :: f in z <==> f == e || f in rest)
            && Members(z) == Members(rest) + {e.member}
  {
    var z := rest[..p] + [e] + rest[p..];
    assert rest == rest[..p] + rest[p..];
    forall m ensures m in Members(z) <==> m in Members(rest) + {e.member} {
      assert e in z;
      if m in Members(rest) {
        var f :| f in rest && f.member == m;
        assert f in z;
      }
    }
  }

  /** The first entry is the least one. */
  lemma FirstIsLeast(z: SortedSet, e: Entry)
    requires Valid(z) && e in z
    ensures e == z[0] || Before(z[0], e)
  {
  }

  lemma RankOf(z: SortedSet, r: nat)
    requires Valid(z) && r < |z|
    ensures Rank(z, z[r].member) == r
  {
    assert z[r] in z;
    var k := Rank(z, z[r].member);
    assert z[k].member == z[r].member;
  }

  /** A member's rank is the number of entries before its own. */
  lemma RankIsAhead(z: SortedSet, r: nat)
    requires Valid(z) && r < |z|
    ensures Rank(z, z[r].member) == r == |set e | e in z && Before(e, z[r])|
  {
    RankOf(z, r);
    var ahead := set e | e in z && Before(e, z[r]);
    forall e ensures e in ahead <==> e in z[..r] {
      if e in ahead {
        var i :| 0 <= i < |z| && z[i] == e;
        if i >= r {
          BeforeIsStrictOrder(z[r], z[i], z[r]);
        }
        assert z[..r][i] == e;
      }
    }
    PrefixHasNoDuplicates(z, r);
    assert ahead == Entries(z[..r]);
  }

  lemma {:induction false} PrefixHasNoDuplicates(z: SortedSet, n: nat)
    requires Valid(z) && n <= |z|
    ensures |Entries(z[..n])| == n
  {
    if n > 0 {
      PrefixHasNoDuplicates(z, n - 1);
      assert z[..n] == z[..n - 1] + [z[n - 1]];
      assert Entries(z[..n]) == Entries(z[..n - 1]) + {z[n - 1]};
      assert z[n - 1] !in z[..n - 1];
    }
  }

  /** As many entries as members. */
  lemma CardIsMembers(z: SortedSet)
    requires Valid(z)
    ensures |z| == |Members(z)|
    decreases |z|
  {
    if z != [] {
      var n := |z| - 1;
      CardIsMembers(z[..n]);
      assert z == z[..n] + [z[n]];
      assert Members(z) == Members(z[..n]) + {z[n].member};
      assert z[n].member !in Members(z[..n]);
    }
  }

  lemma MembersOfSlices(z: SortedSet, n: nat)
    requires n <= |z|
    ensures Members(z) == Members(z[..n]) + Members(z[n..])
    ensures n < |z| ==> Members(z[..n + 1]) == Members(z[..n]) + {z[n].member}
  {
    assert z == z[..n] + z[n..];
    if n < |z| {
      assert z[..n + 1] == z[..n] + [z[n]];
    }
  }

  lemma SlicesAreValid(z: SortedSet, n: nat)
    requires Valid(z) && n <= |z|
    ensures Valid(z[..n]) && Valid(z[n..])
    ensures Members(z[..n]) !! Members(z[n..])
  {
    assert forall i, j :: 0 <= i < n <= j < |z| ==> z[i].member != z[j].member;
  }

  lemma RemoveFirst(z: SortedSet)
    requires Valid(z) && z != []
    ensures Remove(z, z[0].member) == z[1..] && Valid(z[1..])
  {
    RankOf(z, 0);
    SlicesAreValid(z, 1);
    assert z[..0] + z[1..] == z[1..];
  }

  lemma AddToEmpty(score: int, member: Token)
    ensures Add([], score, member) == [Entry(score, member)]
  {
    assert Remove([], member) == [];
  }
}

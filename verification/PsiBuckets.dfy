/** Running the intersection bucket by bucket instead of on the whole input. */
module PsiBuckets {
  import opened Wrappers
  import opened PsiBatches
  import opened PsiStore
  import PsiFlow
  import PsiSession

  /** A table row with its hashed id, which is what the parties intersect on. */
  datatype Row = Row(hashedId: Bytes, columns: seq<Bytes>)

  /** A digest read as a big-endian number. */
  function BigEndian(b: Bytes): nat {
    if b == [] then 0 else 256 * BigEndian(b[..|b| - 1]) + b[|b| - 1] as nat
  }

  function Bucket(id: Bytes, n: nat): (k: nat)
    requires n >= 1
    ensures k < n
  {
    BigEndian(id) % n
  }

  /** The bucket column holds signed 16-bit numbers; filling in a larger one fails. */
  const INT16_MAX: nat := 0x7fff

  predicate ColumnFits(rows: seq<Row>, n: nat)
    requires n >= 1
  {
    forall r :: r in rows ==> Bucket(r.hashedId, n) <= INT16_MAX
  }

  function Ids(rows: seq<Row>): seq<Bytes> {
    Map((r: Row) => r.hashedId, rows)
  }

  function IdSet(rows: seq<Row>): set<Bytes> {
    set i | 0 <= i < |rows| :: rows[i].hashedId
  }

  /** The rows that fall into bucket `k`. */
  function InBucket(rows: seq<Row>, n: nat, k: nat): seq<Row>
    requires n >= 1
  {
    if rows == [] then []
    else if Bucket(rows[0].hashedId, n) == k then [rows[0]] + InBucket(rows[1..], n, k)
    else InBucket(rows[1..], n, k)
  }

  /** How many of the partition boundaries 1, 2, .., n - 1 are at most `v`. */
  function BoundariesUpTo(v: nat, n: nat): nat
    requires n >= 1
  {
    if n == 1 then 0 else BoundariesUpTo(v, n - 1) + if n - 1 <= v then 1 else 0
  }

  lemma {:induction false} BoundariesSeparate(v: nat, n: nat)
    requires n >= 1
    ensures BoundariesUpTo(v, n) == if v < n then v else n - 1
  {
    if n > 1 {
      BoundariesSeparate(v, n - 1);
    }
  }

  /** The rows the range partition puts into its part `k`. */
  function InRangePart(rows: seq<Row>, n: nat, k: nat): seq<Row>
    requires n >= 1
  {
    if rows == [] then []
    else if BoundariesUpTo(Bucket(rows[0].hashedId, n), n) == k then [rows[0]] + InRangePart(rows[1..], n, k)
    else InRangePart(rows[1..], n, k)
  }

  lemma {:induction false} PartIsBucket(rows: seq<Row>, n: nat, k: nat)
    requires n >= 1
    ensures InRangePart(rows, n, k) == InBucket(rows, n, k)
  {
    if rows != [] {
      BoundariesSeparate(Bucket(rows[0].hashedId, n), n);
      PartIsBucket(rows[1..], n, k);
    }
  }

  /** The bucketed table: a part per boundary interval. It fails when the bucket column overflows, and on an empty
      table, whose first id tells the type of the column. */
  function RepartitionByHash(rows: seq<Row>, n: nat): Option<seq<seq<Row>>>
    requires n >= 1
  {
    if rows != [] && ColumnFits(rows, n) then Some(seq(n, k requires 0 <= k < n => InRangePart(rows, n, k))) else None
  }

  /** Up to 32768 buckets every row of a nonempty table lands in the bucket of its hash, and with more as long as each
      row's bucket number fits. */
  lemma RepartitionPutsRowsInBuckets(rows: seq<Row>, n: nat)
    requires n >= 1
    ensures RepartitionByHash(rows, n).Some? <==> rows != [] && ColumnFits(rows, n)
    ensures n <= INT16_MAX + 1 ==> ColumnFits(rows, n)
    ensures rows != [] && ColumnFits(rows, n) ==>
              RepartitionByHash(rows, n).value == seq(n, k requires 0 <= k < n => InBucket(rows, n, k))
  {
    forall k | 0 <= k < n
      ensures InRangePart(rows, n, k) == InBucket(rows, n, k)
    {
      PartIsBucket(rows, n, k);
    }
  }

  /** Up to 32768 buckets no nonempty table makes the partition fail; for every larger count some row makes it fail. */
  lemma LargeCountsFail(n: nat)
    requires n >= 1
    ensures (forall rows :: rows != [] ==> RepartitionByHash(rows, n).Some?) <==> n <= INT16_MAX + 1
  {
    if n > INT16_MAX + 1 {
      // The digest that reads as 32768.
      var id: Bytes := [0x80, 0];
      assert id[..1] == [0x80] && id[..1][..0] == [];
      assert BigEndian(id[..1]) == 0x80 && BigEndian(id) == INT16_MAX + 1;
      var rows := [Row(id, [])];
      assert rows[0] in rows && Bucket(id, n) == INT16_MAX + 1;
      assert RepartitionByHash(rows, n).None?;
    }
  }

  /** The rows at the given positions. */
  function Take(rows: seq<Row>, positions: seq<nat>): seq<Row>
    requires InRange(rows, positions)
  {
    seq(|positions|, i requires 0 <= i < |positions| => rows[positions[i]])
  }

  /** The rows of `mine` whose hashed id occurs in `theirs`. */
  function Joined(mine: seq<Row>, theirs: set<Bytes>): seq<Row> {
    if mine == [] then []
    else if mine[0].hashedId in theirs then [mine[0]] + Joined(mine[1..], theirs)
    else Joined(mine[1..], theirs)
  }

  predicate InRange(rows: seq<Row>, positions: seq<nat>) {
    forall i :: 0 <= i < |positions| ==> positions[i] < |rows|
  }

  lemma TakeCons(rows: seq<Row>, k: nat, rest: seq<nat>)
    requires k < |rows| && InRange(rows, rest)
    ensures InRange(rows, [k] + rest) && Take(rows, [k] + rest) == [rows[k]] + Take(rows, rest)
  {
  }

  /** Taking the matching positions, as a session does, selects the joined rows. */
  lemma {:induction false} SessionTakesJoined(rows: seq<Row>, theirs: set<Bytes>, from: nat)
    requires from <= |rows|
    ensures InRange(rows, MatchesFrom(from, Ids(rows)[from..], theirs))
    ensures Take(rows, MatchesFrom(from, Ids(rows)[from..], theirs)) == Joined(rows[from..], theirs)
    decreases |rows| - from
  {
    if from < |rows| {
      SessionTakesJoined(rows, theirs, from + 1);
      assert Ids(rows)[from..][1..] == Ids(rows)[from + 1..] && rows[from..][1..] == rows[from + 1..];
      TakeCons(rows, from, MatchesFrom(from + 1, Ids(rows)[from + 1..], theirs));
    }
  }

  /** The rows one party gets from bucket `k`'s session. */
  function BucketResult(mine: seq<Row>, theirs: seq<Row>, n: nat, k: nat): seq<Row>
    requires n >= 1
  {
    Joined(InBucket(mine, n, k), IdSet(InBucket(theirs, n, k)))
  }

  /** The results of buckets `0..k` put together in bucket order. */
  function BucketResults(mine: seq<Row>, theirs: seq<Row>, n: nat, k: nat): seq<Row>
    requires n >= 1
  {
    if k == 0 then [] else BucketResults(mine, theirs, n, k - 1) + BucketResult(mine, theirs, n, k - 1)
  }

  lemma {:induction false} BucketIds(rows: seq<Row>, n: nat, k: nat, id: Bytes)
    requires n >= 1
    ensures id in IdSet(InBucket(rows, n, k)) <==> id in IdSet(rows) && Bucket(id, n) == k
  {
    if rows != [] {
      BucketIds(rows[1..], n, k, id);
      IdSetCons(rows);
      if Bucket(rows[0].hashedId, n) == k {
        IdSetCons(InBucket(rows, n, k));
        assert InBucket(rows, n, k)[1..] == InBucket(rows[1..], n, k);
      }
    }
  }

  lemma IdSetCons(rows: seq<Row>)
    requires rows != []
    ensures IdSet(rows) == {rows[0].hashedId} + IdSet(rows[1..])
  {
    forall id | id in IdSet(rows)
      ensures id in {rows[0].hashedId} + IdSet(rows[1..])
    {
      var i :| 0 <= i < |rows| && rows[i].hashedId == id;
      if i > 0 {
        assert rows[1..][i - 1].hashedId == id;
      }
    }
    forall id | id in IdSet(rows[1..])
      ensures id in IdSet(rows)
    {
      var i :| 0 <= i < |rows[1..]| && rows[1..][i].hashedId == id;
      assert rows[i + 1].hashedId == id;
    }
  }

  /** A bucket's session selects just the whole-input result's rows of that bucket. */
  lemma BucketOfResult(mine: seq<Row>, theirs: seq<Row>, n: nat, k: nat)
    requires n >= 1
    ensures BucketResult(mine, theirs, n, k) == InBucket(Joined(mine, IdSet(theirs)), n, k)
  {
    forall id
      ensures id in IdSet(InBucket(theirs, n, k)) <==> id in IdSet(theirs) && Bucket(id, n) == k
    {
      BucketIds(theirs, n, k, id);
    }
    SelectTwice(mine, IdSet(theirs), IdSet(InBucket(theirs, n, k)), n, k);
  }

  lemma {:induction false} SelectTwice(mine: seq<Row>, ids: set<Bytes>, bucketIds: set<Bytes>, n: nat, k: nat)
    requires n >= 1
    requires forall id :: id in bucketIds <==> id in ids && Bucket(id, n) == k
    ensures Joined(InBucket(mine, n, k), bucketIds) == InBucket(Joined(mine, ids), n, k)
  {
    if mine != [] {
      SelectTwice(mine[1..], ids, bucketIds, n, k);
      if Bucket(mine[0].hashedId, n) == k {
        assert InBucket(mine, n, k)[1..] == InBucket(mine[1..], n, k);
      }
      if mine[0].hashedId in ids {
        assert Joined(mine, ids)[1..] == Joined(mine[1..], ids);
      }
    }
  }

  /** How often a row occurs in the first `k` buckets. */
  lemma {:induction false} CountInBuckets(rows: seq<Row>, n: nat, k: nat, r: Row)
    requires n >= 1
    ensures multiset(InBucket(rows, n, k))[r] == if Bucket(r.hashedId, n) == k then multiset(rows)[r] else 0
  {
    if rows != [] {
      CountInBuckets(rows[1..], n, k, r);
      assert rows == [rows[0]] + rows[1..];
    }
  }

  lemma CountInBoth(a: seq<Row>, b: seq<Row>, r: Row)
    ensures multiset(a + b)[r] == multiset(a)[r] + multiset(b)[r]
  {
  }

  lemma CountInResult(mine: seq<Row>, theirs: seq<Row>, n: nat, k: nat, r: Row)
    requires n >= 1
    ensures multiset(BucketResult(mine, theirs, n, k))[r]
            == if Bucket(r.hashedId, n) == k then multiset(Joined(mine, IdSet(theirs)))[r] else 0
  {
    BucketOfResult(mine, theirs, n, k);
    CountInBuckets(Joined(mine, IdSet(theirs)), n, k, r);
  }

  lemma {:induction false} CountInResults(mine: seq<Row>, theirs: seq<Row>, n: nat, k: nat, r: Row)
    requires n >= 1
    ensures multiset(BucketResults(mine, theirs, n, k))[r]
            == if Bucket(r.hashedId, n) < k then multiset(Joined(mine, IdSet(theirs)))[r] else 0
    decreases k
  {
    if k > 0 {
      CountInResults(mine, theirs, n, k - 1, r);
      CountInResult(mine, theirs, n, k - 1, r);
      CountInBoth(BucketResults(mine, theirs, n, k - 1), BucketResult(mine, theirs, n, k - 1), r);
    }
  }

  /** Bucket by bucket or all at once: the same rows, each as often. */
  lemma BucketedEqualsWhole(mine: seq<Row>, theirs: seq<Row>, n: nat)
    requires n >= 1
    ensures multiset(BucketResults(mine, theirs, n, n)) == multiset(Joined(mine, IdSet(theirs)))
  {
    var a, b := multiset(BucketResults(mine, theirs, n, n)), multiset(Joined(mine, IdSet(theirs)));
    forall r: Row
      ensures a[r] == b[r]
    {
      CountInResults(mine, theirs, n, n, r);
    }
  }

  // ----- Sessions per bucket -----

  /** `take` is what a session gives the party holding `mine` against a peer holding `theirs`. */
  ghost predicate SessionTake(mine: seq<Row>, theirs: seq<Row>, take: seq<nat>) {
    && Ascending(take)
    && (forall k: nat :: k in take <==> k < |mine| && mine[k].hashedId in IdSet(theirs))
  }

  /** A finished session over the hashed ids gives just that. */
  lemma FinishedSessionTakes(c: PsiSession.Session, w: seq<PsiFlow.Party>, p: nat, mine: seq<Row>, theirs: seq<Row>)
    requires PsiSession.ValidSession(c) && PsiSession.OneWidth(c) && PsiSession.Commutes(c) && PsiSession.Injective(c)
    requires PsiFlow.IsParty(p) && c.recvs[p] && c.inputs[p] == Ids(mine) && c.inputs[1 - p] == Ids(theirs)
    requires |w| == 2 && PsiFlow.Reachable(PsiSession.FlowOf(c), w) && PsiFlow.Finished(PsiSession.FlowOf(c), w)
    ensures SessionTake(mine, theirs, w[p].takeIndex)
  {
    PsiSession.SessionResult(c, w, p);
    assert forall id :: id in Ids(theirs) <==> id in IdSet(theirs);
  }

  /** Ascending lists with the same members are equal. */
  lemma {:induction false} AscendingUnique(a: seq<nat>, b: seq<nat>)
    requires Ascending(a) && Ascending(b)
    requires forall k :: k in a <==> k in b
    ensures a == b
  {
    assert b != [] ==> b[0] in b;
    if a != [] {
      assert a[0] in b;
      assert b[0] in a;
      var i :| 0 <= i < |a| && a[i] == b[0];
      var j :| 0 <= j < |b| && b[j] == a[0];
      assert a[0] == b[0];
      forall k
        ensures k in a[1..] <==> k in b[1..]
      {
        assert k in a <==> k == a[0] || k in a[1..];
        assert k in b <==> k == b[0] || k in b[1..];
      }
      AscendingUnique(a[1..], b[1..]);
    }
  }

  lemma SessionGivesJoined(mine: seq<Row>, theirs: seq<Row>, take: seq<nat>)
    requires SessionTake(mine, theirs, take)
    ensures InRange(mine, take) && Take(mine, take) == Joined(mine, IdSet(theirs))
  {
    MatchesAreThePositions(0, Ids(mine), IdSet(theirs));
    var m := MatchesFrom(0, Ids(mine), IdSet(theirs));
    forall k: nat
      ensures k in take <==> k in m
    {
      if k < |mine| {
        assert Ids(mine)[k] == mine[k].hashedId;
        assert 0 + k in m <==> Ids(mine)[k] in IdSet(theirs);
      }
    }
    AscendingUnique(take, m);
    assert Ids(mine)[0..] == Ids(mine) && mine[0..] == mine;
    SessionTakesJoined(mine, IdSet(theirs), 0);
  }

  /** The outputs of the bucket sessions put together in bucket order. */
  function Collected(mine: seq<Row>, n: nat, takes: seq<seq<nat>>, k: nat): seq<Row>
    requires n >= 1 && k <= |takes| <= n
    requires forall b :: 0 <= b < |takes| ==> InRange(InBucket(mine, n, b), takes[b])
  {
    if k == 0 then [] else Collected(mine, n, takes, k - 1) + Take(InBucket(mine, n, k - 1), takes[k - 1])
  }

  /** A session per bucket, each paired with the peer's bucket of the same number, together select the rows
      that one session on the whole inputs selects, each as often. */
  lemma BucketSessionsEqualOneSession(mine: seq<Row>, theirs: seq<Row>, n: nat, takes: seq<seq<nat>>, whole: seq<nat>)
    requires n >= 1 && |takes| == n
    requires forall b :: 0 <= b < n ==> SessionTake(InBucket(mine, n, b), InBucket(theirs, n, b), takes[b])
    requires SessionTake(mine, theirs, whole)
    ensures forall b :: 0 <= b < n ==> InRange(InBucket(mine, n, b), takes[b])
    ensures InRange(mine, whole)
    ensures multiset(Collected(mine, n, takes, n)) == multiset(Take(mine, whole))
  {
    forall b | 0 <= b < n
      ensures InRange(InBucket(mine, n, b), takes[b])
      ensures Take(InBucket(mine, n, b), takes[b]) == BucketResult(mine, theirs, n, b)
    {
      SessionGivesJoined(InBucket(mine, n, b), InBucket(theirs, n, b), takes[b]);
    }
    CollectedIsResults(mine, theirs, n, takes, n);
    SessionGivesJoined(mine, theirs, whole);
    BucketedEqualsWhole(mine, theirs, n);
  }

  lemma {:induction false} CollectedIsResults(mine: seq<Row>, theirs: seq<Row>, n: nat, takes: seq<seq<nat>>, k: nat)
    requires n >= 1 && k <= |takes| <= n
    requires forall b :: 0 <= b < |takes| ==>
               InRange(InBucket(mine, n, b), takes[b])
               && Take(InBucket(mine, n, b), takes[b]) == BucketResult(mine, theirs, n, b)
    ensures Collected(mine, n, takes, k) == BucketResults(mine, theirs, n, k)
  {
    if k > 0 {
      CollectedIsResults(mine, theirs, n, takes, k - 1);
    }
  }
}

/** A whole run of one party: partition by hash, one session per block, outputs put together. */
module PsiRun {
  import opened Wrappers
  import opened PsiBatches
  import opened PsiBuckets
  import Dispatch

  /** The outputs written to the single output file: slot by slot, leaving out empty slots. */
  function Written(outputs: seq<Option<seq<Row>>>): seq<Row> {
    if outputs == [] then []
    else
      var last := outputs[|outputs| - 1];
      Written(outputs[..|outputs| - 1]) + if last.Some? then last.value else []
  }

  /** What an actor makes of block `k` is what the session on both parties' buckets `k` selects. */
  ghost predicate RunsSessions(action: (nat, seq<Row>) -> seq<Row>, mine: seq<Row>, theirs: seq<Row>, n: nat,
                               takes: seq<seq<nat>>)
    requires n >= 1
  {
    && |takes| == n
    && forall k :: 0 <= k < n ==>
         && SessionTake(InBucket(mine, n, k), InBucket(theirs, n, k), takes[k])
         && InRange(InBucket(mine, n, k), takes[k])
         && action(k, InBucket(mine, n, k)) == Take(InBucket(mine, n, k), takes[k])
  }

  lemma {:induction false} WrittenIsCollected(outputs: seq<Option<seq<Row>>>, mine: seq<Row>, n: nat,
                                              takes: seq<seq<nat>>, k: nat)
    requires n >= 1 && k <= |takes| <= n && k <= |outputs|
    requires forall b :: 0 <= b < |takes| ==> InRange(InBucket(mine, n, b), takes[b])
    requires forall b :: 0 <= b < k ==> outputs[b] == Some(Take(InBucket(mine, n, b), takes[b]))
    ensures Written(outputs[..k]) == Collected(mine, n, takes, k)
  {
    if k > 0 {
      assert outputs[..k][..k - 1] == outputs[..k - 1];
      WrittenIsCollected(outputs, mine, n, takes, k - 1);
    }
  }

  /** When all blocks are complete, the output file holds the rows one session on the whole inputs selects, each as
      often, whatever the order in which the actors finished. */
  lemma CompleteRunIsWholeResult(mine: seq<Row>, theirs: seq<Row>, n: nat, action: (nat, seq<Row>) -> seq<Row>,
                                 takes: seq<seq<nat>>, whole: seq<nat>, outputs: seq<Option<seq<Row>>>,
                                 p: Dispatch.Progress)
    requires n >= 1 && RepartitionByHash(mine, n).Some?
    requires RunsSessions(action, mine, theirs, n, takes) && SessionTake(mine, theirs, whole)
    requires Dispatch.OutputsMatch(RepartitionByHash(mine, n).value, action, outputs, p) && Dispatch.AllDone(p)
    ensures InRange(mine, whole) && multiset(Written(outputs)) == multiset(Take(mine, whole))
  {
    RepartitionPutsRowsInBuckets(mine, n);
    forall b | 0 <= b < n
      ensures outputs[b] == Some(Take(InBucket(mine, n, b), takes[b]))
    {
      assert Dispatch.Done(p, b);
    }
    WrittenIsCollected(outputs, mine, n, takes, n);
    assert outputs[..n] == outputs;
    BucketSessionsEqualOneSession(mine, theirs, n, takes, whole);
  }

  /** One party's run. Without a result the table was empty, the bucket column overflowed, or the run loop did not
      complete. */
  method RunPsi(mine: seq<Row>, n: nat, maxActors: nat, action: (nat, seq<Row>) -> seq<Row>,
                events: seq<Dispatch.Event>, ghost theirs: seq<Row>, ghost takes: seq<seq<nat>>, ghost whole: seq<nat>)
    returns (result: Option<seq<Row>>)
    requires n >= 1 && RunsSessions(action, mine, theirs, n, takes) && SessionTake(mine, theirs, whole)
    ensures InRange(mine, whole)
    ensures result.Some? ==> ColumnFits(mine, n) && multiset(result.value) == multiset(Take(mine, whole))
    ensures result.Some? <==>
            mine != [] && ColumnFits(mine, n) && maxActors > 0 && Dispatch.TallyOf(events, n, maxActors).finished == n
  {
    SessionGivesJoined(mine, theirs, whole);
    var parts := RepartitionByHash(mine, n);
    if parts.None? {
      return None;
    }
    var outcome, outputs, dispatched;
    ghost var p;
    outcome, outputs, dispatched, p := Dispatch.RunApp(parts.value, maxActors, action, events);
    if outcome != Dispatch.Completed {
      return None;
    }
    CompleteRunIsWholeResult(mine, theirs, n, action, takes, whole, outputs, p);
    result := Some(Written(outputs));
  }
}

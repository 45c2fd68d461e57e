/** The leader's sending of its example ids in batches, and what the follower's queue receives. */
module ExampleIds {
  import opened DataBlocks
  import opened DataJoiner

  const SYNC_EXAMPLE_IDS: nat := 2048

  /** One LiteExampleIds message. */
  datatype Lite = Lite(ids: seq<Id>, finished: bool)

  /** The messages for `ids`: a message goes out when it exceeds the limit, and a final one always follows. */
  function IdBatches(ids: seq<Id>): (r: seq<Lite>)
    ensures r != []
  {
    if |ids| <= SYNC_EXAMPLE_IDS then [Lite(ids, true)]
    else [Lite(ids[..SYNC_EXAMPLE_IDS + 1], false)] + IdBatches(ids[SYNC_EXAMPLE_IDS + 1..])
  }

  function AllIds(sent: seq<Lite>): seq<Id> {
    if sent == [] then [] else sent[0].ids + AllIds(sent[1..])
  }

  lemma {:induction false} AllIdsAppend(a: seq<Lite>, b: seq<Lite>)
    ensures AllIds(a + b) == AllIds(a) + AllIds(b)
  {
    if a == [] {
      assert a + b == b;
    } else {
      assert (a + b)[1..] == a[1..] + b;
      AllIdsAppend(a[1..], b);
    }
  }

  /** The messages carry every id once, in order; exactly the last is marked finished, and every other one has 2049 ids. */
  lemma {:induction false} IdBatchesCarryAll(ids: seq<Id>)
    ensures var sent := IdBatches(ids);
            && AllIds(sent) == ids
            && (forall i :: 0 <= i < |sent| ==> (sent[i].finished <==> i == |sent| - 1))
            && (forall i :: 0 <= i < |sent| - 1 ==> |sent[i].ids| == SYNC_EXAMPLE_IDS + 1)
            && |sent[|sent| - 1].ids| <= SYNC_EXAMPLE_IDS
  {
    if |ids| <= SYNC_EXAMPLE_IDS {
      assert AllIds([Lite(ids, true)]) == ids + AllIds([]);
    } else {
      var rest := ids[SYNC_EXAMPLE_IDS + 1..];
      IdBatchesCarryAll(rest);
      assert IdBatches(ids)[1..] == IdBatches(rest);
      assert ids == ids[..SYNC_EXAMPLE_IDS + 1] + rest;
    }
  }

  /** What is still to be sent once `sent` is out and the ids up to `from` are in it. */
  ghost predicate SentUpTo(sent: seq<Lite>, ids: seq<Id>, from: nat) {
    from <= |ids| && IdBatches(ids) == sent + IdBatches(ids[from..])
  }

  lemma SentMore(sent: seq<Lite>, ids: seq<Id>, from: nat, end: nat)
    requires SentUpTo(sent, ids, from) && end == from + SYNC_EXAMPLE_IDS + 1 <= |ids|
    ensures SentUpTo(sent + [Lite(ids[from..end], false)], ids, end)
  {
    assert ids[from..][..SYNC_EXAMPLE_IDS + 1] == ids[from..end];
    assert ids[from..][SYNC_EXAMPLE_IDS + 1..] == ids[end..];
  }

  lemma SentIsPrefix(sent: seq<Lite>, ids: seq<Id>, from: nat)
    requires SentUpTo(sent, ids, from)
    ensures |sent| < |IdBatches(ids)| && sent == IdBatches(ids)[..|sent|]
  {
  }

  lemma SentAll(sent: seq<Lite>, ids: seq<Id>, from: nat)
    requires SentUpTo(sent, ids, from) && |ids| - from <= SYNC_EXAMPLE_IDS
    ensures IdBatches(ids) == sent + [Lite(ids[from..], true)]
  {
  }

  lemma SliceMore(ids: seq<Id>, from: nat, i: nat)
    requires from <= i < |ids|
    ensures ids[from..i] + [ids[i]] == ids[from..i + 1]
  {
  }

  /** The sender's loop over `item_dict`. A peer that has already finished gets nothing; a failing call ends the
      loop, and the next activation starts from the first id again. */
  method Sender(ids: seq<Id>, followerFinished: bool, callsThatWork: nat)
    returns (sent: seq<Lite>, failed: bool, finished: bool)
    ensures finished == followerFinished
    ensures followerFinished ==> sent == [] && !failed
    ensures !followerFinished ==> (failed <==> callsThatWork < |IdBatches(ids)|)
    ensures !followerFinished ==> sent == if failed then IdBatches(ids)[..callsThatWork] else IdBatches(ids)
  {
    sent, failed, finished := [], false, followerFinished;
    if followerFinished {
      return;
    }
    var examples: seq<Id> := [];
    ghost var from := 0;
    assert ids[0..] == ids;
    for i := 0 to |ids|
      invariant |examples| <= SYNC_EXAMPLE_IDS && from + |examples| == i && examples == ids[from..i]
      invariant SentUpTo(sent, ids, from) && |sent| <= callsThatWork
    {
      SliceMore(ids, from, i);
      examples := examples + [ids[i]];
      if |examples| > SYNC_EXAMPLE_IDS {
        if |sent| == callsThatWork {
          SentIsPrefix(sent, ids, from);
          failed := true;
          return;
        }
        SentMore(sent, ids, from, i + 1);
        sent := sent + [Lite(examples, false)];
        examples := [];
        from := i + 1;
      }
    }
    SentAll(sent, ids, from);
    assert examples == ids[from..];
    if |sent| == callsThatWork {
      SentIsPrefix(sent, ids, from);
      failed := true;
      return;
    }
    sent := sent + [Lite(examples, true)];
  }

  // ----- What reaches the follower -----

  function ReceivedIn(e: Event): seq<Lite> {
    if e.Batch? then [Lite(e.ids, e.finished)] else []
  }

  /** The batches among the follower's rounds, as they were sent. */
  function Received(events: seq<Event>): seq<Lite> {
    if events == [] then [] else ReceivedIn(events[0]) + Received(events[1..])
  }

  lemma {:induction false} ReceivedStream(events: seq<Event>)
    ensures Stream(events) == AllIds(Received(events))
  {
    if events != [] {
      ReceivedStream(events[1..]);
      var head := ReceivedIn(events[0]);
      AllIdsAppend(head, Received(events[1..]));
      assert head != [] ==> AllIds(head) == head[0].ids + AllIds([]);
    }
  }

  predicate NoneFinished(sent: seq<Lite>) {
    forall k :: 0 <= k < |sent| ==> !sent[k].finished
  }

  lemma {:induction false} ReceivedUnfinished(events: seq<Event>)
    requires NoneFinished(Received(events))
    ensures Unfinished(events)
  {
    if events != [] {
      var head, rest := ReceivedIn(events[0]), Received(events[1..]);
      assert forall k :: 0 <= k < |rest| ==> rest[k] == (head + rest)[|head| + k];
      assert head != [] ==> (head + rest)[0] == head[0];
      ReceivedUnfinished(events[1..]);
      assert forall i :: 1 <= i < |events| ==> events[i] == events[1..][i - 1];
    }
  }

  lemma {:induction false} ReceivedAppend(events: seq<Event>, e: Event)
    ensures Received(events + [e]) == Received(events) + ReceivedIn(e)
  {
    if events == [] {
      assert (events + [e])[1..] == [];
    } else {
      assert (events + [e])[1..] == events[1..] + [e];
      ReceivedAppend(events[1..], e);
    }
  }

  /** One full transmission, however the follower's rounds fall between its batches: the emitted blocks hold
      exactly the leader's ids that the follower has, in the leader's order. */
  lemma TransmissionJoins(ids: seq<Id>, events: seq<Event>, last: Event, o: Options)
    requires last.Batch? && Received(events + [last]) == IdBatches(ids)
    ensures var j := Process(START, events + [last], o);
            && j.open.None?
            && Ids(j.closed) == Present(ids, o.items)
            && forall k :: 0 <= k < |j.closed| ==> BlockSized(j.closed[k], o)
  {
    IdBatchesCarryAll(ids);
    ReceivedAppend(events, last);
    ReceivedStream(events + [last]);
    var sent := IdBatches(ids);
    assert sent[|sent| - 1] == Lite(last.ids, last.finished);
    assert forall k :: 0 <= k < |Received(events)| ==> Received(events)[k] == sent[k];
    ReceivedUnfinished(events);
    JoinedIsFiltered(events, last, o);
  }

  /** A transmission that failed after some batches and was repeated doubles those batches' ids: the follower
      receives every id once if and only if the failed transmission delivered nothing. */
  lemma RepeatedTransmission(ids: seq<Id>, delivered: nat)
    requires delivered < |IdBatches(ids)|
    ensures AllIds(IdBatches(ids)[..delivered] + IdBatches(ids)) == ids <==> delivered == 0
  {
    IdBatchesCarryAll(ids);
    var head := IdBatches(ids)[..delivered];
    AllIdsAppend(head, IdBatches(ids));
    if delivered > 0 {
      assert |head[0].ids| == SYNC_EXAMPLE_IDS + 1;
    }
  }
}

/** A join whose finalizer has failed: the maker is kept, its file is closed, and a new generator goes on with it, unless
    the finished flag is already set and ends it at once. */
module JoinerFaults {
  import opened Wrappers
  import opened DataBlocks
  import opened BlockManager
  import opened BlockMaker
  import opened DataJoiner

  /** The kept maker's block, whether its data file has left its temporary name, whether the running generator has
      bound its batch variable, and whether a finalizer call has succeeded meanwhile. */
  datatype Stalled = Stalled(store: Store, index: nat, ids: seq<Id>, moved: bool, bound: bool, resumed: bool)

  /** A round of the loop, with what would happen around a finalizer call in it, or a sync by the sender's thread. */
  datatype Turn = Loop(e: Event, f: Faults) | SenderSync

  /** A moved file is not there to be renamed again. */
  function Retry(s: Stalled, f: Faults): Faults {
    if s.moved then f.(data := SourceMissing) else f
  }

  /** The finalizer of the kept maker. An error ends the generator, and the next one has no batch yet. */
  function Finalizer(s: Stalled, f: Faults, items: Items): Stalled
    requires AllIn(s.ids, items)
  {
    var g := Retry(s, f);
    var (store, r) := Finalize(s.store, MetaFor(s.index, s.ids, items), |s.ids|, Records(s.ids, items), g);
    Stalled(store, s.index, s.ids, s.moved || Moves(g.data), r == Finished, r == Finished)
  }

  /** The joiner right after the finalizer failed with `f`. */
  function Stall(store: Store, index: nat, ids: seq<Id>, f: Faults, items: Items): Stalled
    requires AllIn(ids, items)
  {
    Finalizer(Stalled(store, index, ids, false, true, false), f, items)
  }

  /** Whether a round gets as far as a finalizer call. A known id does not: it is written to the closed file, which
      raises. Nor does a time span that runs out before the generator's first batch. */
  predicate Tries(bound: bool, e: Event, items: Items) {
    match e
    case Batch(ids, finished, span) => Present(ids, items) == [] && (finished || span)
    case Idle(span) => span && bound
  }

  /** Whether a batch variable is bound after a round without a finalizer call. */
  predicate Binds(bound: bool, e: Event, items: Items) {
    if e.Batch? then Present(e.ids, items) == [] else bound
  }

  function TakeTurn(s: Stalled, turn: Turn, items: Items): Stalled
    requires AllIn(s.ids, items)
  {
    if turn.SenderSync? then s.(store := Sync(s.store))
    else if Tries(s.bound, turn.e, items) then Finalizer(s, turn.f, items)
    else s.(bound := Binds(s.bound, turn.e, items))
  }

  function Turns(s: Stalled, turns: seq<Turn>, items: Items): (t: Stalled)
    requires AllIn(s.ids, items)
    decreases |turns|
  {
    if turns == [] || s.resumed then s else Turns(TakeTurn(s, turns[0], items), turns[1..], items)
  }

  /** What happens around the finalizer calls the turns get as far as, as long as none succeeds. */
  function Tried(bound: bool, turns: seq<Turn>, items: Items): seq<Faults>
    decreases |turns|
  {
    if turns == [] then []
    else if turns[0].SenderSync? then Tried(bound, turns[1..], items)
    else if Tries(bound, turns[0].e, items) then [turns[0].f] + Tried(false, turns[1..], items)
    else Tried(Binds(bound, turns[0].e, items), turns[1..], items)
  }

  /** Call `i` goes well, and none before it moved the data file. */
  predicate Repairs(tried: seq<Faults>, i: nat) {
    i < |tried| && tried[i] == NO_FAULTS && forall j :: 0 <= j < i ==> !Moves(tried[j].data)
  }

  ghost predicate Repaired(tried: seq<Faults>) {
    exists i: nat :: Repairs(tried, i)
  }

  lemma RepairsShift(f: Faults, rest: seq<Faults>, i: nat)
    ensures Repairs([f] + rest, i + 1) <==> !Moves(f.data) && Repairs(rest, i)
  {
    var tried := [f] + rest;
    assert tried[0] == f && forall j :: 0 <= j < |rest| ==> tried[j + 1] == rest[j];
    assert forall j :: 0 <= j < i && i < |rest| ==> rest[j] == tried[j + 1];
  }

  lemma RepairedStep(f: Faults, rest: seq<Faults>)
    ensures Repaired([f] + rest) <==> f == NO_FAULTS || (!Moves(f.data) && Repaired(rest))
  {
    var tried := [f] + rest;
    if f == NO_FAULTS {
      assert Repairs(tried, 0);
    } else if Repaired(tried) {
      var i: nat :| Repairs(tried, i);
      RepairsShift(f, rest, i - 1);
    } else if Repaired(rest) {
      var i: nat :| Repairs(rest, i);
      RepairsShift(f, rest, i);
    }
  }

  /** Once the data file has been moved nothing on disk ever changes again, whatever the rounds bring. */
  lemma {:induction false} NothingMoreJoined(s: Stalled, turns: seq<Turn>, items: Items)
    requires AllIn(s.ids, items) && s.moved && !s.resumed
    ensures var t := Turns(s, turns, items);
            && !t.resumed && t.store.metas == s.store.metas && t.store.blocks == s.store.blocks
            && Sync(t.store) == Sync(s.store)
    decreases |turns|
  {
    if turns != [] {
      NothingMoreJoined(TakeTurn(s, turns[0], items), turns[1..], items);
    }
  }

  /** The kept block is the next one to store, and its data file still has its temporary name. */
  ghost predicate Retryable(s: Stalled, closed: seq<Closed>, items: Items) {
    && Directory(s.store, closed, items) && s.index == |closed| && s.ids != [] && AllIn(s.ids, items)
    && !s.moved && !s.resumed
  }

  lemma FinalizerEffect(s: Stalled, f: Faults, closed: seq<Closed>, items: Items)
    requires Retryable(s, closed, items)
    ensures var t := Finalizer(s, f, items);
            && (t.resumed <==> f == NO_FAULTS) && (t.moved <==> Moves(f.data)) && t.ids == s.ids && t.bound == t.resumed
            && (t.resumed ==> Directory(t.store, closed + [Closed(s.ids, Full)], items))
            && (!t.resumed ==> Directory(Sync(t.store), AfterFault(closed, s.ids, f), items))
            && (!t.moved ==> t == s.(bound := false))
  {
    if f == NO_FAULTS {
      FinishedMore(s.store, closed, items, Closed(s.ids, Full));
    } else {
      FaultLeavesDirectory(s.store, closed, items, s.ids, f);
    }
  }

  lemma {:induction false} NonePresent(ids: seq<Id>, items: Items)
    ensures Present(ids, items) == [] <==> forall id :: id in ids ==> id !in items
  {
    if ids != [] {
      var last := |ids| - 1;
      NonePresent(ids[..last], items);
      assert ids == ids[..last] + [ids[last]];
    }
  }

  /** One round, on the batch itself: it gets to a finalizer call, which goes well, only with a batch of unknown ids that
      is finished or meets the end of the time span, or in an idle round at that end after such a batch. */
  lemma RoundResumesIff(s: Stalled, e: Event, f: Faults, closed: seq<Closed>, items: Items)
    requires Retryable(s, closed, items)
    ensures var t := TakeTurn(s, Loop(e, f), items);
            var unknown := e.Batch? && forall id :: id in e.ids ==> id !in items;
            var calls := (e.span && (unknown || (e.Idle? && s.bound))) || (unknown && e.finished);
            && (t.resumed <==> calls && f == NO_FAULTS)
            && (t.moved <==> calls && Moves(f.data))
            && (!calls ==> t == s.(bound := if e.Batch? then unknown else s.bound))
            && (calls && f != NO_FAULTS ==> !t.bound)
  {
    if e.Batch? {
      NonePresent(e.ids, items);
    }
    FinalizerEffect(s, f, closed, items);
  }

  lemma {:induction false} RetryResumesIff(s: Stalled, closed: seq<Closed>, turns: seq<Turn>, items: Items)
    requires Retryable(s, closed, items)
    ensures var t := Turns(s, turns, items);
            && (t.resumed <==> Repaired(Tried(s.bound, turns, items)))
            && (t.resumed ==> Directory(t.store, closed + [Closed(s.ids, Full)], items))
    decreases |turns|
  {
    if turns != [] {
      var t := TakeTurn(s, turns[0], items);
      if turns[0].Loop? && Tries(s.bound, turns[0].e, items) {
        FinalizerEffect(s, turns[0].f, closed, items);
        RepairedStep(turns[0].f, Tried(false, turns[1..], items));
        if t.moved && !t.resumed {
          NothingMoreJoined(t, turns[1..], items);
        }
      }
      if Retryable(t, closed, items) {
        RetryResumesIff(t, closed, turns[1..], items);
      }
    }
  }

  /** After a failed finalizer the join goes on if and only if the data file was not moved and, among the later calls,
      one goes well before any other moves it. Once it was moved the directory holds, for good, the earlier blocks and
      at most the block that failed. */
  lemma ResumesIff(store: Store, closed: seq<Closed>, items: Items, ids: seq<Id>, f: Faults, turns: seq<Turn>)
    requires Directory(store, closed, items) && AllIn(ids, items) && ids != [] && f != NO_FAULTS
    ensures var t := Turns(Stall(store, |closed|, ids, f, items), turns, items);
            && (t.resumed <==> !Moves(f.data) && Repaired(Tried(false, turns, items)))
            && (t.resumed ==> Directory(t.store, closed + [Closed(ids, Full)], items))
            && (Moves(f.data) ==> Directory(Sync(t.store), AfterFault(closed, ids, f), items))
  {
    FinalizerEffect(Stalled(store, |closed|, ids, false, true, false), f, closed, items);
    var s := Stall(store, |closed|, ids, f, items);
    if Moves(f.data) {
      NothingMoreJoined(s, turns, items);
    } else {
      RetryResumesIff(s, closed, turns, items);
    }
  }
}

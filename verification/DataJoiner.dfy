/** The follower's streaming join: ids sent by the leader, filtered by the follower's examples, cut into blocks. */
module DataJoiner {
  import opened Wrappers
  import opened DataBlocks
  import opened BlockManager
  import opened BlockMaker

  // ----- What the join computes -----

  datatype Cause = Full | AtEnd | TimeSpan

  /** An emitted block's ids and why it was closed. */
  datatype Closed = Closed(ids: seq<Id>, cause: Cause)

  /** `flag` is the finished mark of the batch taken last. */
  datatype Join = Join(open: Option<seq<Id>>, closed: seq<Closed>, flag: bool, finished: bool)

  datatype Options = Options(items: Items, threshold: int)

  /** One round of the loop: a batch from the queue or an empty queue, and whether the time span has run out. */
  datatype Event = Batch(ids: seq<Id>, finished: bool, span: bool) | Idle(span: bool)

  const START: Join := Join(None, [], false, false)

  function Flush(j: Join, cause: Cause): Join {
    if j.open.None? then j
    else Join(None, j.closed + [Closed(j.open.value, cause)], j.flag, j.finished || j.flag)
  }

  function OpenIds(j: Join): seq<Id> {
    if j.open.Some? then j.open.value else []
  }

  function TakeId(j: Join, id: Id, o: Options): Join {
    if id !in o.items then j
    else
      var k := j.(open := Some(OpenIds(j) + [id]));
      if |k.open.value| >= o.threshold then Flush(k, Full) else k
  }

  function TakeIds(j: Join, ids: seq<Id>, o: Options): Join {
    if ids == [] then j else TakeId(TakeIds(j, ids[..|ids| - 1], o), ids[|ids| - 1], o)
  }

  function FlushIf(c: bool, j: Join, cause: Cause): Join {
    if c then Flush(j, cause) else j
  }

  function TakeEvent(j: Join, e: Event, o: Options): Join {
    match e
    case Batch(ids, finished, span) =>
      FlushIf(span, FlushIf(finished, TakeIds(j.(flag := finished), ids, o), AtEnd), TimeSpan)
    case Idle(span) => FlushIf(span, j, TimeSpan)
  }

  /** The loop ends once a finalizer has set the finished flag. */
  function Process(j: Join, events: seq<Event>, o: Options): Join
    decreases |events|
  {
    if events == [] || j.finished then j else Process(TakeEvent(j, events[0], o), events[1..], o)
  }

  // ----- What it guarantees -----

  function Ids(closed: seq<Closed>): seq<Id> {
    if closed == [] then [] else Ids(closed[..|closed| - 1]) + closed[|closed| - 1].ids
  }

  /** A threshold below one acts as one. */
  function Limit(o: Options): int {
    if o.threshold < 1 then 1 else o.threshold
  }

  ghost predicate BlockSized(c: Closed, o: Options) {
    1 <= |c.ids| <= Limit(o) && (c.cause == Full <==> |c.ids| == Limit(o))
  }

  /** `stream` is what the leader has sent so far. */
  ghost predicate JoinInv(j: Join, stream: seq<Id>, o: Options) {
    // One value, so that proving it is one obligation and not one per conjunct.
    var holds :=
      && Ids(j.closed) + OpenIds(j) == Present(stream, o.items)
      && (j.open.Some? ==> 1 <= |j.open.value| < Limit(o))
      && (forall k :: 0 <= k < |j.closed| ==> BlockSized(j.closed[k], o));
    holds
  }

  lemma IdsSnoc(closed: seq<Closed>, c: Closed)
    ensures Ids(closed + [c]) == Ids(closed) + c.ids
  {
    assert (closed + [c])[..|closed|] == closed;
  }

  lemma CloseKeepsInv(j: Join, c: Closed, flag: bool, finished: bool, stream: seq<Id>, o: Options)
    requires Ids(j.closed) + c.ids == Present(stream, o.items) && BlockSized(c, o)
    requires forall k :: 0 <= k < |j.closed| ==> BlockSized(j.closed[k], o)
    ensures JoinInv(Join(None, j.closed + [c], flag, finished), stream, o)
  {
    IdsSnoc(j.closed, c);
  }

  lemma FlushKeepsInv(j: Join, cause: Cause, stream: seq<Id>, o: Options)
    requires JoinInv(j, stream, o) && cause != Full
    ensures JoinInv(Flush(j, cause), stream, o)
  {
    if j.open.Some? {
      CloseKeepsInv(j, Closed(j.open.value, cause), j.flag, j.finished || j.flag, stream, o);
    }
  }

  lemma OpenGrows(j: Join, id: Id, stream: seq<Id>, o: Options)
    requires Ids(j.closed) + OpenIds(j) == Present(stream, o.items)
    ensures Ids(j.closed) + (OpenIds(j) + [id]) == Present(stream, o.items) + [id]
  {
  }

  lemma TakeIdKeepsInv(j: Join, id: Id, stream: seq<Id>, o: Options)
    requires JoinInv(j, stream, o)
    ensures JoinInv(TakeId(j, id, o), stream + [id], o)
  {
    PresentSnoc(stream, id, o.items);
    if id in o.items {
      var ids := OpenIds(j) + [id];
      OpenGrows(j, id, stream, o);
      if |ids| >= o.threshold {
        CloseKeepsInv(j, Closed(ids, Full), j.flag, j.finished || j.flag, stream + [id], o);
      }
    }
  }

  lemma {:induction false} TakeIdsKeepsInv(j: Join, ids: seq<Id>, stream: seq<Id>, o: Options)
    requires JoinInv(j, stream, o)
    ensures JoinInv(TakeIds(j, ids, o), stream + ids, o)
  {
    if ids == [] {
      assert stream + ids == stream;
    } else {
      var front := ids[..|ids| - 1];
      TakeIdsKeepsInv(j, front, stream, o);
      TakeIdKeepsInv(TakeIds(j, front, o), ids[|ids| - 1], stream + front, o);
      assert stream + front + [ids[|ids| - 1]] == stream + ids;
    }
  }

  function Sent(e: Event): seq<Id> {
    if e.Batch? then e.ids else []
  }

  function Stream(events: seq<Event>): seq<Id> {
    if events == [] then [] else Sent(events[0]) + Stream(events[1..])
  }

  lemma TakeEventKeepsInv(j: Join, e: Event, stream: seq<Id>, o: Options)
    requires JoinInv(j, stream, o)
    ensures JoinInv(TakeEvent(j, e, o), stream + Sent(e), o)
  {
    match e {
      case Batch(ids, finished, span) =>
        var k := TakeIds(j.(flag := finished), ids, o);
        TakeIdsKeepsInv(j.(flag := finished), ids, stream, o);
        FlushKeepsInv(k, AtEnd, stream + ids, o);
        FlushKeepsInv(FlushIf(finished, k, AtEnd), TimeSpan, stream + ids, o);
      case Idle(_) =>
        assert stream + Sent(e) == stream;
        FlushKeepsInv(j, TimeSpan, stream, o);
    }
  }

  /** The flag follows the batch, and the joiner is finished exactly when a finished batch closed a block. */
  lemma {:induction false} TakeIdsFinished(j: Join, ids: seq<Id>, o: Options)
    ensures var k := TakeIds(j, ids, o);
            && k.flag == j.flag
            && (j.flag ==> (k.finished || k.open.Some? <==> j.finished || j.open.Some? || Present(ids, o.items) != []))
            && (!j.flag ==> k.finished == j.finished)
  {
    if ids != [] {
      TakeIdsFinished(j, ids[..|ids| - 1], o);
    }
  }

  lemma TakeEventFinished(j: Join, e: Event, o: Options)
    requires j.flag ==> j.open.None?
    ensures var k := TakeEvent(j, e, o);
            && (k.flag ==> k.open.None?)
            && k.flag == (if e.Batch? then e.finished else j.flag)
            && (k.finished <==> j.finished || (e.Batch? && e.finished && (j.open.Some? || Present(e.ids, o.items) != [])))
  {
    if e.Batch? {
      TakeIdsFinished(j.(flag := e.finished), e.ids, o);
    }
  }

  /** One full transmission: only the last batch is marked finished. */
  predicate Unfinished(events: seq<Event>) {
    forall i :: 0 <= i < |events| ==> events[i].Batch? ==> !events[i].finished
  }

  lemma StreamSplit(stream: seq<Id>, events: seq<Event>)
    requires events != []
    ensures stream + Stream(events) == stream + Sent(events[0]) + Stream(events[1..])
  {
  }

  lemma {:induction false} ProcessUnfinished(j: Join, events: seq<Event>, stream: seq<Id>, all: seq<Id>, o: Options)
    requires JoinInv(j, stream, o) && !j.flag && !j.finished && Unfinished(events) && all == stream + Stream(events)
    ensures var k := Process(j, events, o); JoinInv(k, all, o) && !k.flag && !k.finished
    decreases |events|
  {
    if events == [] {
      assert all == stream;
    } else {
      var k, taken := TakeEvent(j, events[0], o), stream + Sent(events[0]);
      TakeEventKeepsInv(j, events[0], stream, o);
      TakeEventFinished(j, events[0], o);
      StreamSplit(stream, events);
      ProcessUnfinished(k, events[1..], taken, all, o);
    }
  }

  lemma {:induction false} ProcessThen(j: Join, events: seq<Event>, e: Event, o: Options)
    requires !Process(j, events, o).finished && !j.finished
    ensures Process(j, events + [e], o) == TakeEvent(Process(j, events, o), e, o)
    decreases |events|
  {
    if events == [] {
      assert Process(TakeEvent(j, e, o), [], o) == TakeEvent(j, e, o);
      assert (events + [e])[1..] == [];
    } else {
      assert (events + [e])[1..] == events[1..] + [e];
      ProcessThen(TakeEvent(j, events[0], o), events[1..], e, o);
    }
  }

  lemma {:induction false} StreamAppend(a: seq<Event>, e: Event)
    ensures Stream(a + [e]) == Stream(a) + Sent(e)
  {
    assert (a + [e])[1..] == if a == [] then [] else a[1..] + [e];
    if a != [] {
      StreamAppend(a[1..], e);
      assert Stream(a + [e]) == Sent(a[0]) + Stream(a[1..] + [e]);
    }
  }

  /** Once the finished batch is processed nothing is open, and the emitted blocks are the leader's ids that the
      follower has, in order, cut into blocks of the threshold's size; only a block flushed at the end or by the
      time span is shorter. The finished flag is set exactly when that last batch closed a block. */
  lemma JoinedIsFiltered(events: seq<Event>, last: Event, o: Options)
    requires Unfinished(events) && last.Batch? && last.finished
    ensures var before, j := Process(START, events, o), Process(START, events + [last], o);
            && j.open.None?
            && Ids(j.closed) == Present(Stream(events + [last]), o.items)
            && (forall k :: 0 <= k < |j.closed| ==> BlockSized(j.closed[k], o))
            && (j.finished <==> before.open.Some? || Present(last.ids, o.items) != [])
  {
    var before := Process(START, events, o);
    ProcessUnfinished(START, events, [], Stream(events), o);
    ProcessThen(START, events, last, o);
    StreamAppend(events, last);
    TakeEventKeepsInv(before, last, Stream(events), o);
    TakeEventFinished(before, last, o);
    var j := TakeEvent(before, last, o);
    assert Ids(j.closed) + OpenIds(j) == Ids(j.closed);
  }

  /** With the flag still unset the loop goes on for good: without further batches nothing changes any more. */
  lemma {:induction false} UnfinishedSpins(j: Join, events: seq<Event>, o: Options)
    requires j.open.None? && !j.finished && forall i :: 0 <= i < |events| ==> events[i].Idle?
    ensures Process(j, events, o) == j
    decreases |events|
  {
    if events != [] {
      UnfinishedSpins(j, events[1..], o);
    }
  }

  /** Closed blocks only ever get more. */
  lemma {:induction false} TakeIdsExtends(j: Join, ids: seq<Id>, o: Options)
    ensures j.closed <= TakeIds(j, ids, o).closed
  {
    if ids != [] {
      TakeIdsExtends(j, ids[..|ids| - 1], o);
    }
  }

  lemma TakeEventExtends(j: Join, e: Event, o: Options)
    ensures j.closed <= TakeEvent(j, e, o).closed
  {
    if e.Batch? {
      TakeIdsExtends(j.(flag := e.finished), e.ids, o);
    }
  }

  // ----- When and why blocks are closed -----

  /** The open block is short of the limit. */
  predicate OpenBelow(j: Join, o: Options) {
    j.open.Some? ==> 1 <= |j.open.value| < Limit(o)
  }

  predicate IsLast(e: Event) {
    e.Batch? && e.finished
  }

  /** From `j` to `k` only blocks at the limit were closed. */
  ghost predicate OnlyFull(j: Join, k: Join, o: Options) {
    && j.closed <= k.closed && OpenBelow(k, o)
    && forall i :: |j.closed| <= i < |k.closed| ==> k.closed[i].cause == Full && |k.closed[i].ids| == Limit(o)
  }

  lemma {:induction false} TakeIdsOnlyFull(j: Join, ids: seq<Id>, o: Options)
    requires OpenBelow(j, o)
    ensures OnlyFull(j, TakeIds(j, ids, o), o)
  {
    if ids != [] {
      TakeIdsOnlyFull(j, ids[..|ids| - 1], o);
    }
  }

  /** A round closes blocks at the limit, and after them at most one shorter block: at the end of a finished batch, or
      when the time span has run out. Either of these leaves nothing open, and an idle round without the latter changes
      nothing. */
  lemma RoundCloses(j: Join, e: Event, o: Options)
    requires OpenBelow(j, o)
    ensures var k := TakeEvent(j, e, o);
            && j.closed <= k.closed && OpenBelow(k, o)
            && (e.span || IsLast(e) ==> k.open.None?)
            && (!e.span && !IsLast(e) ==> OnlyFull(j, k, o))
            && (e.Idle? && !e.span ==> k == j)
            && forall i :: |j.closed| <= i < |k.closed| ==>
                 ClosedIn(k.closed[i], e, o) && (i < |k.closed| - 1 ==> k.closed[i].cause == Full)
  {
    if e.Batch? {
      TakeIdsOnlyFull(j.(flag := e.finished), e.ids, o);
    }
  }

  /** Why a round may close a block like that. */
  predicate ClosedIn(c: Closed, e: Event, o: Options) {
    match c.cause
    case Full => |c.ids| == Limit(o) && e.Batch?
    case AtEnd => 1 <= |c.ids| < Limit(o) && IsLast(e)
    case TimeSpan => 1 <= |c.ids| < Limit(o) && e.span
  }

  /** The ids of all blocks, closed or open. */
  function AllIds(j: Join): seq<Id> {
    Ids(j.closed) + OpenIds(j)
  }

  /** What a run over `events` that ended in `k` has done since `j`: no known id is lost, added or moved, and every block
      was closed at the limit, by a finished batch, or by a time span that ran out. */
  ghost predicate RunMeans(j: Join, k: Join, events: seq<Event>, o: Options) {
    && j.closed <= k.closed && OpenBelow(k, o)
    && AllIds(k) == AllIds(j) + Present(Stream(events), o.items)
    && forall i :: |j.closed| <= i < |k.closed| ==> ClosedDuring(k.closed[i], events, o)
  }

  lemma {:induction false} TakeIdsAdds(j: Join, ids: seq<Id>, o: Options)
    ensures AllIds(TakeIds(j, ids, o)) == AllIds(j) + Present(ids, o.items)
  {
    if ids != [] {
      var front, id := ids[..|ids| - 1], ids[|ids| - 1];
      TakeIdsAdds(j, front, o);
      TakeIdAdds(TakeIds(j, front, o), id, o);
    }
  }

  lemma TakeIdAdds(j: Join, id: Id, o: Options)
    ensures AllIds(TakeId(j, id, o)) == AllIds(j) + if id in o.items then [id] else []
  {
    var k := j.(open := Some(OpenIds(j) + [id]));
    assert AllIds(k) == AllIds(j) + [id];
    FlushAdds(true, k, Full);
  }

  lemma FlushAdds(c: bool, j: Join, cause: Cause)
    ensures AllIds(FlushIf(c, j, cause)) == AllIds(j)
  {
    if j.open.Some? {
      IdsSnoc(j.closed, Closed(j.open.value, cause));
    }
  }

  lemma TakeEventAdds(j: Join, e: Event, o: Options)
    ensures AllIds(TakeEvent(j, e, o)) == AllIds(j) + Present(Sent(e), o.items)
  {
    if e.Batch? {
      var before := j.(flag := e.finished);
      var taken := TakeIds(before, e.ids, o);
      assert AllIds(before) == AllIds(j);
      TakeIdsAdds(before, e.ids, o);
      FlushAdds(e.finished, taken, AtEnd);
      FlushAdds(e.span, FlushIf(e.finished, taken, AtEnd), TimeSpan);
    } else {
      FlushAdds(e.span, j, TimeSpan);
    }
  }

  lemma MoreIds(j: Join, k: Join, events: seq<Event>, e: Event, o: Options)
    requires AllIds(k) == AllIds(j) + Present(Stream(events), o.items)
    ensures AllIds(TakeEvent(k, e, o)) == AllIds(j) + Present(Stream(events + [e]), o.items)
  {
    TakeEventAdds(k, e, o);
    PresentMore(events, e, o);
    Associative(AllIds(j), Present(Stream(events), o.items), Present(Sent(e), o.items));
  }

  lemma Associative(a: seq<Id>, b: seq<Id>, c: seq<Id>)
    ensures (a + b) + c == a + (b + c)
  {
  }

  lemma PresentMore(events: seq<Event>, e: Event, o: Options)
    ensures Present(Stream(events + [e]), o.items) == Present(Stream(events), o.items) + Present(Sent(e), o.items)
  {
    StreamAppend(events, e);
    PresentAppend(Stream(events), Sent(e), o.items);
  }

  /** Some round of the run may have closed the block. */
  predicate ClosedDuring(c: Closed, events: seq<Event>, o: Options) {
    exists r :: 0 <= r < |events| && ClosedIn(c, events[r], o)
  }

  lemma ClosedDuringMore(c: Closed, events: seq<Event>, e: Event, o: Options)
    requires ClosedDuring(c, events, o) || ClosedIn(c, e, o)
    ensures ClosedDuring(c, events + [e], o)
  {
    if ClosedDuring(c, events, o) {
      var r :| 0 <= r < |events| && ClosedIn(c, events[r], o);
      assert (events + [e])[r] == events[r];
    } else {
      assert (events + [e])[|events|] == e;
    }
  }

  lemma RunMeansMore(j: Join, k: Join, events: seq<Event>, e: Event, o: Options)
    requires RunMeans(j, k, events, o)
    ensures RunMeans(j, TakeEvent(k, e, o), events + [e], o)
  {
    var l := TakeEvent(k, e, o);
    RoundCloses(k, e, o);
    MoreIds(j, k, events, e, o);
    forall i | |j.closed| <= i < |l.closed|
      ensures ClosedDuring(l.closed[i], events + [e], o)
    {
      assert i < |k.closed| ==> l.closed[i] == k.closed[i];
      ClosedDuringMore(l.closed[i], events, e, o);
    }
  }

  // ----- What a file error leaves of it -----

  /** What happens around the finalizer call of each block. */
  type FaultsAt = nat -> Faults

  /** A round of the loop, which a failing finalizer may have ended. */
  datatype Round = Round(join: Join, raised: bool)

  function FlushOr(c: bool, r: Round, cause: Cause, faults: FaultsAt): Round {
    if !c || r.raised || r.join.open.None? then r
    else if faults(|r.join.closed|) == NO_FAULTS then Round(Flush(r.join, cause), false)
    else Round(r.join, true)
  }

  function TakeIdOr(r: Round, id: Id, o: Options, faults: FaultsAt): Round {
    if r.raised || id !in o.items then r
    else
      var ids := OpenIds(r.join) + [id];
      FlushOr(|ids| >= o.threshold, Round(r.join.(open := Some(ids)), false), Full, faults)
  }

  function TakeIdsOr(r: Round, ids: seq<Id>, o: Options, faults: FaultsAt): Round {
    if ids == [] then r else TakeIdOr(TakeIdsOr(r, ids[..|ids| - 1], o, faults), ids[|ids| - 1], o, faults)
  }

  function TakeEventOr(j: Join, e: Event, o: Options, faults: FaultsAt): Round {
    match e
    case Batch(ids, finished, span) =>
      var taken := TakeIdsOr(Round(j.(flag := finished), false), ids, o, faults);
      FlushOr(span, FlushOr(finished, taken, AtEnd, faults), TimeSpan, faults)
    case Idle(span) => FlushOr(span, Round(j, false), TimeSpan, faults)
  }

  function ProcessOr(j: Join, events: seq<Event>, o: Options, faults: FaultsAt): Round
    decreases |events|
  {
    if events == [] || j.finished then Round(j, false)
    else
      var r := TakeEventOr(j, events[0], o, faults);
      if r.raised then r else ProcessOr(r.join, events[1..], o, faults)
  }

  /** `full`, stopped when the finalizer of its block `at` failed: that block is still open. */
  function CutAt(before: Join, full: Join, at: nat): Join
    requires at < |full.closed|
  {
    Join(Some(full.closed[at].ids), full.closed[..at], full.flag, before.finished || (full.flag && at > |before.closed|))
  }

  /** Against `full`, the same round without errors: nothing failed and all is the same, or it stopped at the first
      block whose finalizer failed. */
  ghost predicate Follows(before: Join, r: Round, full: Join, faults: FaultsAt) {
    // One value, so that proving it is one obligation and not one per conjunct.
    var at := |r.join.closed|;
    var holds :=
      && before.closed <= full.closed && |before.closed| <= at
      && full.finished == (before.finished || (full.flag && |full.closed| > |before.closed|))
      && (forall k: nat :: |before.closed| <= k < at ==> faults(k) == NO_FAULTS)
      && if r.raised then at < |full.closed| && faults(at) != NO_FAULTS && r.join == CutAt(before, full, at)
         else r.join == full;
    holds
  }

  /** What has stopped stays as it is while the round without errors goes on. */
  lemma StoppedFollows(before: Join, r: Round, full: Join, more: Join, faults: FaultsAt)
    requires Follows(before, r, full, faults) && r.raised
    requires full.closed <= more.closed && more.flag == full.flag
    requires more.finished == (before.finished || (more.flag && |more.closed| > |before.closed|))
    ensures Follows(before, r, more, faults)
  {
  }

  lemma FlushFollows(before: Join, c: bool, r: Round, full: Join, cause: Cause, faults: FaultsAt)
    requires Follows(before, r, full, faults)
    ensures Follows(before, FlushOr(c, r, cause, faults), FlushIf(c, full, cause), faults)
  {
    if r.raised {
      StoppedFollows(before, r, full, FlushIf(c, full, cause), faults);
    }
  }

  lemma TakeIdFollows(before: Join, r: Round, full: Join, id: Id, o: Options, faults: FaultsAt)
    requires Follows(before, r, full, faults)
    ensures Follows(before, TakeIdOr(r, id, o, faults), TakeId(full, id, o), faults)
  {
    if r.raised {
      StoppedFollows(before, r, full, TakeId(full, id, o), faults);
    } else if id in o.items {
      var ids := OpenIds(full) + [id];
      var grown := full.(open := Some(ids));
      assert Follows(before, Round(grown, false), grown, faults);
      FlushFollows(before, |ids| >= o.threshold, Round(grown, false), grown, Full, faults);
    }
  }

  lemma {:induction false} TakeIdsFollows(before: Join, ids: seq<Id>, o: Options, faults: FaultsAt)
    ensures Follows(before, TakeIdsOr(Round(before, false), ids, o, faults), TakeIds(before, ids, o), faults)
  {
    if ids != [] {
      var front := ids[..|ids| - 1];
      TakeIdsFollows(before, front, o, faults);
      TakeIdFollows(before, TakeIdsOr(Round(before, false), front, o, faults), TakeIds(before, front, o),
                    ids[|ids| - 1], o, faults);
    }
  }

  /** A round with errors is the round without, up to the first block whose finalizer fails. */
  lemma TakeEventFollows(j: Join, e: Event, o: Options, faults: FaultsAt)
    ensures Follows(j, TakeEventOr(j, e, o, faults), TakeEvent(j, e, o), faults)
  {
    if e.Batch? {
      var before := j.(flag := e.finished);
      TakeIdsFollows(before, e.ids, o, faults);
      var taken, full := TakeIdsOr(Round(before, false), e.ids, o, faults), TakeIds(before, e.ids, o);
      FlushFollows(before, e.finished, taken, full, AtEnd, faults);
      FlushFollows(before, e.span, FlushOr(e.finished, taken, AtEnd, faults), FlushIf(e.finished, full, AtEnd),
                   TimeSpan, faults);
    } else {
      FlushFollows(j, e.span, Round(j, false), j, TimeSpan, faults);
    }
  }

  /** Over any events: without a failing finalizer the blocks are those of the run without errors; otherwise they are
      those before the first one that fails, and that block is open. */
  lemma {:induction false} ProcessFollows(j: Join, events: seq<Event>, o: Options, faults: FaultsAt)
    ensures var r, full := ProcessOr(j, events, o, faults), Process(j, events, o);
            var at := |r.join.closed|;
            && |j.closed| <= at <= |full.closed| && r.join.closed == full.closed[..at]
            && (forall k: nat :: |j.closed| <= k < at ==> faults(k) == NO_FAULTS)
            && if r.raised then at < |full.closed| && faults(at) != NO_FAULTS && r.join.open == Some(full.closed[at].ids)
               else r.join == full
    decreases |events|
  {
    if events != [] && !j.finished {
      var full := TakeEvent(j, events[0], o);
      TakeEventFollows(j, events[0], o, faults);
      ProcessFollows(full, events[1..], o, faults);
      ProcessExtends(full, events[1..], o);
    }
  }

  lemma {:induction false} ProcessExtends(j: Join, events: seq<Event>, o: Options)
    ensures j.closed <= Process(j, events, o).closed
    decreases |events|
  {
    if events != [] && !j.finished {
      TakeEventExtends(j, events[0], o);
      ProcessExtends(TakeEvent(j, events[0], o), events[1..], o);
    }
  }

  lemma {:induction false} RaisedStays(r: Round, ids: seq<Id>, k: nat, o: Options, faults: FaultsAt)
    requires k <= |ids| && TakeIdsOr(r, ids[..k], o, faults).raised
    ensures TakeIdsOr(r, ids, o, faults) == TakeIdsOr(r, ids[..k], o, faults)
    decreases |ids|
  {
    if k < |ids| {
      var front := ids[..|ids| - 1];
      assert front[..k] == ids[..k];
      RaisedStays(r, front, k, o, faults);
    } else {
      assert ids[..k] == ids;
    }
  }

  /** What a run over `events` that a failing finalizer ended has done: the same, up to the block still open. */
  ghost predicate RunStops(j: Join, k: Join, events: seq<Event>, o: Options) {
    && j.closed <= k.closed && k.open.Some?
    && AllIds(k) <= AllIds(j) + Present(Stream(events), o.items)
    && forall i :: |j.closed| <= i < |k.closed| ==> ClosedDuring(k.closed[i], events, o)
  }

  lemma {:induction false} IdsPrefix(closed: seq<Closed>, at: nat)
    requires at < |closed|
    ensures Ids(closed[..at]) + closed[at].ids <= Ids(closed)
    decreases |closed|
  {
    var front := closed[..|closed| - 1];
    if at < |front| {
      assert front[..at] == closed[..at];
      IdsPrefix(front, at);
    } else {
      assert closed[..at] == front;
    }
  }

  lemma RunStopsAt(j: Join, k: Join, events: seq<Event>, e: Event, r: Round, o: Options, faults: FaultsAt)
    requires RunMeans(j, k, events, o) && r == TakeEventOr(k, e, o, faults) && r.raised
    ensures RunStops(j, r.join, events + [e], o)
  {
    var full := TakeEvent(k, e, o);
    TakeEventFollows(k, e, o, faults);
    RunMeansMore(j, k, events, e, o);
    IdsPrefix(full.closed, |r.join.closed|);
    assert AllIds(r.join) <= Ids(full.closed) <= AllIds(full);
  }

  /** Without a time span and a finished batch no short block is closed. */
  ghost predicate NothingShort(j: Join, k: Join, events: seq<Event>, o: Options) {
    (forall r :: 0 <= r < |events| ==> !events[r].span && !IsLast(events[r])) ==>
      forall i :: |j.closed| <= i < |k.closed| ==> |k.closed[i].ids| == Limit(o)
  }

  /** All of this of a run, if it began with an open block short of the limit; and after a time span that ran out, or a
      finished batch, nothing is open. */
  ghost predicate RunDone(j: Join, r: Round, events: seq<Event>, o: Options) {
    // One value, so that proving it is one obligation and not one per conjunct.
    var holds :=
      && (OpenBelow(j, o) ==>
            && (if r.raised then RunStops(j, r.join, events, o) else RunMeans(j, r.join, events, o))
            && NothingShort(j, r.join, events, o))
      && (!r.raised && events != [] && (events[|events| - 1].span || IsLast(events[|events| - 1])) ==> r.join.open.None?);
    holds
  }

  lemma RunDoneStart(j: Join, o: Options)
    ensures RunDone(j, Round(j, false), [], o)
  {
    assert AllIds(j) + [] == AllIds(j);
  }

  lemma RunDoneMore(j: Join, k: Join, events: seq<Event>, e: Event, r: Round, o: Options, faults: FaultsAt)
    requires RunDone(j, Round(k, false), events, o) && r == TakeEventOr(k, e, o, faults)
    ensures RunDone(j, r, events + [e], o)
  {
    TakeEventFollows(k, e, o, faults);
    if OpenBelow(j, o) {
      if r.raised {
        RunStopsAt(j, k, events, e, r, o, faults);
      } else {
        RunMeansMore(j, k, events, e, o);
      }
      assert NothingShort(j, r.join, events + [e], o);
    }
    assert !r.raised && (e.span || IsLast(e)) ==> r.join.open.None?;
  }

  /** How many rounds the loop makes. */
  function RoundsOf(j: Join, events: seq<Event>, o: Options, faults: FaultsAt): (n: nat)
    ensures n <= |events|
    decreases |events|
  {
    if events == [] || j.finished then 0
    else
      var r := TakeEventOr(j, events[0], o, faults);
      1 + if r.raised then 0 else RoundsOf(r.join, events[1..], o, faults)
  }

  /** The loop that began in `j` is in `k` after `i` rounds. */
  ghost predicate Midway(j: Join, k: Join, events: seq<Event>, i: nat, o: Options, faults: FaultsAt)
    requires i <= |events|
  {
    // One value, so that proving it is one obligation and not one per conjunct.
    var holds :=
      && ProcessOr(j, events, o, faults) == ProcessOr(k, events[i..], o, faults)
      && RoundsOf(j, events, o, faults) == i + RoundsOf(k, events[i..], o, faults);
    holds
  }

  lemma MidwayStart(j: Join, events: seq<Event>, o: Options, faults: FaultsAt)
    ensures Midway(j, j, events, 0, o, faults)
  {
    assert events[0..] == events;
  }

  lemma MidwayMore(j: Join, k: Join, events: seq<Event>, i: nat, o: Options, faults: FaultsAt)
    requires i < |events| && !k.finished && Midway(j, k, events, i, o, faults)
    ensures var r := TakeEventOr(k, events[i], o, faults);
            if r.raised then ProcessOr(j, events, o, faults) == r && RoundsOf(j, events, o, faults) == i + 1
            else Midway(j, r.join, events, i + 1, o, faults)
  {
    assert events[i..][0] == events[i] && events[i..][1..] == events[i + 1..];
  }

  lemma MidwayEnd(j: Join, k: Join, events: seq<Event>, i: nat, o: Options, faults: FaultsAt)
    requires i <= |events| && (k.finished || i == |events|) && Midway(j, k, events, i, o, faults)
    ensures ProcessOr(j, events, o, faults) == Round(k, false) && RoundsOf(j, events, o, faults) == i
  {
  }

  lemma Regroup(past: seq<Event>, ahead: seq<Event>, n: nat)
    requires 1 <= n <= |ahead|
    ensures past + [ahead[0]] + ahead[1..][..n - 1] == past + ahead[..n]
  {
  }

  lemma {:induction false} ProcessMeansFrom(j: Join, k: Join, past: seq<Event>, ahead: seq<Event>, o: Options,
                                            faults: FaultsAt)
    requires RunDone(j, Round(k, false), past, o)
    ensures RunDone(j, ProcessOr(k, ahead, o, faults), past + ahead[..RoundsOf(k, ahead, o, faults)], o)
    decreases |ahead|
  {
    var n := RoundsOf(k, ahead, o, faults);
    if n == 0 {
      assert past + ahead[..0] == past;
    } else {
      var r := TakeEventOr(k, ahead[0], o, faults);
      RunDoneMore(j, k, past, ahead[0], r, o, faults);
      Regroup(past, ahead, n);
      if r.raised {
        assert past + [ahead[0]] + ahead[1..][..0] == past + [ahead[0]];
      } else {
        ProcessMeansFrom(j, r.join, past + [ahead[0]], ahead[1..], o, faults);
      }
    }
  }

  /** What the loop does, with and without errors, in terms of the events it gets to. */
  lemma ProcessMeans(j: Join, events: seq<Event>, o: Options, faults: FaultsAt)
    ensures RunDone(j, ProcessOr(j, events, o, faults), events[..RoundsOf(j, events, o, faults)], o)
  {
    RunDoneStart(j, o);
    ProcessMeansFrom(j, j, [], events, o, faults);
    var n := RoundsOf(j, events, o, faults);
    assert [] + events[..n] == events[..n];
  }

  // ----- The joiner object -----

  /** The directory holds the block of `ids` under `index`: its meta, and one record per id. */
  ghost predicate BlockStored(metas: map<int, Meta>, blocks: map<int, seq<Record>>, index: nat, ids: seq<Id>, items: Items) {
    && AllIn(ids, items)
    && index in metas && metas[index] == MetaFor(index, ids, items)
    && index in blocks && blocks[index] == Records(ids, items)
  }

  ghost predicate Emitted(metas: map<int, Meta>, blocks: map<int, seq<Record>>, closed: seq<Closed>, items: Items) {
    forall k :: 0 <= k < |closed| ==> BlockStored(metas, blocks, k, closed[k].ids, items)
  }

  /** What the joiner's directory looks like after these blocks. */
  ghost predicate Directory(s: Store, closed: seq<Closed>, items: Items) {
    // One value, so that proving it is one obligation and not one per conjunct.
    var holds := StoreInv(s) && Exact(s) && s.saved + 1 == |closed| && Emitted(s.metas, s.blocks, closed, items);
    holds
  }

  /** Finishing the open block, without file errors, adds it under the next index. */
  lemma FinishedMore(s: Store, closed: seq<Closed>, items: Items, c: Closed)
    requires Directory(s, closed, items) && AllIn(c.ids, items) && c.ids != []
    ensures var m := MetaFor(|closed|, c.ids, items);
            var (t, r) := Finalize(s, m, |c.ids|, Records(c.ids, items), NO_FAULTS);
            r == Finished && t.saved == |closed| && t.metas == s.metas[|closed| := m] && Directory(t, closed + [c], items)
  {
    var m := MetaFor(|closed|, c.ids, items);
    FinalizeStores(s, m, |c.ids|, Records(c.ids, items), NO_FAULTS);
    EmittedMore(s, Finalize(s, m, |c.ids|, Records(c.ids, items), NO_FAULTS).0, closed, items, c);
  }

  /** A finalizer that fails may still have put both files in place. */
  predicate Placed(f: Faults) {
    f.data == Renamed && Moves(f.meta)
  }

  /** The blocks on disk when the finalizer of the block of `ids` has failed; why it was closed plays no part. */
  function AfterFault(closed: seq<Closed>, ids: seq<Id>, f: Faults): seq<Closed> {
    if Placed(f) then closed + [Closed(ids, Full)] else closed
  }

  /** A failed finalizer leaves the earlier blocks as they are, and its own block entirely or without its meta. */
  lemma FaultLeavesDirectory(s: Store, closed: seq<Closed>, items: Items, ids: seq<Id>, f: Faults)
    requires Directory(s, closed, items) && AllIn(ids, items) && ids != [] && f != NO_FAULTS
    ensures var m := MetaFor(|closed|, ids, items);
            var (t, r) := Finalize(s, m, |ids|, Records(ids, items), f);
            && r != Finished && Directory(Sync(t), AfterFault(closed, ids, f), items)
            && (!Moves(f.data) ==> t == s)
            && t.saved + 1 == (if f.data == f.meta == Renamed then |closed| + 1 else |closed|)
  {
    var m := MetaFor(|closed|, ids, items);
    var records := Records(ids, items);
    FinalizeStores(s, m, |ids|, records, f);
    var t := Finalize(s, m, |ids|, records, f).0;
    SyncMakesExact(t);
    if Placed(f) {
      EmittedMore(s, Sync(t), closed, items, Closed(ids, Full));
    }
  }

  lemma OnlyIdsMatter(s: Store, a: seq<Closed>, b: seq<Closed>, items: Items)
    requires Directory(s, a, items) && |a| == |b| && forall k :: 0 <= k < |a| ==> a[k].ids == b[k].ids
    ensures Directory(s, b, items)
  {
  }

  lemma EmittedMore(s: Store, t: Store, closed: seq<Closed>, items: Items, c: Closed)
    requires Emitted(s.metas, s.blocks, closed, items) && AllIn(c.ids, items)
    requires t.metas == s.metas[|closed| := MetaFor(|closed|, c.ids, items)]
    requires t.blocks == s.blocks[|closed| := Records(c.ids, items)]
    ensures Emitted(t.metas, t.blocks, closed + [c], items)
  {
  }

  class DataJoiner {
    const manager: DataBlockManager
    const items: Items
    const threshold: int
    var maker: DataBlockMaker?
    var flag: bool
    var finished: bool
    ghost var closed: seq<Closed>

    ghost function View(): Join
      reads this, maker
    {
      Join(if maker == null then None else Some(maker.meta.exampleIds), closed, flag, finished)
    }

    /** Blocks emitted so far stand in the directory under consecutive indices; the open maker has the next one. */
    ghost predicate Valid()
      reads this, manager, maker
    {
      && manager.Valid() && Directory(manager.View(), closed, items)
      && (maker != null ==>
            && maker.meta.exampleIds != [] && maker.exampleNumThreshold == Some(threshold)
            && maker.Holds(|closed|, maker.meta.exampleIds, items))
    }

    function Opts(): Options {
      Options(items, threshold)
    }

    /** `earlier` are the blocks an earlier process left in the directory. */
    constructor (manager: DataBlockManager, items: Items, threshold: int, ghost earlier: seq<Closed>)
      requires manager.Valid() && Directory(manager.View(), earlier, items)
      ensures Valid() && View() == Join(None, earlier, false, false) && fresh(this) && maker == null
      ensures this.manager == manager && this.items == items && this.threshold == threshold
    {
      this.manager, this.items, this.threshold := manager, items, threshold;
      maker, flag, finished, closed := null, false, false, earlier;
    }

    /** After its failed finalizer the maker is still there with its block, and the directory holds the blocks before
        it, and it if the error came late. */
    ghost predicate Stopped(f: Faults)
      reads this, manager, maker
    {
      && manager.Valid() && f != NO_FAULTS
      && maker != null && maker.Holds(|closed|, maker.meta.exampleIds, items)
      && Directory(Sync(manager.View()), AfterFault(closed, maker.meta.exampleIds, f), items)
    }

    ghost predicate Ends(raised: bool, faults: FaultsAt)
      reads this, manager, maker
    {
      if raised then Stopped(faults(|closed|)) else Valid()
    }

    method DataJoinFinalizer(ghost cause: Cause, f: Faults) returns (raised: bool)
      requires Valid() && maker != null
      modifies this, manager
      ensures raised <==> f != NO_FAULTS
      ensures if raised then Stopped(f) && View() == old(View()) && maker == old(maker)
              else Valid() && View() == Flush(old(View()), cause) && maker == null
      ensures !raised ==> manager.saved in manager.metas
      ensures !raised ==> manager.buffer == Trim(old(manager.buffer)) + [(manager.saved, manager.metas[manager.saved])]
    {
      ghost var c := Closed(maker.meta.exampleIds, cause);
      ghost var store := manager.View();
      var r := maker.DataBlockFinalizer(manager, f);
      if f != NO_FAULTS {
        FaultLeavesDirectory(store, closed, items, c.ids, f);
        return true;
      }
      FinishedMore(store, closed, items, c);
      if flag {
        finished := true;
      }
      closed := closed + [c];
      maker := null;
      raised := false;
    }

    /** A finalizer call that is due if there is an open block. */
    method FinalizeIf(due: bool, ghost cause: Cause, faults: FaultsAt) returns (raised: bool)
      requires Valid()
      modifies this, manager
      ensures Ends(raised, faults) && Round(View(), raised) == FlushOr(due, Round(old(View()), false), cause, faults)
      ensures !raised && due ==> maker == null
      ensures maker == null || maker == old(maker)
    {
      raised := false;
      if due && maker != null {
        raised := DataJoinFinalizer(cause, faults(maker.meta.index));
      }
    }

    /** The open maker, or a new one for the next index. */
    method AcquireDataBlockMaker()
      requires Valid()
      modifies this`maker, manager
      ensures manager.Valid() && Directory(manager.View(), closed, items)
      ensures maker != null && (maker == old(maker) || fresh(maker)) && maker.exampleNumThreshold == Some(threshold)
      ensures maker.Holds(|closed|, OpenIds(old(View())), items)
    {
      if maker == null {
        var index := manager.AcquireProducedDataBlockNumber();
        maker := new DataBlockMaker(index, Some(threshold));
      }
    }

    method SaveExample(id: Id)
      requires Valid() && id in items
      modifies this`maker, manager, maker
      ensures Valid() && View() == old(View()).(open := Some(OpenIds(old(View())) + [id]))
      ensures maker != null && (maker == old(maker) || fresh(maker))
    {
      ghost var ids := OpenIds(View());
      AcquireDataBlockMaker();
      maker.Save(items[id].record, id, items[id].eventTime, ids, items);
    }

    method TakeExample(id: Id, faults: FaultsAt) returns (raised: bool)
      requires Valid()
      modifies this, manager, maker
      ensures Ends(raised, faults) && Round(View(), raised) == TakeIdOr(Round(old(View()), false), id, Opts(), faults)
      ensures maker == null || maker == old(maker) || fresh(maker)
    {
      raised := false;
      if id in items {
        SaveExample(id);
        raised := FinalizeIf(maker.IsDataBlockExceedThreshold(), Full, faults);
      }
    }

    method TakeExamples(ids: seq<Id>, faults: FaultsAt) returns (raised: bool)
      requires Valid()
      modifies this, manager, maker
      ensures Ends(raised, faults) && Round(View(), raised) == TakeIdsOr(Round(old(View()), false), ids, Opts(), faults)
      ensures maker == null || maker == old(maker) || fresh(maker)
    {
      ghost var start := Round(View(), false);
      for i := 0 to |ids|
        invariant Valid() && Round(View(), false) == TakeIdsOr(start, ids[..i], Opts(), faults)
        invariant maker == null || maker == old(maker) || fresh(maker)
      {
        assert ids[..i + 1][..i] == ids[..i];
        raised := TakeExample(ids[i], faults);
        if raised {
          RaisedStays(start, ids, i + 1, Opts(), faults);
          return;
        }
      }
      assert ids[..|ids|] == ids;
      raised := false;
    }

    method TakeBatch(ids: seq<Id>, last: bool, faults: FaultsAt) returns (raised: bool)
      requires Valid()
      modifies this, manager, maker
      ensures Ends(raised, faults)
      ensures Round(View(), raised)
              == FlushOr(last, TakeIdsOr(Round(old(View()).(flag := last), false), ids, Opts(), faults), AtEnd, faults)
      ensures !raised && last ==> maker == null
      ensures maker == null || maker == old(maker) || fresh(maker)
    {
      flag := last;
      raised := TakeExamples(ids, faults);
      if !raised {
        raised := FinalizeIf(last, AtEnd, faults);
      }
    }

    /** One round of the loop. */
    method TakeRound(e: Event, faults: FaultsAt) returns (raised: bool)
      requires Valid()
      modifies this, manager, maker
      ensures Ends(raised, faults) && Round(View(), raised) == TakeEventOr(old(View()), e, Opts(), faults)
      ensures !raised && (e.span || IsLast(e)) ==> maker == null
      ensures maker == null || maker == old(maker) || fresh(maker)
    {
      raised := false;
      if e.Batch? {
        raised := TakeBatch(e.ids, e.finished, faults);
      }
      if !raised {
        raised := FinalizeIf(e.span, TimeSpan, faults);
      }
    }

    /** The generator's loop over what the queue and the clock bring; `rounds` counts the rounds made. */
    method DataJoinerAlgo(events: seq<Event>, faults: FaultsAt) returns (raised: bool, rounds: nat)
      requires Valid()
      modifies this, manager, maker
      ensures Ends(raised, faults) && Round(View(), raised) == ProcessOr(old(View()), events, Opts(), faults)
      ensures rounds <= |events| && (!raised ==> finished || rounds == |events|) && (old(finished) ==> rounds == 0)
      ensures RunDone(old(View()), Round(View(), raised), events[..rounds], Opts())
    {
      raised, rounds := Rounds(events, faults);
      ProcessMeans(old(View()), events, Opts(), faults);
    }

    method Rounds(events: seq<Event>, faults: FaultsAt) returns (raised: bool, rounds: nat)
      requires Valid()
      modifies this, manager, maker
      ensures Ends(raised, faults) && Round(View(), raised) == ProcessOr(old(View()), events, Opts(), faults)
      ensures rounds == RoundsOf(old(View()), events, Opts(), faults) && (!raised ==> finished || rounds == |events|)
      ensures old(finished) ==> rounds == 0
    {
      raised, rounds := false, 0;
      ghost var start := View();
      MidwayStart(start, events, Opts(), faults);
      while rounds < |events| && !finished
        invariant rounds <= |events| && Valid() && (old(finished) ==> rounds == 0 && finished)
        invariant Midway(start, View(), events, rounds, Opts(), faults)
        invariant maker == null || maker == old(maker) || fresh(maker)
      {
        MidwayMore(start, View(), events, rounds, Opts(), faults);
        raised := TakeRound(events[rounds], faults);
        rounds := rounds + 1;
        if raised {
          return;
        }
      }
      MidwayEnd(start, View(), events, rounds, Opts(), faults);
    }
  }
}

/** Leader and follower together: joining, sending metas, saving blocks and restarts in any interleaving. */
module DataJoinRun {
  import opened Wrappers
  import opened DataBlocks
  import opened BlockManager
  import opened BlockMaker
  import opened DataJoiner
  import opened BlockSaver
  import opened MetaBuffer

  /** The follower's join from an empty directory, whether a file error has stalled it, its meta buffer, its sender's
      next index while a sending call runs, every index ever put on the wire, and the leader's saver. */
  datatype System = System(join: Join, stalled: bool, buffer: Buffer, cursor: Option<nat>, wire: set<nat>, leader: Saver)

  datatype Config = Config(leaderItems: Items, follower: Options)

  /** A sending call asks the leader for its next index, then looks metas up and sends them one by one, until a lookup
      fails or finds nothing, or an error ends it. What was sent may reach the leader any number of times and at any
      later time, in any order. A join whose finalizer failed on block `at` goes on only after a restart, or once a
      later finalizer call for that block goes well. */
  datatype Step =
    | Take(e: Event)
    | TakeFails(e: Event, at: nat, f: Faults)
    | FlushStalled(finished: bool, f: Faults)
    | StartSending
    | SendNext
    | StopSending
    | Deliver(k: nat)
    | FinishSending
    | BeginRound
    | Save(t: Trial)
    | EndRound
    | RestartLeader
    | RestartFollower

  const INITIAL: System := System(START, false, [], None, {}, INITIAL_SAVER)

  ghost predicate IdsKnown(ids: seq<Id>, c: Config) {
    ids != [] && AllIn(ids, c.leaderItems) && AllIn(ids, c.follower.items)
  }

  /** Every block the follower emitted, and the open one, consists of ids both parties have. */
  ghost predicate JoinKnown(j: Join, c: Config) {
    && (forall k :: 0 <= k < |j.closed| ==> IdsKnown(j.closed[k].ids, c))
    && (j.open.Some? ==> IdsKnown(j.open.value, c))
  }

  /** The follower's metas by index; DataJoiner keeps exactly these on the follower's disk. Every run joins known ids
      only (see JoinKnown), so the empty list stands for what never occurs. */
  function Metas(closed: seq<Closed>, items: Items): (r: seq<Meta>)
    ensures |r| == |closed|
    ensures forall k :: 0 <= k < |closed| && AllIn(closed[k].ids, items) ==> r[k] == MetaFor(k, closed[k].ids, items)
  {
    seq(|closed|, k requires 0 <= k < |closed| =>
      MetaFor(k, if AllIn(closed[k].ids, items) then closed[k].ids else [], items))
  }

  ghost predicate FollowerInv(s: System, metas: seq<Meta>) {
    Buffered(s.buffer, metas) && forall k :: k in s.wire ==> k < |metas|
  }

  /** Everything the leader took, and so everything it stored, was on the wire. */
  ghost predicate WireInv(s: System) {
    forall k: nat :: k < s.leader.next ==> k in s.wire
  }

  ghost predicate Inv(s: System, c: Config) {
    // One value, so that proving it is one obligation and not one per conjunct.
    var holds :=
      && JoinKnown(s.join, c)
      && SaverInv(s.leader, Metas(s.join.closed, c.follower.items), c.leaderItems)
      && FollowerInv(s, Metas(s.join.closed, c.follower.items))
      && WireInv(s);
    holds
  }

  predicate TakesEvent(s: System, e: Event, c: Config) {
    !s.stalled && !s.join.finished && (e.Batch? ==> AllIn(e.ids, c.leaderItems))
  }

  /** The leader sends only ids of its own `item_dict`; a restart finds all files the search can tell apart. */
  predicate Enabled(s: System, step: Step, c: Config) {
    match step
    case Take(e) => TakesEvent(s, e, c)
    case TakeFails(e, at, f) =>
      TakesEvent(s, e, c) && |s.join.closed| <= at < |TakeEvent(s.join, e, c.follower).closed| && f != NO_FAULTS
    case FlushStalled(_, _) => s.stalled && s.join.open.Some? && !s.join.finished
    case StartSending => s.cursor.None? && !s.leader.finished
    case SendNext => s.cursor.Some?
    case StopSending => s.cursor.Some?
    case Deliver(k) => k in s.wire && k < |s.join.closed|
    case FinishSending => true
    case BeginRound => !s.leader.looping && s.leader.buffer != []
    case Save(_) => s.leader.looping && s.leader.buffer != []
    case EndRound => s.leader.looping && s.leader.buffer == []
    case RestartLeader => Sync(s.leader.store).saved <= THRESHOLD
    case RestartFollower => |s.join.closed| - 1 <= THRESHOLD
  }

  /** The join `j` goes on from, and the blocks before `noted` have been saved through the buffer. */
  function JoinStep(s: System, j: Join, stalled: bool, noted: nat, c: Config): System
    requires noted <= |j.closed|
  {
    s.(join := j, stalled := stalled,
       buffer := Saves(s.buffer, Metas(j.closed, c.follower.items), |s.join.closed|, noted))
  }

  /** The join when the finalizer of block `at` has failed: that block is on disk if both files are in place, it can
      still be flushed if its data file was not moved, and it is lost otherwise. */
  function AfterFailure(before: Join, full: Join, at: nat, f: Faults): Join
    requires at < |full.closed|
  {
    var cut := CutAt(before, full, at);
    if Placed(f) then cut.(open := None, closed := full.closed[..at + 1])
    else if Moves(f.data) then cut.(open := None)
    else cut
  }

  /** How many blocks the manager has noted then: the meta went through its buffer only if both renames went well. */
  function Noted(at: nat, f: Faults): nat {
    if f.data == f.meta == Renamed then at + 1 else at
  }

  /** These are the blocks the directory holds after the finalizer failed on block `at` with `f`, once it is synced, and
      the block stays open exactly if it can still be finished. */
  lemma FailureMatchesDisk(store: Store, before: Join, full: Join, at: nat, f: Faults, items: Items)
    requires at < |full.closed| && Directory(store, full.closed[..at], items) && f != NO_FAULTS
    requires full.closed[at].ids != [] && AllIn(full.closed[at].ids, items)
    ensures var ids := full.closed[at].ids;
            var after := Finalize(store, MetaFor(at, ids, items), |ids|, Records(ids, items), f).0;
            var j := AfterFailure(before, full, at, f);
            && Directory(Sync(after), j.closed, items)
            && (j.open == if Moves(f.data) then None else Some(ids))
            && after.saved + 1 == Noted(at, f)
  {
    var ids, j := full.closed[at].ids, AfterFailure(before, full, at, f);
    FaultLeavesDirectory(store, full.closed[..at], items, ids, f);
    var after := Finalize(store, MetaFor(at, ids, items), |ids|, Records(ids, items), f).0;
    OnlyIdsMatter(Sync(after), AfterFault(full.closed[..at], ids, f), j.closed, items);
  }

  function FailStep(s: System, before: Join, full: Join, at: nat, f: Faults, c: Config): System
    requires at < |full.closed|
  {
    JoinStep(s, AfterFailure(before, full, at, f), true, Noted(at, f), c)
  }

  function SendStep(s: System, metas: seq<Meta>): System
    requires s.cursor.Some?
  {
    var (buffer, r) := Acquire(s.buffer, StoreOf(metas), s.cursor.value);
    if r.Found? then s.(buffer := buffer, cursor := Some(s.cursor.value + 1), wire := s.wire + {s.cursor.value})
    else s.(buffer := buffer, cursor := None)
  }

  ghost function Apply(s: System, step: Step, c: Config): System
    requires Enabled(s, step, c)
  {
    var metas := Metas(s.join.closed, c.follower.items);
    match step
    case Take(e) =>
      var j := TakeEvent(s.join, e, c.follower);
      JoinStep(s, j, false, |j.closed|, c)
    case TakeFails(e, at, f) => FailStep(s, s.join, TakeEvent(s.join, e, c.follower), at, f, c)
    case FlushStalled(finished, f) =>
      var before := s.join.(flag := finished);
      var full := Flush(before, TimeSpan);
      if f == NO_FAULTS then JoinStep(s, full, false, |full.closed|, c)
      else FailStep(s, before, full, |s.join.closed|, f, c)
    case StartSending => s.(cursor := Some(s.leader.next))
    case SendNext => SendStep(s, metas)
    case StopSending => s.(cursor := None)
    case Deliver(k) => s.(leader := Append(s.leader, metas[k]).0)
    case FinishSending => s.(leader := s.leader.(finished := true))
    case BeginRound => s.(leader := Begin(s.leader))
    case Save(t) => s.(leader := Attempt(s.leader, c.leaderItems, t))
    case EndRound => s.(leader := End(s.leader))
    case RestartLeader => s.(leader := Crash(s.leader))
    case RestartFollower =>
      s.(join := Join(None, s.join.closed, false, false), stalled := false, buffer := [], cursor := None)
  }

  ghost predicate IsRun(s: System, steps: seq<Step>, t: System, c: Config)
    decreases |steps|
  {
    if steps == [] then s == t
    else Enabled(s, steps[0], c) && IsRun(Apply(s, steps[0], c), steps[1..], t, c)
  }

  ghost predicate Reachable(s: System, c: Config) {
    exists steps :: IsRun(INITIAL, steps, s, c)
  }

  // ----- Every step keeps the invariant -----

  lemma FlushKeepsKnown(j: Join, cause: Cause, c: Config)
    requires JoinKnown(j, c)
    ensures JoinKnown(Flush(j, cause), c)
  {
  }

  lemma {:induction false} TakeIdsKeepsKnown(j: Join, ids: seq<Id>, c: Config)
    requires JoinKnown(j, c) && AllIn(ids, c.leaderItems)
    ensures JoinKnown(TakeIds(j, ids, c.follower), c)
  {
    if ids != [] {
      var front, id := TakeIds(j, ids[..|ids| - 1], c.follower), ids[|ids| - 1];
      TakeIdsKeepsKnown(j, ids[..|ids| - 1], c);
      if id in c.follower.items {
        var k := front.(open := Some(OpenIds(front) + [id]));
        assert IdsKnown(k.open.value, c);
        FlushKeepsKnown(k, Full, c);
      }
    }
  }

  lemma TakeKeepsKnown(j: Join, e: Event, c: Config)
    requires JoinKnown(j, c) && (e.Batch? ==> AllIn(e.ids, c.leaderItems))
    ensures JoinKnown(TakeEvent(j, e, c.follower), c)
  {
    if e.Batch? {
      var k := TakeIds(j.(flag := e.finished), e.ids, c.follower);
      TakeIdsKeepsKnown(j.(flag := e.finished), e.ids, c);
      FlushKeepsKnown(k, AtEnd, c);
      FlushKeepsKnown(FlushIf(e.finished, k, AtEnd), TimeSpan, c);
    } else {
      FlushKeepsKnown(j, TimeSpan, c);
    }
  }

  lemma MoreProduced(l: Saver, produced: seq<Meta>, more: seq<Meta>, items: Items)
    requires SaverInv(l, produced, items) && produced <= more && Produced(more, items)
    ensures SaverInv(l, more, items)
  {
    assert StoreMatches(l.store, more, items);
    assert l.buffer == more[l.next - |l.buffer|..l.next];
  }

  lemma KnownAreProduced(j: Join, c: Config)
    requires JoinKnown(j, c)
    ensures Produced(Metas(j.closed, c.follower.items), c.leaderItems)
  {
    forall k | 0 <= k < |j.closed|
      ensures var m := Metas(j.closed, c.follower.items)[k];
              m.index == k && m.exampleIds != [] && AllIn(m.exampleIds, c.leaderItems)
    {
      assert IdsKnown(j.closed[k].ids, c);
    }
  }

  lemma JoinStepKeepsInv(s: System, j: Join, stalled: bool, noted: nat, c: Config)
    requires Inv(s, c) && JoinKnown(j, c) && s.join.closed <= j.closed && |s.join.closed| <= noted <= |j.closed|
    ensures Inv(JoinStep(s, j, stalled, noted, c), c)
  {
    var metas, more := Metas(s.join.closed, c.follower.items), Metas(j.closed, c.follower.items);
    KnownAreProduced(j, c);
    MoreProduced(s.leader, metas, more, c.leaderItems);
    assert more[..|metas|] == metas && more[..|more|] == more;
    SavesKeepBuffered(s.buffer, more, |metas|, noted);
    BufferedMore(Saves(s.buffer, more, |metas|, noted), more, noted, |more|);
  }

  /** The steps of the follower's join. */
  predicate FollowerStep(step: Step) {
    step.Take? || step.TakeFails? || step.FlushStalled?
  }

  lemma FailStepJoins(s: System, before: Join, full: Join, at: nat, f: Faults, c: Config) returns (j: Join, noted: nat)
    requires JoinKnown(full, c) && s.join.closed <= full.closed && |s.join.closed| <= at < |full.closed|
    ensures JoinKnown(j, c) && s.join.closed <= j.closed && |s.join.closed| <= noted <= |j.closed|
    ensures FailStep(s, before, full, at, f, c) == JoinStep(s, j, true, noted, c)
  {
    j, noted := AfterFailure(before, full, at, f), Noted(at, f);
    assert IdsKnown(full.closed[at].ids, c);
  }

  /** The join after such a step, and how many of its blocks went through the buffer. */
  lemma FollowerStepJoins(s: System, step: Step, c: Config) returns (j: Join, stalled: bool, noted: nat)
    requires JoinKnown(s.join, c) && Enabled(s, step, c) && FollowerStep(step)
    ensures JoinKnown(j, c) && s.join.closed <= j.closed && |s.join.closed| <= noted <= |j.closed|
    ensures Apply(s, step, c) == JoinStep(s, j, stalled, noted, c)
  {
    if step.FlushStalled? {
      var before := s.join.(flag := step.finished);
      var full := Flush(before, TimeSpan);
      FlushKeepsKnown(before, TimeSpan, c);
      j, stalled, noted := full, false, |full.closed|;
      if step.f != NO_FAULTS {
        stalled := true;
        j, noted := FailStepJoins(s, before, full, |s.join.closed|, step.f, c);
      }
    } else {
      var full := TakeEvent(s.join, step.e, c.follower);
      TakeKeepsKnown(s.join, step.e, c);
      TakeEventExtends(s.join, step.e, c.follower);
      j, stalled, noted := full, false, |full.closed|;
      if step.TakeFails? {
        stalled := true;
        j, noted := FailStepJoins(s, s.join, full, step.at, step.f, c);
      }
    }
  }

  lemma FollowerKeepsInv(s: System, step: Step, c: Config)
    requires Inv(s, c) && Enabled(s, step, c) && FollowerStep(step)
    ensures Inv(Apply(s, step, c), c)
  {
    var j, stalled, noted := FollowerStepJoins(s, step, c);
    JoinStepKeepsInv(s, j, stalled, noted, c);
  }

  lemma SendStepKeepsInv(s: System, metas: seq<Meta>)
    requires Numbered(metas) && FollowerInv(s, metas) && s.cursor.Some?
    ensures var t := SendStep(s, metas);
            FollowerInv(t, metas) && s.wire <= t.wire && t.join == s.join && t.leader == s.leader
  {
    LookupEffect(s.buffer, metas, s.cursor.value);
  }

  lemma SendKeepsInv(s: System, c: Config)
    requires Inv(s, c) && s.cursor.Some?
    ensures Inv(Apply(s, SendNext, c), c)
  {
    SendStepKeepsInv(s, Metas(s.join.closed, c.follower.items));
  }

  /** The steps of the leader's saver. */
  predicate LeaderStep(step: Step) {
    step.Deliver? || step.FinishSending? || step.BeginRound? || step.Save? || step.EndRound? || step.RestartLeader?
  }

  lemma SaverKeepsInv(s: System, step: Step, c: Config)
    requires SaverInv(s.leader, Metas(s.join.closed, c.follower.items), c.leaderItems)
    requires Enabled(s, step, c) && LeaderStep(step)
    ensures var t := Apply(s, step, c);
            t == s.(leader := t.leader) && SaverInv(t.leader, Metas(s.join.closed, c.follower.items), c.leaderItems)
  {
    var metas := Metas(s.join.closed, c.follower.items);
    match step {
      case Deliver(k) => AppendKeepsInv(s.leader, metas, c.leaderItems, k);
      case FinishSending =>
      case BeginRound => BeginCleans(s.leader, metas, c.leaderItems);
      case Save(t) => AttemptKeepsInv(s.leader, metas, c.leaderItems, t);
      case EndRound => EndKeepsInv(s.leader, metas, c.leaderItems);
      case RestartLeader => CrashKeepsInv(s.leader, metas, c.leaderItems);
    }
  }

  lemma CrashTakesLess(s: System, c: Config)
    requires SaverInv(s.leader, Metas(s.join.closed, c.follower.items), c.leaderItems) && Enabled(s, RestartLeader, c)
    ensures Crash(s.leader).next <= s.leader.next
  {
    CrashKeepsInv(s.leader, Metas(s.join.closed, c.follower.items), c.leaderItems);
  }

  /** Only the delivery of the next meta raises the leader's next index. */
  lemma NextMoves(s: System, step: Step, c: Config)
    requires SaverInv(s.leader, Metas(s.join.closed, c.follower.items), c.leaderItems) && Enabled(s, step, c)
    ensures var next := Apply(s, step, c).leader.next;
            next <= s.leader.next || (step == Deliver(s.leader.next) && next == s.leader.next + 1)
  {
    if step.RestartLeader? {
      CrashTakesLess(s, c);
    }
  }

  lemma LeaderKeepsInv(s: System, step: Step, c: Config)
    requires Inv(s, c) && Enabled(s, step, c) && LeaderStep(step)
    ensures Inv(Apply(s, step, c), c)
  {
    SaverKeepsInv(s, step, c);
    NextMoves(s, step, c);
    var t := Apply(s, step, c);
    assert WireInv(s) && WireInv(t);
  }

  lemma StepKeepsInv(s: System, step: Step, c: Config)
    requires Inv(s, c) && Enabled(s, step, c)
    ensures Inv(Apply(s, step, c), c)
  {
    if LeaderStep(step) {
      LeaderKeepsInv(s, step, c);
    } else if FollowerStep(step) {
      FollowerKeepsInv(s, step, c);
    } else {
      match step {
        case SendNext => SendKeepsInv(s, c);
        case StartSending =>
        case StopSending =>
        case RestartFollower =>
      }
    }
  }

  lemma {:induction false} RunKeepsInv(s: System, steps: seq<Step>, t: System, c: Config)
    requires Inv(s, c) && IsRun(s, steps, t, c)
    ensures Inv(t, c)
    decreases |steps|
  {
    if steps != [] {
      StepKeepsInv(s, steps[0], c);
      RunKeepsInv(Apply(s, steps[0], c), steps[1..], t, c);
    }
  }

  lemma InitialInv(c: Config)
    ensures Inv(INITIAL, c)
  {
    InitialSaverInv(c.leaderItems);
    assert Metas(INITIAL.join.closed, c.follower.items) == [];
  }

  lemma ReachableInv(s: System, c: Config)
    requires Reachable(s, c)
    ensures Inv(s, c)
  {
    InitialInv(c);
    var steps :| IsRun(INITIAL, steps, s, c);
    RunKeepsInv(INITIAL, steps, s, c);
  }

  // ----- The guarantees -----

  /** The metas on the leader's disk are the follower's metas 0..d - 1 for some d, each once and unchanged; one more
      may stand there while it is being saved. */
  lemma LeaderDiskIsPrefix(s: System, c: Config)
    requires Reachable(s, c)
    ensures JoinKnown(s.join, c)
    ensures var metas, store := Metas(s.join.closed, c.follower.items), s.leader.store;
            var d := Sync(store).saved + 1;
            && 0 <= d <= |metas| && (d == store.saved + 1 || (d == store.saved + 2 && store.saving == Some(d - 1)))
            && (forall k :: k in store.metas <==> 0 <= k < d)
            && (forall k :: k in store.metas ==> store.metas[k] == metas[k])
  {
    ReachableInv(s, c);
    SyncKeepsStore(s.leader.store, Metas(s.join.closed, c.follower.items), c.leaderItems);
    SyncMakesExact(s.leader.store);
  }

  /** The buffer holds the follower's metas up to next - 1 without a gap, from the first block not yet on disk or,
      after a failure only, from the last one on disk. */
  lemma BufferIsContiguous(s: System, c: Config)
    requires Reachable(s, c)
    ensures JoinKnown(s.join, c)
    ensures var metas, l := Metas(s.join.closed, c.follower.items), s.leader;
            && |l.buffer| <= l.next <= |metas| && l.buffer == metas[l.next - |l.buffer|..l.next]
            && (Clean(l) || HeadPending(l))
            && (!l.switch ==> Clean(l)) && Clean(Begin(l))
  {
    ReachableInv(s, c);
    BeginCleans(s.leader, Metas(s.join.closed, c.follower.items), c.leaderItems);
  }

  /** For every index both parties have stored, the metas are equal, and the leader's and the follower's block hold
      their own records of the same ids in the same order. `metas` and `blocks` are the follower's directory as
      DataJoiner keeps it. */
  lemma BlocksAgree(s: System, c: Config, metas: map<int, Meta>, blocks: map<int, seq<Record>>, k: nat)
    requires Reachable(s, c) && Emitted(metas, blocks, s.join.closed, c.follower.items)
    requires k in s.leader.store.metas
    ensures k < |s.join.closed| && k in metas && k in blocks && k in s.leader.store.blocks
    ensures s.leader.store.metas[k] == metas[k] && metas[k].exampleIds == s.join.closed[k].ids
    ensures var ids, mine, theirs := metas[k].exampleIds, s.leader.store.blocks[k], blocks[k];
            && |mine| == |theirs| == |ids| > 0
            && forall i :: 0 <= i < |ids| ==>
                 && ids[i] in c.leaderItems && mine[i] == c.leaderItems[ids[i]].record
                 && ids[i] in c.follower.items && theirs[i] == c.follower.items[ids[i]].record
  {
    ReachableInv(s, c);
    assert BlockStored(metas, blocks, k, s.join.closed[k].ids, c.follower.items);
  }

  /** The leader's count assertion never fails in any run. */
  lemma LeaderHasEveryId(s: System, c: Config, f: Faults)
    requires Reachable(s, c) && s.leader.buffer != []
    ensures var m := s.leader.buffer[0];
            var ids := Present(m.exampleIds, c.leaderItems);
            ids == m.exampleIds && !Finalize(s.leader.store, m, |ids|, Records(ids, c.leaderItems), f).1.CountMismatch?
  {
    ReachableInv(s, c);
    HeadIs(s.leader, Metas(s.join.closed, c.follower.items), c.leaderItems);
    CountAssertionHolds(s.leader, Metas(s.join.closed, c.follower.items), c.leaderItems, f);
  }

  // ----- Catching up -----

  predicate NoFollowerRestart(steps: seq<Step>) {
    forall i :: 0 <= i < |steps| ==> steps[i] != RestartFollower
  }

  /** The leader has stored the first `n` blocks. */
  ghost predicate CaughtUp(s: System, n: nat) {
    forall k :: 0 <= k < n ==> k in s.leader.store.metas
  }

  /** What the follower's sender gets when it looks a meta up. */
  function Look(s: System, k: nat, c: Config): (Buffer, Lookup)
  {
    Acquire(s.buffer, StoreOf(Metas(s.join.closed, c.follower.items)), k)
  }

  /** What a step newly puts on the wire. */
  function SentBy(s: System, step: Step, c: Config): set<nat>
  {
    if step.SendNext? && s.cursor.Some? && Look(s, s.cursor.value, c).1.Found? then {s.cursor.value} else {}
  }

  /** A run that delivers only what it sends itself, and `copies`: those of the metas sent earlier that are still on
      their way. */
  ghost predicate IsOwnRun(s: System, copies: set<nat>, steps: seq<Step>, t: System, c: Config)
    decreases |steps|
  {
    if steps == [] then s == t
    else
      && Enabled(s, steps[0], c) && (steps[0].Deliver? ==> steps[0].k in copies)
      && IsOwnRun(Apply(s, steps[0], c), copies + SentBy(s, steps[0], c), steps[1..], t, c)
  }

  /** `t` can be reached from `s` like that, with restarts of the follower or without. */
  ghost predicate Leads(s: System, copies: set<nat>, t: System, c: Config, restarts: bool) {
    exists steps :: IsOwnRun(s, copies, steps, t, c) && (restarts || NoFollowerRestart(steps))
  }

  /** The leader can be brought level with the blocks joined so far. */
  ghost predicate CanCatchUp(s: System, copies: set<nat>, c: Config, restarts: bool) {
    exists t :: Leads(s, copies, t, c, restarts) && CaughtUp(t, |s.join.closed|)
  }

  // ----- States of a run -----

  lemma {:induction false} RunOn(s: System, steps: seq<Step>, t: System, step: Step, c: Config)
    requires IsRun(s, steps, t, c) && Enabled(t, step, c)
    ensures IsRun(s, steps + [step], Apply(t, step, c), c)
    decreases |steps|
  {
    var u := Apply(t, step, c);
    if steps == [] {
      assert ([] + [step])[0] == step && ([] + [step])[1..] == [];
      assert IsRun(u, [], u, c);
    } else {
      RunOn(Apply(s, steps[0], c), steps[1..], t, step, c);
      assert (steps + [step])[0] == steps[0] && (steps + [step])[1..] == steps[1..] + [step];
    }
  }

  lemma ReachableStep(s: System, step: Step, c: Config)
    requires Reachable(s, c) && Enabled(s, step, c)
    ensures Reachable(Apply(s, step, c), c)
  {
    var steps :| IsRun(INITIAL, steps, s, c);
    RunOn(INITIAL, steps, s, step, c);
  }

  /** What the sender looks metas up in. */
  lemma SenderBuffer(s: System, c: Config)
    requires Reachable(s, c)
    ensures var metas := Metas(s.join.closed, c.follower.items); Numbered(metas) && Buffered(s.buffer, metas)
  {
    ReachableInv(s, c);
  }

  // ----- What does not fit is never caught up with -----

  lemma StoredAreTaken(s: System, c: Config, k: nat)
    requires Reachable(s, c) && k in s.leader.store.metas
    ensures k < s.leader.next
  {
    ReachableInv(s, c);
  }

  lemma ReachableNextMoves(s: System, step: Step, c: Config)
    requires Reachable(s, c) && Enabled(s, step, c)
    ensures var next := Apply(s, step, c).leader.next;
            next <= s.leader.next || (step == Deliver(s.leader.next) && next == s.leader.next + 1)
  {
    ReachableInv(s, c);
    NextMoves(s, step, c);
  }

  lemma FollowerKeepsUnfit(s: System, step: Step, e: set<nat>, c: Config, from: nat, n: nat)
    requires Reachable(s, c) && Enabled(s, step, c) && FollowerStep(step)
    requires n <= |s.join.closed| && !Fits(s.buffer, e, from, n)
    ensures var t := Apply(s, step, c); n <= |t.join.closed| && !Fits(t.buffer, e, from, n)
  {
    ReachableInv(s, c);
    var j, stalled, noted := FollowerStepJoins(s, step, c);
    SavesKeepUnfit(s.buffer, Metas(j.closed, c.follower.items), |s.join.closed|, noted, e, from, n);
  }

  lemma SendKeepsUnfit(s: System, e: set<nat>, c: Config, from: nat, n: nat)
    requires Reachable(s, c) && s.cursor.Some? && !Fits(s.buffer, e, from, n)
    ensures !Fits(Apply(s, SendNext, c).buffer, e + SentBy(s, SendNext, c), from, n)
  {
    assert e + {} == e;
    SenderBuffer(s, c);
    LookupKeepsUnfit(s.buffer, Metas(s.join.closed, c.follower.items), s.cursor.value, e, from, n);
  }

  lemma StepKeepsUnfit(s: System, copies: set<nat>, step: Step, c: Config, from: nat, n: nat)
    requires Reachable(s, c) && Enabled(s, step, c) && step != RestartFollower
    requires n <= |s.join.closed| && !Fits(s.buffer, copies, from, n)
    ensures var t := Apply(s, step, c);
            n <= |t.join.closed| && !Fits(t.buffer, copies + SentBy(s, step, c), from, n)
  {
    assert copies + {} == copies;
    if FollowerStep(step) {
      FollowerKeepsUnfit(s, step, copies, c, from, n);
    } else if step.SendNext? {
      SendKeepsUnfit(s, copies, c, from, n);
    }
  }

  lemma {:induction false} RunKeepsUnfit(s: System, copies: set<nat>, steps: seq<Step>, t: System, c: Config,
                                         from: nat, n: nat) returns (own: set<nat>)
    requires Reachable(s, c) && IsOwnRun(s, copies, steps, t, c) && NoFollowerRestart(steps)
    requires n <= |s.join.closed| && !Fits(s.buffer, copies, from, n)
    requires forall k: nat :: from <= k < s.leader.next ==> k in copies
    ensures Reachable(t, c) && !Fits(t.buffer, own, from, n)
    ensures forall k: nat :: from <= k < t.leader.next ==> k in own
    decreases |steps|
  {
    own := copies;
    if steps != [] {
      ReachableStep(s, steps[0], c);
      assert steps[0] != RestartFollower;
      StepKeepsUnfit(s, copies, steps[0], c, from, n);
      ReachableNextMoves(s, steps[0], c);
      assert forall i :: 0 <= i < |steps[1..]| ==> steps[1..][i] == steps[i + 1];
      own := RunKeepsUnfit(Apply(s, steps[0], c), copies + SentBy(s, steps[0], c), steps[1..], t, c, from, n);
    }
  }

  lemma UnfitStaysBehind(s: System, copies: set<nat>, t: System, c: Config)
    requires Reachable(s, c) && Leads(s, copies, t, c, false) && !Fits(s.buffer, copies, s.leader.next, |s.join.closed|)
    ensures !CaughtUp(t, |s.join.closed|)
  {
    var from, n := s.leader.next, |s.join.closed|;
    var steps :| IsOwnRun(s, copies, steps, t, c) && NoFollowerRestart(steps);
    var own := RunKeepsUnfit(s, copies, steps, t, c, from, n);
    var k := SomeMissing(t.buffer, own, from, n);
    if k in t.leader.store.metas {
      StoredAreTaken(t, c, k);
    }
  }

  lemma UnfitIsStranded(s: System, copies: set<nat>, c: Config)
    requires Reachable(s, c) && !Fits(s.buffer, copies, s.leader.next, |s.join.closed|)
    ensures !CanCatchUp(s, copies, c, false)
  {
    forall t | Leads(s, copies, t, c, false)
      ensures !CaughtUp(t, |s.join.closed|)
    {
      UnfitStaysBehind(s, copies, t, c);
    }
  }

  // ----- What fits can be caught up with -----

  lemma {:induction false} MoreCopies(s: System, copies: set<nat>, more: set<nat>, steps: seq<Step>, t: System, c: Config)
    requires copies <= more && IsOwnRun(s, copies, steps, t, c)
    ensures IsOwnRun(s, more, steps, t, c)
    decreases |steps|
  {
    if steps != [] {
      var sent := SentBy(s, steps[0], c);
      MoreCopies(Apply(s, steps[0], c), copies + sent, more + sent, steps[1..], t, c);
    }
  }

  lemma RunCons(s: System, copies: set<nat>, step: Step, rest: seq<Step>, t: System, c: Config)
    requires Enabled(s, step, c) && (step.Deliver? ==> step.k in copies)
    requires IsOwnRun(Apply(s, step, c), copies + SentBy(s, step, c), rest, t, c)
    ensures IsOwnRun(s, copies, [step] + rest, t, c)
  {
    assert ([step] + rest)[0] == step && ([step] + rest)[1..] == rest;
  }

  lemma Rejoin(a: seq<Step>, b: seq<Step>)
    ensures a + b == if a == [] then b else [a[0]] + (a[1..] + b)
  {
  }

  lemma {:induction false} RunAppend(s: System, copies: set<nat>, a: seq<Step>, t: System, b: seq<Step>, u: System,
                                     c: Config)
    requires IsOwnRun(s, copies, a, t, c) && IsOwnRun(t, copies, b, u, c)
    ensures IsOwnRun(s, copies, a + b, u, c)
    decreases |a|
  {
    Rejoin(a, b);
    if a != [] {
      var more := copies + SentBy(s, a[0], c);
      MoreCopies(t, copies, more, b, u, c);
      RunAppend(Apply(s, a[0], c), more, a[1..], t, b, u, c);
      RunCons(s, copies, a[0], a[1..] + b, u, c);
    }
  }

  lemma LeadsOn(s: System, copies: set<nat>, t: System, u: System, c: Config, restarts: bool)
    requires Leads(s, copies, t, c, restarts) && Leads(t, copies, u, c, restarts)
    ensures Leads(s, copies, u, c, restarts)
  {
    var a :| IsOwnRun(s, copies, a, t, c) && (restarts || NoFollowerRestart(a));
    var b :| IsOwnRun(t, copies, b, u, c) && (restarts || NoFollowerRestart(b));
    RunAppend(s, copies, a, t, b, u, c);
    assert NoFollowerRestart(a) && NoFollowerRestart(b) ==> NoFollowerRestart(a + b);
  }

  lemma LeadsNowhere(s: System, copies: set<nat>, c: Config, restarts: bool)
    ensures Leads(s, copies, s, c, restarts)
  {
    assert IsOwnRun(s, copies, [], s, c) && NoFollowerRestart([]);
  }

  lemma OneStep(s: System, copies: set<nat>, step: Step, c: Config, restarts: bool) returns (t: System)
    requires Reachable(s, c) && Enabled(s, step, c) && (restarts || step != RestartFollower)
    requires step.Deliver? ==> step.k in copies
    ensures t == Apply(s, step, c) && Reachable(t, c) && Leads(s, copies, t, c, restarts)
  {
    t := Apply(s, step, c);
    ReachableStep(s, step, c);
    assert [step][1..] == [];
    assert IsOwnRun(t, copies + SentBy(s, step, c), [], t, c);
    assert IsOwnRun(s, copies, [step], t, c);
    assert restarts || NoFollowerRestart([step]);
  }

  /** One more step at the end. */
  lemma AndStep(s: System, copies: set<nat>, t: System, step: Step, c: Config, restarts: bool) returns (u: System)
    requires Leads(s, copies, t, c, restarts) && Reachable(t, c) && Enabled(t, step, c)
    requires (restarts || step != RestartFollower) && (step.Deliver? ==> step.k in copies)
    ensures u == Apply(t, step, c) && Reachable(u, c) && Leads(s, copies, u, c, restarts)
  {
    u := OneStep(t, copies, step, c, restarts);
    LeadsOn(s, copies, t, u, c, restarts);
  }

  /** Between two calls of the sender, with a saver that is idle, clean and still takes metas. */
  predicate Ready(s: System) {
    s.cursor.None? && Clean(s.leader) && !s.leader.finished && !s.leader.looping
  }

  lemma WireIsProduced(s: System, c: Config, k: nat)
    requires Reachable(s, c)
    ensures (k in s.wire ==> k < |s.join.closed|) && s.leader.next <= |s.join.closed|
  {
    ReachableInv(s, c);
  }

  /** In `t` the leader has taken its next meta, and it can go on like that. */
  ghost predicate HandsOver(s: System, copies: set<nat>, t: System, c: Config, restarts: bool) {
    // One value, so that proving it is one obligation and not one per conjunct.
    var holds :=
      && Leads(s, copies, t, c, restarts) && Reachable(t, c) && Ready(t) && copies <= t.wire
      && t.join.closed == s.join.closed && t.leader.next == s.leader.next + 1;
    holds
  }

  lemma CopyKeepsFits(b: Buffer, e: set<nat>, next: nat, end: nat)
    requires next in e && next < end
    ensures Fits(b, e, next, end) <==> Fits(b, e, next + 1, end)
  {
  }

  /** A copy on its way reaches the leader. */
  lemma DeliverCopy(s: System, copies: set<nat>, c: Config) returns (t: System)
    requires Reachable(s, c) && Ready(s) && s.leader.next < |s.join.closed| && copies <= s.wire
    requires Fits(s.buffer, copies, s.leader.next, |s.join.closed|) && s.leader.next in copies
    ensures HandsOver(s, copies, t, c, false)
    ensures Fits(t.buffer, copies, t.leader.next, |t.join.closed|)
  {
    CopyKeepsFits(s.buffer, copies, s.leader.next, |s.join.closed|);
    t := DeliverNext(s, copies, c);
  }

  lemma DeliverNext(s: System, copies: set<nat>, c: Config) returns (t: System)
    requires Reachable(s, c) && Ready(s) && s.leader.next in copies && copies <= s.wire
    ensures HandsOver(s, copies, t, c, false) && t.buffer == s.buffer
  {
    WireIsProduced(s, c, s.leader.next);
    t := OneStep(s, copies, Deliver(s.leader.next), c, false);
  }

  lemma TwoSteps(s: System, copies: set<nat>, a: Step, b: Step, c: Config, restarts: bool) returns (t: System)
    requires Reachable(s, c) && Enabled(s, a, c) && Enabled(Apply(s, a, c), b, c)
    requires (a.Deliver? ==> a.k in copies) && (b.Deliver? ==> b.k in copies + SentBy(s, a, c))
    requires a != RestartFollower && b != RestartFollower
    ensures t == Apply(Apply(s, a, c), b, c) && Reachable(t, c) && Leads(s, copies, t, c, restarts)
  {
    ReachableStep(s, a, c);
    var u := Apply(s, a, c);
    ReachableStep(u, b, c);
    t := Apply(u, b, c);
    assert [b][1..] == [] && [a, b][1..] == [b];
    assert IsOwnRun(t, copies + SentBy(s, a, c) + SentBy(u, b, c), [], t, c);
    assert IsOwnRun(u, copies + SentBy(s, a, c), [b], t, c);
    assert IsOwnRun(s, copies, [a, b], t, c) && NoFollowerRestart([a, b]);
  }

  /** Sending and at once delivering the meta under the cursor. */
  lemma SendAndDeliver(s: System, copies: set<nat>, c: Config, restarts: bool) returns (t: System)
    requires Reachable(s, c) && s.cursor == Some(s.leader.next) && s.leader.next < |s.join.closed|
    requires Clean(s.leader) && !s.leader.finished && !s.leader.looping
    requires Look(s, s.leader.next, c).1.Found?
    ensures Leads(s, copies, t, c, restarts) && Reachable(t, c) && t.join == s.join && t.cursor.Some?
    ensures t.leader == Append(s.leader, Metas(s.join.closed, c.follower.items)[s.leader.next]).0
    ensures t.wire == s.wire + {s.leader.next}
    ensures t.buffer == Look(s, s.leader.next, c).0
  {
    ReachableStep(s, SendNext, c);
    t := TwoSteps(s, copies, SendNext, Deliver(s.leader.next), c, restarts);
  }

  /** A call of the sender hands the leader its next meta if the lookup finds it. */
  lemma HandOverNext(s: System, copies: set<nat>, c: Config, restarts: bool) returns (t: System)
    requires Reachable(s, c) && Ready(s) && s.leader.next < |s.join.closed| && copies <= s.wire
    requires Look(s, s.leader.next, c).1.Found?
    ensures HandsOver(s, copies, t, c, restarts)
    ensures t.buffer == Look(s, s.leader.next, c).0
  {
    var started := OneStep(s, copies, StartSending, c, restarts);
    var delivered := SendAndDeliver(started, copies, c, restarts);
    LeadsOn(s, copies, started, delivered, c, restarts);
    SenderBuffer(s, c);
    t := AndStep(s, copies, delivered, StopSending, c, restarts);
  }

  lemma NextFits(s: System, copies: set<nat>, c: Config)
    requires Reachable(s, c) && s.leader.next < |s.join.closed| && s.leader.next !in copies
    requires Fits(s.buffer, copies, s.leader.next, |s.join.closed|)
    ensures var (buffer, r) := Look(s, s.leader.next, c);
            r.Found? && Fits(buffer, copies, s.leader.next + 1, |s.join.closed|)
  {
    var metas := Metas(s.join.closed, c.follower.items);
    SenderBuffer(s, c);
    FittingIsFound(s.buffer, metas, copies, s.leader.next);
  }

  lemma HandOverThatFits(s: System, copies: set<nat>, c: Config) returns (t: System)
    requires Reachable(s, c) && Ready(s) && s.leader.next < |s.join.closed| && copies <= s.wire
    requires Fits(s.buffer, copies, s.leader.next, |s.join.closed|) && s.leader.next !in copies
    ensures HandsOver(s, copies, t, c, false)
    ensures Fits(t.buffer, copies, t.leader.next, |t.join.closed|)
  {
    NextFits(s, copies, c);
    t := HandOverNext(s, copies, c, false);
  }

  /** Without restarts, the next meta can be handed over if everything fits, and then the rest still fits. */
  lemma HandOverOne(s: System, copies: set<nat>, c: Config) returns (t: System)
    requires Reachable(s, c) && Ready(s) && s.leader.next < |s.join.closed| && copies <= s.wire
    requires Fits(s.buffer, copies, s.leader.next, |s.join.closed|)
    ensures HandsOver(s, copies, t, c, false)
    ensures Fits(t.buffer, copies, t.leader.next, |t.join.closed|)
  {
    if s.leader.next in copies {
      t := DeliverCopy(s, copies, c);
    } else {
      t := HandOverThatFits(s, copies, c);
    }
  }

  /** With a restart of the follower before the lookup there is always room. */
  lemma HandOverAfterRestart(s: System, copies: set<nat>, c: Config) returns (t: System)
    requires Reachable(s, c) && Ready(s) && s.leader.next < |s.join.closed| && copies <= s.wire
    requires Enabled(s, RestartFollower, c)
    ensures HandsOver(s, copies, t, c, true)
  {
    var restarted := OneStep(s, copies, RestartFollower, c, true);
    SenderBuffer(restarted, c);
    LookupEffect([], Metas(s.join.closed, c.follower.items), s.leader.next);
    t := HandOverNext(restarted, copies, c, true);
    LeadsOn(s, copies, restarted, t, c, true);
  }

  lemma {:induction false} HandOverAll(s: System, copies: set<nat>, c: Config, restarts: bool) returns (t: System)
    requires Reachable(s, c) && Ready(s) && copies <= s.wire
    requires if restarts then Enabled(s, RestartFollower, c)
             else Fits(s.buffer, copies, s.leader.next, |s.join.closed|)
    ensures Leads(s, copies, t, c, restarts) && Reachable(t, c)
    ensures t.join.closed == s.join.closed && t.leader.next == |s.join.closed|
    decreases |s.join.closed| - s.leader.next
  {
    LeadsNowhere(s, copies, c, restarts);
    WireIsProduced(s, c, s.leader.next);
    t := s;
    if s.leader.next < |s.join.closed| {
      var one;
      if restarts {
        one := HandOverAfterRestart(s, copies, c);
      } else {
        one := HandOverOne(s, copies, c);
      }
      t := HandOverAll(one, copies, c, restarts);
      LeadsOn(s, copies, one, t, c, restarts);
    }
  }

  lemma HeadIsSaved(s: System, c: Config)
    requires Reachable(s, c) && s.leader.looping && s.leader.buffer != []
    ensures var l := Attempt(s.leader, c.leaderItems, FAULTLESS);
            l.looping && l.buffer == s.leader.buffer[1..] && l.next == s.leader.next
  {
    ReachableInv(s, c);
    SavesIffClean(s.leader, Metas(s.join.closed, c.follower.items), c.leaderItems);
  }

  lemma {:induction false} SaveAll(s: System, copies: set<nat>, c: Config, restarts: bool) returns (t: System)
    requires Reachable(s, c) && s.leader.looping
    ensures Leads(s, copies, t, c, restarts) && Reachable(t, c) && t == s.(leader := t.leader)
    ensures t.leader.looping && t.leader.buffer == [] && t.leader.next == s.leader.next
    decreases |s.leader.buffer|
  {
    LeadsNowhere(s, copies, c, restarts);
    t := s;
    if s.leader.buffer != [] {
      HeadIsSaved(s, c);
      var saved := OneStep(s, copies, Save(FAULTLESS), c, restarts);
      t := SaveAll(saved, copies, c, restarts);
      LeadsOn(s, copies, saved, t, c, restarts);
    }
  }

  lemma EmptyIsClean(s: System, c: Config)
    requires Reachable(s, c) && s.leader.buffer == []
    ensures Clean(s.leader)
  {
    ReachableInv(s, c);
  }

  lemma DrainRound(s: System, copies: set<nat>, c: Config, restarts: bool) returns (t: System)
    requires Reachable(s, c) && s.leader.looping
    ensures Leads(s, copies, t, c, restarts) && Reachable(t, c) && t == s.(leader := t.leader)
    ensures t.leader.buffer == [] && !t.leader.looping && t.leader.next == s.leader.next
  {
    var saved := SaveAll(s, copies, c, restarts);
    t := AndStep(s, copies, saved, EndRound, c, restarts);
  }

  /** The leader can always store what it has buffered and end its round. */
  lemma Drain(s: System, copies: set<nat>, c: Config, restarts: bool) returns (t: System)
    requires Reachable(s, c)
    ensures Leads(s, copies, t, c, restarts) && Reachable(t, c) && t == s.(leader := t.leader)
    ensures t.leader.buffer == [] && !t.leader.looping && t.leader.next == s.leader.next
  {
    if s.leader.looping {
      t := DrainRound(s, copies, c, restarts);
    } else if s.leader.buffer != [] {
      var begun := OneStep(s, copies, BeginRound, c, restarts);
      t := DrainRound(begun, copies, c, restarts);
      LeadsOn(s, copies, begun, t, c, restarts);
    } else {
      LeadsNowhere(s, copies, c, restarts);
      t := s;
    }
  }

  lemma DrainedIsCaughtUp(s: System, c: Config)
    requires Reachable(s, c) && s.leader.buffer == []
    ensures CaughtUp(s, s.leader.next)
  {
    ReachableInv(s, c);
  }

  lemma DrainedRestarts(s: System, c: Config)
    requires Reachable(s, c) && |s.join.closed| - 1 <= THRESHOLD && s.leader.buffer == []
    ensures Enabled(s, RestartLeader, c) && Crash(s.leader).next == s.leader.next
  {
    ReachableInv(s, c);
    DrainedCrash(s.leader, Metas(s.join.closed, c.follower.items), c.leaderItems);
  }

  /** A drained leader that takes no more metas does so again after a restart, from the same index. */
  lemma TakesMetasAgain(s: System, copies: set<nat>, c: Config, restarts: bool) returns (t: System)
    requires Reachable(s, c) && |s.join.closed| - 1 <= THRESHOLD
    requires s.leader.buffer == [] && !s.leader.looping
    ensures Leads(s, copies, t, c, restarts) && Reachable(t, c) && t == s.(leader := t.leader)
    ensures t.leader.buffer == [] && !t.leader.finished && !t.leader.looping && t.leader.next == s.leader.next
  {
    if s.leader.finished {
      DrainedRestarts(s, c);
      t := OneStep(s, copies, RestartLeader, c, restarts);
    } else {
      LeadsNowhere(s, copies, c, restarts);
      t := s;
    }
  }

  lemma StopsSending(s: System, copies: set<nat>, c: Config, restarts: bool) returns (t: System)
    requires Reachable(s, c)
    ensures Leads(s, copies, t, c, restarts) && Reachable(t, c) && t == s.(cursor := None)
  {
    if s.cursor.Some? {
      t := OneStep(s, copies, StopSending, c, restarts);
    } else {
      LeadsNowhere(s, copies, c, restarts);
      t := s;
    }
  }

  lemma MakeReady(s: System, copies: set<nat>, c: Config, restarts: bool) returns (t: System)
    requires Reachable(s, c) && |s.join.closed| - 1 <= THRESHOLD
    ensures Leads(s, copies, t, c, restarts) && Reachable(t, c) && Ready(t)
    ensures t.join == s.join && t.buffer == s.buffer && t.wire == s.wire && t.leader.next == s.leader.next
  {
    var drained := Drain(s, copies, c, restarts);
    var taking := TakesMetasAgain(drained, copies, c, restarts);
    t := StopsSending(taking, copies, c, restarts);
    EmptyIsClean(t, c);
    LeadsOn(s, copies, drained, taking, c, restarts);
    LeadsOn(s, copies, taking, t, c, restarts);
  }

  lemma CatchUp(s: System, copies: set<nat>, c: Config, restarts: bool) returns (t: System)
    requires Reachable(s, c) && copies <= s.wire && |s.join.closed| - 1 <= THRESHOLD
    requires restarts || Fits(s.buffer, copies, s.leader.next, |s.join.closed|)
    ensures Leads(s, copies, t, c, restarts) && CaughtUp(t, |s.join.closed|)
  {
    var ready := MakeReady(s, copies, c, restarts);
    var handed := HandOverAll(ready, copies, c, restarts);
    t := Drain(handed, copies, c, restarts);
    LeadsOn(s, copies, ready, handed, c, restarts);
    LeadsOn(s, copies, handed, t, c, restarts);
    DrainedIsCaughtUp(t, c);
  }

  /** While the follower does not restart, the leader can be brought level with it if and only if every block from the
      leader's next index on is still on its way, is buffered, or has room in the follower's meta buffer. */
  lemma CanCatchUpIff(s: System, copies: set<nat>, c: Config)
    requires Reachable(s, c) && copies <= s.wire && |s.join.closed| - 1 <= THRESHOLD
    ensures CanCatchUp(s, copies, c, false) <==> Fits(s.buffer, copies, s.leader.next, |s.join.closed|)
  {
    ReachableInv(s, c);
    if Fits(s.buffer, copies, s.leader.next, |s.join.closed|) {
      var t := CatchUp(s, copies, c, false);
    } else {
      UnfitIsStranded(s, copies, c);
    }
  }

  /** With restarts of the follower nothing is lost for good: from every reachable state, without any help of what was
      sent before, some continuation brings the leader level with it. */
  lemma RestartsCatchUp(s: System, c: Config)
    requires Reachable(s, c) && |s.join.closed| - 1 <= THRESHOLD
    ensures CanCatchUp(s, {}, c, true)
  {
    ReachableInv(s, c);
    var t := CatchUp(s, {}, c, true);
  }

  lemma {:induction false} OneIdPerBlock(j: Join, ids: seq<Id>, o: Options)
    requires o.threshold <= 1 && AllIn(ids, o.items) && j.open.None?
    ensures var k := TakeIds(j, ids, o); k.open.None? && |k.closed| == |j.closed| + |ids|
  {
    if ids != [] {
      OneIdPerBlock(j, ids[..|ids| - 1], o);
    }
  }

  /** Such states are reached: one batch of more than 1025 known ids, joined into blocks of one id each before
      anything is sent, strands the blocks from 1024 to the last but one until the follower restarts. */
  lemma LargeJoinStrands(c: Config, ids: seq<Id>)
    requires c.follower.threshold <= 1 && AllIn(ids, c.leaderItems) && AllIn(ids, c.follower.items)
    requires BUFFER_ITEMS + 1 < |ids| <= THRESHOLD
    ensures Enabled(INITIAL, Take(Batch(ids, false, false)), c)
    ensures var s := Apply(INITIAL, Take(Batch(ids, false, false)), c);
            Reachable(s, c) && |s.join.closed| == |ids| && !CanCatchUp(s, {}, c, false)
  {
    var step := Take(Batch(ids, false, false));
    OneIdPerBlock(START, ids, c.follower);
    var s := Apply(INITIAL, step, c);
    assert [step][1..] == [] && IsRun(s, [], s, c);
    assert IsRun(INITIAL, [step], s, c);
    assert Reachable(s, c);
    LongSavesStrand(Metas(s.join.closed, c.follower.items));
    CanCatchUpIff(s, {}, c);
  }

  /** A leader that restarts before it has stored what it was sent strands the same blocks, even if the follower sent
      every one of them in time. */
  lemma RestartStrands(s: System, c: Config)
    requires Reachable(s, c) && BUFFER_ITEMS + 1 < |s.join.closed| <= THRESHOLD
    requires s.buffer == Saves([], Metas(s.join.closed, c.follower.items), 0, |s.join.closed|)
    requires s.leader.store.metas == map[]
    ensures Enabled(s, RestartLeader, c)
    ensures var t := Apply(s, RestartLeader, c); t.join == s.join && !CanCatchUp(t, {}, c, false)
  {
    var metas := Metas(s.join.closed, c.follower.items);
    ReachableInv(s, c);
    EmptyDiskStartsOver(s.leader, metas, c.leaderItems);
    ReachableStep(s, RestartLeader, c);
    LongSavesStrand(metas);
    UnfitIsStranded(Apply(s, RestartLeader, c), {}, c);
  }
}

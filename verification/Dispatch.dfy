/** Dispatching data blocks to actors: the dispatcher, one party's run loop, and two parties side by side. */
module Dispatch {

  import opened Wrappers

  datatype BlockStatus = INIT | PREPARED | PROCESSING | PROCESSED

  /** The lowest block nobody has taken yet. */
  function NextInit(status: seq<BlockStatus>): (r: Option<nat>)
    ensures r.Some? ==> r.value < |status| && status[r.value] == INIT && forall i :: 0 <= i < r.value ==> status[i] != INIT
    ensures r.None? ==> forall i :: 0 <= i < |status| ==> status[i] != INIT
  {
    if status == [] then None
    else if status[0] == INIT then Some(0)
    else
      var r := NextInit(status[1..]);
      assert forall i :: 1 <= i < |status| ==> status[i] == status[1..][i - 1];
      if r.None? then None else Some(r.value + 1)
  }

  /** The dispatcher of a single-file input: it owns the blocks and hands each one out. */
  class BlockDispatchActor<Block> {
    var dataStatus: seq<BlockStatus>
    var dataBlocks: seq<Option<Block>>

    ghost predicate Valid()
      reads this
    {
      && |dataStatus| == |dataBlocks|
      && forall i :: 0 <= i < |dataStatus| && dataStatus[i] == INIT ==> dataBlocks[i].Some?
    }

    constructor (blocks: seq<Block>)
      ensures Valid() && |dataStatus| == |blocks|
      ensures forall i :: 0 <= i < |blocks| ==> dataStatus[i] == INIT && dataBlocks[i] == Some(blocks[i])
    {
      dataStatus := seq(|blocks|, _ => INIT);
      dataBlocks := seq(|blocks|, i requires 0 <= i < |blocks| => Some(blocks[i]));
    }

    method GetNextUnprocessedDataAndUse() returns (next: Option<(nat, Block)>)
      requires Valid()
      modifies this
      ensures Valid()
      ensures next.None? <==> NextInit(old(dataStatus)) == None
      ensures next.None? ==> dataStatus == old(dataStatus) && dataBlocks == old(dataBlocks)
      ensures next.Some? ==>
        && NextInit(old(dataStatus)) == Some(next.value.0)
        && old(dataBlocks)[next.value.0] == Some(next.value.1)
        && dataStatus == old(dataStatus)[next.value.0 := PREPARED]
        && dataBlocks == old(dataBlocks)[next.value.0 := None]
    {
      var findIndex := -1;
      for i := 0 to |dataStatus|
        invariant findIndex == -1
        invariant forall j :: 0 <= j < i ==> dataStatus[j] != INIT
      {
        if dataStatus[i] == INIT {
          findIndex := i;
          break;
        }
      }
      if findIndex < 0 {
        return None;
      }
      dataStatus := dataStatus[findIndex := PREPARED];
      var data := dataBlocks[findIndex].value;
      dataBlocks := dataBlocks[findIndex := None];
      next := Some((findIndex, data));
    }

    method ChangeDataStatus(blockId: int, status: BlockStatus) returns (ok: bool)
      requires Valid()
      modifies this
      ensures dataBlocks == old(dataBlocks)
      ensures ok <==> 0 <= blockId < |old(dataStatus)|
      ensures dataStatus == if ok then old(dataStatus)[blockId := status] else old(dataStatus)
      ensures Valid() <==> !(ok && status == INIT && dataBlocks[blockId].None?)
    {
      if blockId < 0 || blockId >= |dataStatus| {
        return false;
      }
      dataStatus := dataStatus[blockId := status];
      ok := true;
    }
  }

  // ----- One party -----

  /** One party's progress: `taken` blocks were dispatched, lowest first, and those in `busy` are still running. */
  datatype Progress = Progress(blocks: nat, actors: nat, taken: nat, busy: set<nat>)

  function Min(a: nat, b: nat): nat {
    if a <= b then a else b
  }

  function UpTo(n: nat): (r: set<nat>)
    ensures forall b :: b in r <==> 0 <= b < n
  {
    if n == 0 then {} else UpTo(n - 1) + {n - 1}
  }

  function Start(blocks: nat, maxActors: nat): Progress {
    var actors := Min(maxActors, blocks);
    Progress(blocks, actors, actors, UpTo(actors))
  }

  /** Block `b` completes and its actor takes the next block, if one is left. */
  function Complete(p: Progress, b: nat): Progress {
    if p.taken < p.blocks then p.(taken := p.taken + 1, busy := p.busy - {b} + {p.taken})
    else p.(busy := p.busy - {b})
  }

  predicate Done(p: Progress, b: nat) {
    b < p.taken && b !in p.busy
  }

  predicate AllDone(p: Progress) {
    p.taken == p.blocks && p.busy == {}
  }

  /** A remote task: an actor working on the data of a block. */
  datatype Task<Block> = Task(actor: nat, block: nat, data: Block)

  /** What ray.wait and the status updates bring: a timeout, one finished task, one that raised an error, or one
      update that reached the dispatcher. */
  datatype Event = Timeout | Ready(position: nat) | Raised(position: nat) | StatusUpdate(position: nat)

  /** How far the run loop got. It leaves the loop only after a finished task, so without any task it waits for ever. */
  datatype Outcome = NothingToWaitFor | TaskRaised | StillRunning | Completed

  predicate HasTask<Block>(refs: seq<Task<Block>>, b: nat) {
    exists i :: 0 <= i < |refs| && refs[i].block == b
  }

  /** While blocks are left to dispatch, slot `i` of the task list is actor `i`'s; afterwards only finished slots leave. */
  ghost predicate TasksMatch<Block>(status: seq<BlockStatus>, refs: seq<Task<Block>>, p: Progress) {
    && p.taken <= p.blocks == |status|
    && (forall i :: 0 <= i < |status| ==> (status[i] == INIT <==> i >= p.taken))
    && (p.taken < p.blocks ==> |refs| == p.actors && forall i :: 0 <= i < |refs| ==> refs[i].actor == i)
    && (forall i, j :: 0 <= i < j < |refs| ==> refs[i].actor != refs[j].actor && refs[i].block != refs[j].block)
    && (forall i :: 0 <= i < |refs| ==> refs[i].actor < p.actors && refs[i].block in p.busy)
    && (forall b :: b in p.busy ==> b < p.taken && HasTask(refs, b))
  }

  /** Each output sits in the slot of the block it belongs to. */
  ghost predicate OutputsMatch<Block, Output>(blocks: seq<Block>, action: (nat, Block) -> Output, outputs: seq<Option<Output>>,
                                              p: Progress) {
    && |outputs| == |blocks| == p.blocks
    && forall b :: 0 <= b < |blocks| ==> outputs[b] == if Done(p, b) then Some(action(b, blocks[b])) else None
  }

  lemma NextInitIsTaken<Block>(status: seq<BlockStatus>, refs: seq<Task<Block>>, p: Progress)
    requires TasksMatch(status, refs, p)
    ensures NextInit(status) == if p.taken < p.blocks then Some(p.taken) else None
  {
    if p.taken < p.blocks {
      assert status[p.taken] == INIT;
    }
  }

  /** Replacing the finished task by the actor's next one. */
  lemma ReplaceTask<Block>(status: seq<BlockStatus>, refs: seq<Task<Block>>, p: Progress, i: nat, data: Block)
    requires TasksMatch(status, refs, p) && i < |refs| && p.taken < p.blocks
    ensures TasksMatch(status[p.taken := PREPARED], refs[i := Task(i, p.taken, data)], Complete(p, refs[i].block))
  {
    var q, refs' := Complete(p, refs[i].block), refs[i := Task(i, p.taken, data)];
    forall b | b in q.busy
      ensures b < q.taken && HasTask(refs', b)
    {
      if b == p.taken {
        assert refs'[i].block == b;
      } else {
        var k :| 0 <= k < |refs| && refs[k].block == b;
        assert refs'[k].block == b;
      }
    }
  }

  /** Dropping the finished task when no block is left. */
  lemma DropTask<Block>(status: seq<BlockStatus>, refs: seq<Task<Block>>, p: Progress, i: nat)
    requires TasksMatch(status, refs, p) && i < |refs| && p.taken == p.blocks
    ensures TasksMatch(status, refs[..i] + refs[i + 1..], Complete(p, refs[i].block))
  {
    var q, refs' := Complete(p, refs[i].block), refs[..i] + refs[i + 1..];
    assert forall k :: 0 <= k < |refs'| ==> refs'[k] == refs[if k < i then k else k + 1];
    forall b | b in q.busy
      ensures HasTask(refs', b)
    {
      DropKeepsTask(refs, i, b);
    }
  }

  lemma DropKeepsTask<Block>(refs: seq<Task<Block>>, i: nat, b: nat)
    requires i < |refs| && HasTask(refs, b) && refs[i].block != b
    ensures HasTask(refs[..i] + refs[i + 1..], b)
  {
    var k :| 0 <= k < |refs| && refs[k].block == b;
    assert (refs[..i] + refs[i + 1..])[if k < i then k else k - 1].block == b;
  }

  /** What the dispatcher still holds and what the running tasks work on are the input's own blocks. */
  ghost predicate DataMatch<Block>(blocks: seq<Block>, held: seq<Option<Block>>, refs: seq<Task<Block>>, taken: nat) {
    && |held| == |blocks|
    && (forall i :: taken <= i < |blocks| ==> held[i] == Some(blocks[i]))
    && (forall i :: 0 <= i < |refs| ==> refs[i].block < |blocks| && refs[i].data == blocks[refs[i].block])
  }

  method StartActors<Block>(dispatcher: BlockDispatchActor<Block>, ghost blocks: seq<Block>, actors: nat)
    returns (refs: seq<Task<Block>>)
    requires dispatcher.Valid() && actors <= |blocks| && DataMatch(blocks, dispatcher.dataBlocks, [], 0)
    requires forall i :: 0 <= i < |dispatcher.dataStatus| ==> dispatcher.dataStatus[i] == INIT
    modifies dispatcher
    ensures dispatcher.Valid()
    ensures TasksMatch(dispatcher.dataStatus, refs, Start(|blocks|, actors))
    ensures DataMatch(blocks, dispatcher.dataBlocks, refs, actors) && |refs| == actors
  {
    refs := [];
    for i := 0 to actors
      invariant dispatcher.Valid() && |dispatcher.dataStatus| == |blocks|
      invariant forall j :: 0 <= j < |dispatcher.dataStatus| ==> (dispatcher.dataStatus[j] == INIT <==> j >= i)
      invariant |refs| == i && forall k :: 0 <= k < i ==> refs[k].actor == refs[k].block == k
      invariant DataMatch(blocks, dispatcher.dataBlocks, refs, i)
    {
      assert dispatcher.dataStatus[i] == INIT;
      var next := dispatcher.GetNextUnprocessedDataAndUse();
      refs := refs + [Task(i, next.value.0, next.value.1)];
    }
    forall b | b in UpTo(actors)
      ensures HasTask(refs, b)
    {
      assert refs[b].block == b;
    }
  }

  lemma OutputStored<Block, Output>(blocks: seq<Block>, action: (nat, Block) -> Output, outputs: seq<Option<Output>>,
                                    p: Progress, b: nat)
    requires OutputsMatch(blocks, action, outputs, p) && b in p.busy && b < p.taken <= p.blocks
    ensures OutputsMatch(blocks, action, outputs[b := Some(action(b, blocks[b]))], Complete(p, b))
  {
    forall x: nat | x < |blocks|
      ensures Done(Complete(p, b), x) <==> x == b || Done(p, x)
    {
    }
  }

  /** One finished task: its actor gets the next block, or its slot leaves the list. */
  method Redispatch<Block>(dispatcher: BlockDispatchActor<Block>, ghost blocks: seq<Block>, refs: seq<Task<Block>>,
                           position: nat, ghost p: Progress)
    returns (refs': seq<Task<Block>>, taken: seq<nat>)
    requires dispatcher.Valid() && TasksMatch(dispatcher.dataStatus, refs, p) && position < |refs|
    requires DataMatch(blocks, dispatcher.dataBlocks, refs, p.taken)
    modifies dispatcher
    ensures dispatcher.Valid()
    ensures TasksMatch(dispatcher.dataStatus, refs', Complete(p, refs[position].block))
    ensures DataMatch(blocks, dispatcher.dataBlocks, refs', Complete(p, refs[position].block).taken)
    ensures taken == if p.taken < p.blocks then [p.taken] else []
    ensures |refs'| == if p.taken < p.blocks then |refs| else |refs| - 1
  {
    var ready := refs[position];
    var remaining := refs[..position] + refs[position + 1..];
    NextInitIsTaken(dispatcher.dataStatus, refs, p);
    ghost var status := dispatcher.dataStatus;
    var next := dispatcher.GetNextUnprocessedDataAndUse();
    if next.Some? {
      ReplaceTask(status, refs, p, position, next.value.1);
      taken := [next.value.0];
      refs' := refs[ready.actor := Task(ready.actor, next.value.0, next.value.1)];
    } else {
      DropTask(status, refs, p, position);
      taken := [];
      refs' := remaining;
    }
  }

  ghost predicate RunInv<Block, Output>(dispatcher: BlockDispatchActor<Block>, blocks: seq<Block>,
                                        action: (nat, Block) -> Output, refs: seq<Task<Block>>, outputs: seq<Option<Output>>,
                                        p: Progress)
    reads dispatcher
  {
    // One value, so that proving it is one obligation and not one per conjunct.
    var holds :=
      && dispatcher.Valid()
      && TasksMatch(dispatcher.dataStatus, refs, p)
      && DataMatch(blocks, dispatcher.dataBlocks, refs, p.taken)
      && OutputsMatch(blocks, action, outputs, p);
    holds
  }

  /** The empty slot of block `b` gets the output for that block, and no other slot changes. */
  ghost predicate StoredIn<Block, Output>(blocks: seq<Block>, action: (nat, Block) -> Output, outputs: seq<Option<Output>>,
                                          outputs': seq<Option<Output>>, b: nat) {
    b < |blocks| == |outputs| && outputs[b].None? && outputs' == outputs[b := Some(action(b, blocks[b]))]
  }

  /** A finished task's output goes into its block's slot before its actor gets new work. */
  method OnReady<Block, Output>(dispatcher: BlockDispatchActor<Block>, ghost blocks: seq<Block>, action: (nat, Block) -> Output,
                                refs: seq<Task<Block>>, outputs: seq<Option<Output>>, position: nat, ghost p: Progress)
    returns (refs': seq<Task<Block>>, outputs': seq<Option<Output>>, taken: seq<nat>)
    requires RunInv(dispatcher, blocks, action, refs, outputs, p) && position < |refs|
    modifies dispatcher
    ensures RunInv(dispatcher, blocks, action, refs', outputs', Complete(p, refs[position].block))
    ensures taken == if p.taken < p.blocks then [p.taken] else []
    ensures |refs'| == if p.taken < p.blocks then |refs| else |refs| - 1
    ensures StoredIn(blocks, action, outputs, outputs', refs[position].block)
  {
    var completed := refs[position];
    OutputStored(blocks, action, outputs, p, completed.block);
    outputs' := outputs[completed.block := Some(action(completed.block, completed.data))];
    refs', taken := Redispatch(dispatcher, blocks, refs, position, p);
  }

  /** An update that reaches the dispatcher concerns a taken block, so it makes no block INIT again. */
  method OnStatusUpdate<Block, Output>(dispatcher: BlockDispatchActor<Block>, ghost blocks: seq<Block>,
                                       ghost action: (nat, Block) -> Output, ghost refs: seq<Task<Block>>,
                                       ghost outputs: seq<Option<Output>>, update: (nat, BlockStatus), ghost p: Progress)
    requires RunInv(dispatcher, blocks, action, refs, outputs, p) && update.0 < p.taken && update.1 != INIT
    modifies dispatcher
    ensures RunInv(dispatcher, blocks, action, refs, outputs, p)
    ensures dispatcher.dataStatus == old(dispatcher.dataStatus)[update.0 := update.1]
  {
    var _ := dispatcher.ChangeDataStatus(update.0, update.1);
  }

  /** The updates an actor sends when it begins with these blocks. */
  function Begun(blocks: seq<nat>): (r: seq<(nat, BlockStatus)>)
    ensures |r| == |blocks| && forall i :: 0 <= i < |blocks| ==> r[i] == (blocks[i], PROCESSING)
  {
    seq(|blocks|, i requires 0 <= i < |blocks| => (blocks[i], PROCESSING))
  }

  ghost predicate UpdatesMatch(updates: seq<(nat, BlockStatus)>, p: Progress) {
    forall i :: 0 <= i < |updates| ==> updates[i].0 < p.taken && updates[i].1 != INIT
  }

  /** Blocks are dispatched once each, in order. */
  ghost predicate InOrder(dispatched: seq<nat>, p: Progress) {
    p.taken == |dispatched| && forall i :: 0 <= i < |dispatched| ==> dispatched[i] == i
  }

  /** The invariant of the run loop. */
  ghost predicate LoopInv<Block, Output>(dispatcher: BlockDispatchActor<Block>, blocks: seq<Block>,
                                         action: (nat, Block) -> Output, refs: seq<Task<Block>>,
                                         outputs: seq<Option<Output>>, updates: seq<(nat, BlockStatus)>,
                                         dispatched: seq<nat>, p: Progress)
    reads dispatcher
  {
    // One value, so that proving it is one obligation and not one per conjunct.
    var holds := RunInv(dispatcher, blocks, action, refs, outputs, p) && UpdatesMatch(updates, p) && InOrder(dispatched, p);
    holds
  }

  method FinishTask<Block, Output>(dispatcher: BlockDispatchActor<Block>, ghost blocks: seq<Block>,
                                     action: (nat, Block) -> Output, refs: seq<Task<Block>>,
                                     outputs: seq<Option<Output>>, updates: seq<(nat, BlockStatus)>,
                                     dispatched: seq<nat>, position: nat, ghost p: Progress)
    returns (refs': seq<Task<Block>>, outputs': seq<Option<Output>>, updates': seq<(nat, BlockStatus)>,
             dispatched': seq<nat>)
    requires LoopInv(dispatcher, blocks, action, refs, outputs, updates, dispatched, p) && position < |refs|
    modifies dispatcher
    ensures LoopInv(dispatcher, blocks, action, refs', outputs', updates', dispatched', Complete(p, refs[position].block))
    ensures |refs'| == if p.taken < p.blocks then |refs| else |refs| - 1
    ensures StoredIn(blocks, action, outputs, outputs', refs[position].block)
    ensures dispatched' == dispatched + if p.taken < p.blocks then [p.taken] else []
    ensures updates' == updates + [(refs[position].block, PROCESSED)]
                        + if p.taken < p.blocks then [(p.taken, PROCESSING)] else []
  {
    var taken;
    assert refs[position].block in p.busy;
    refs', outputs', taken := OnReady(dispatcher, blocks, action, refs, outputs, position, p);
    updates' := updates + [(refs[position].block, PROCESSED)] + Begun(taken);
    dispatched' := dispatched + taken;
  }

  lemma LoopExits<Block, Output>(dispatcher: BlockDispatchActor<Block>, blocks: seq<Block>,
                                 action: (nat, Block) -> Output, refs: seq<Task<Block>>, outputs: seq<Option<Output>>,
                                 p: Progress)
    requires RunInv(dispatcher, blocks, action, refs, outputs, p)
    ensures refs != [] <==> p.busy != {}
    ensures refs == [] && p.actors > 0 ==> AllDone(p)
  {
    if refs != [] {
      assert refs[0].block in p.busy;
    } else {
      assert forall b :: b in p.busy ==> HasTask(refs, b);
    }
  }

  /** What the events alone tell: how many tasks finished, and whether one raised an error first. */
  datatype Tally = Tally(finished: nat, raised: bool)

  /** While tasks are left, as many run as there are actors, or all that are left; a position beyond them is none. */
  function Count(t: Tally, e: Event, blocks: nat, maxActors: nat): (t': Tally)
    requires t.finished <= blocks
    ensures t'.finished <= blocks
  {
    var running := if blocks - t.finished < maxActors then blocks - t.finished else maxActors;
    match e
    case Ready(position) => if !t.raised && position < running then t.(finished := t.finished + 1) else t
    case Raised(position) => t.(raised := t.raised || position < running)
    case _ => t
  }

  function TallyOf(events: seq<Event>, blocks: nat, maxActors: nat): (t: Tally)
    ensures t.finished <= blocks
  {
    if events == [] then Tally(0, false)
    else Count(TallyOf(events[..|events| - 1], blocks, maxActors), events[|events| - 1], blocks, maxActors)
  }

  /** After an error, or after the last task, the events make no difference. */
  lemma {:induction false} TallyStays(events: seq<Event>, k: nat, blocks: nat, maxActors: nat)
    requires k <= |events|
    requires var t := TallyOf(events[..k], blocks, maxActors); t.raised || t.finished == blocks || maxActors == 0
    ensures TallyOf(events, blocks, maxActors) == TallyOf(events[..k], blocks, maxActors)
    decreases |events|
  {
    if k < |events| {
      var front := events[..|events| - 1];
      assert front[..k] == events[..k];
      TallyStays(front, k, blocks, maxActors);
    } else {
      assert events[..k] == events;
    }
  }

  /** In particular the run is over once every task in turn has finished, whatever the number of actors. */
  lemma {:induction false} EveryTaskFinishes(n: nat, blocks: nat, maxActors: nat)
    requires n <= blocks && maxActors > 0
    ensures TallyOf(seq(n, _ => Ready(0)), blocks, maxActors) == Tally(n, false)
  {
    if n > 0 {
      var events := seq(n, _ => Ready(0));
      assert events[..n - 1] == seq(n - 1, _ => Ready(0));
      EveryTaskFinishes(n - 1, blocks, maxActors);
    }
  }

  /** How many slots have an output. */
  function Filled<Output>(outputs: seq<Option<Output>>): nat {
    if outputs == [] then 0
    else Filled(outputs[..|outputs| - 1]) + if outputs[|outputs| - 1].Some? then 1 else 0
  }

  lemma {:induction false} FilledOneMore<Output>(outputs: seq<Option<Output>>, b: nat, x: Output)
    requires b < |outputs| && outputs[b].None?
    ensures Filled(outputs[b := Some(x)]) == Filled(outputs) + 1
  {
    var last := |outputs| - 1;
    var more := outputs[b := Some(x)];
    if b < last {
      assert more[..last] == outputs[..last][b := Some(x)];
      FilledOneMore(outputs[..last], b, x);
    } else {
      assert more[..last] == outputs[..last];
    }
  }

  lemma {:induction false} NoneFilled<Output>(outputs: seq<Option<Output>>)
    requires forall b :: 0 <= b < |outputs| ==> outputs[b].None?
    ensures Filled(outputs) == 0
  {
    if outputs != [] {
      NoneFilled(outputs[..|outputs| - 1]);
    }
  }

  /** The run so far against the events so far. */
  ghost predicate OnTrack<Output>(outputs: seq<Option<Output>>, running: nat, taken: nat, t: Tally, blocks: nat,
                                  maxActors: nat) {
    // One value, so that proving it is one obligation and not one per conjunct.
    var holds :=
      && t.finished <= blocks == |outputs| && !t.raised && Filled(outputs) == t.finished
      && taken == Min(blocks, Min(maxActors, blocks) + t.finished) && running == taken - t.finished;
    holds
  }

  /** Every actor starts with a block. */
  method StartRun<Block, Output>(dispatcher: BlockDispatchActor<Block>, blocks: seq<Block>, maxActors: nat,
                                 ghost action: (nat, Block) -> Output)
    returns (refs: seq<Task<Block>>, outputs: seq<Option<Output>>, updates: seq<(nat, BlockStatus)>,
             dispatched: seq<nat>, ghost p: Progress)
    requires dispatcher.Valid() && DataMatch(blocks, dispatcher.dataBlocks, [], 0)
    requires forall i :: 0 <= i < |dispatcher.dataStatus| ==> dispatcher.dataStatus[i] == INIT
    modifies dispatcher
    ensures LoopInv(dispatcher, blocks, action, refs, outputs, updates, dispatched, p)
    ensures OnTrack(outputs, |refs|, p.taken, Tally(0, false), |blocks|, maxActors)
    ensures p.actors == |refs| == Min(maxActors, |blocks|)
  {
    var actors := Min(maxActors, |blocks|);
    outputs := seq(|blocks|, _ => None);
    refs := StartActors(dispatcher, blocks, actors);
    p := Start(|blocks|, actors);
    dispatched := seq(actors, i => i);
    updates := Begun(dispatched);
    assert OutputsMatch(blocks, action, outputs, p);
    NoneFilled(outputs);
  }

  /** One event while tasks are running. */
  method OnEvent<Block, Output>(dispatcher: BlockDispatchActor<Block>, ghost blocks: seq<Block>,
                                action: (nat, Block) -> Output, refs: seq<Task<Block>>, outputs: seq<Option<Output>>,
                                updates: seq<(nat, BlockStatus)>, dispatched: seq<nat>, e: Event,
                                ghost p: Progress, ghost t: Tally, ghost maxActors: nat)
    returns (refs': seq<Task<Block>>, outputs': seq<Option<Output>>, updates': seq<(nat, BlockStatus)>,
             dispatched': seq<nat>, raised: bool, ghost p': Progress)
    requires LoopInv(dispatcher, blocks, action, refs, outputs, updates, dispatched, p)
    requires OnTrack(outputs, |refs|, p.taken, t, |blocks|, maxActors)
    modifies dispatcher
    ensures LoopInv(dispatcher, blocks, action, refs', outputs', updates', dispatched', p') && p'.actors == p.actors
    ensures OnTrack(outputs', |refs'|, p'.taken, Count(t, e, |blocks|, maxActors).(raised := false), |blocks|, maxActors)
    ensures raised <==> Count(t, e, |blocks|, maxActors).raised
    ensures raised ==> refs' == refs
    ensures e.StatusUpdate? ==>
      dispatcher.dataStatus == if e.position < |updates|
                               then old(dispatcher.dataStatus)[updates[e.position].0 := updates[e.position].1]
                               else old(dispatcher.dataStatus)
  {
    refs', outputs', updates', dispatched', raised, p' := refs, outputs, updates, dispatched, false, p;
    match e {
      case Timeout =>
      case StatusUpdate(position) =>
        if position < |updates| {
          OnStatusUpdate(dispatcher, blocks, action, refs, outputs, updates[position], p);
        }
      case Raised(position) =>
        raised := position < |refs|;
      case Ready(position) =>
        if position < |refs| {
          ghost var completed := refs[position].block;
          refs', outputs', updates', dispatched' :=
            FinishTask(dispatcher, blocks, action, refs, outputs, updates, dispatched, position, p);
          p' := Complete(p, completed);
          FilledOneMore(outputs, completed, action(completed, blocks[completed]));
        }
    }
  }

  /** The run loop, for the events the runtime brings. `action` is what an actor makes of a block. An actor sends one
      update of the block's status when it begins and one when it ends; they travel apart from its result and may
      arrive at any later time, or never. */
  method RunApp<Block, Output>(blocks: seq<Block>, maxActors: nat, action: (nat, Block) -> Output, events: seq<Event>)
    returns (outcome: Outcome, outputs: seq<Option<Output>>, dispatched: seq<nat>, ghost p: Progress)
    ensures var t := TallyOf(events, |blocks|, maxActors);
            && Filled(outputs) == t.finished
            && (outcome == NothingToWaitFor <==> blocks == [] || maxActors == 0)
            && (outcome == Completed <==> blocks != [] && maxActors > 0 && t.finished == |blocks|)
            && (outcome == TaskRaised <==> t.raised)
    ensures |outputs| == |blocks|
    ensures forall b :: 0 <= b < |blocks| && outputs[b].Some? ==> outputs[b] == Some(action(b, blocks[b]))
    ensures InOrder(dispatched, p) && OutputsMatch(blocks, action, outputs, p)
    ensures outcome == Completed ==> AllDone(p)
    ensures outcome == StillRunning || outcome == TaskRaised ==> p.busy != {}
  {
    var dispatcher := new BlockDispatchActor(blocks);
    var refs, updates;
    refs, outputs, updates, dispatched, p := StartRun(dispatcher, blocks, maxActors, action);
    if refs == [] {
      TallyStays(events, 0, |blocks|, maxActors);
      return NothingToWaitFor, outputs, dispatched, p;
    }
    for e := 0 to |events|
      invariant LoopInv(dispatcher, blocks, action, refs, outputs, updates, dispatched, p)
      invariant refs != [] && p.actors > 0
      invariant OnTrack(outputs, |refs|, p.taken, TallyOf(events[..e], |blocks|, maxActors), |blocks|, maxActors)
    {
      assert events[..e + 1][..e] == events[..e] && events[..e + 1][e] == events[e];
      ghost var t := TallyOf(events[..e], |blocks|, maxActors);
      var raised;
      refs, outputs, updates, dispatched, raised, p :=
        OnEvent(dispatcher, blocks, action, refs, outputs, updates, dispatched, events[e], p, t, maxActors);
      if raised || refs == [] {
        TallyStays(events, e + 1, |blocks|, maxActors);
        LoopExits(dispatcher, blocks, action, refs, outputs, p);
        return if raised then TaskRaised else Completed, outputs, dispatched, p;
      }
    }
    assert events[..|events|] == events;
    LoopExits(dispatcher, blocks, action, refs, outputs, p);
    outcome := StillRunning;
  }

  // ----- Two parties -----

  /** Two parties whose sessions are paired by block number. A block can complete at a party once both have
      taken it, because its session needs both ends. */
  predicate CanComplete(ps: seq<Progress>, i: nat, b: nat)
    requires |ps| == 2 && i < 2
  {
    b in ps[i].busy && b < ps[1 - i].taken
  }

  function Next(ps: seq<Progress>, i: nat, b: nat): (r: seq<Progress>)
    requires |ps| == 2 && i < 2
    ensures |r| == 2
  {
    ps[i := Complete(ps[i], b)]
  }

  ghost predicate ProgressInv(p: Progress) {
    && p.taken <= p.blocks
    && (forall b :: b in p.busy ==> b < p.taken)
    && (p.taken < p.blocks ==> p.busy != {})
  }

  ghost predicate PairInv(ps: seq<Progress>) {
    && |ps| == 2 && ProgressInv(ps[0]) && ProgressInv(ps[1])
    && (forall b: nat :: Done(ps[0], b) ==> b < ps[1].taken)
    && (forall b: nat :: Done(ps[1], b) ==> b < ps[0].taken)
  }

  ghost predicate IsRun(ps: seq<Progress>, steps: seq<(nat, nat)>, qs: seq<Progress>)
    requires |ps| == 2
    decreases |steps|
  {
    if steps == [] then ps == qs
    else
      var (i, b) := steps[0];
      i < 2 && CanComplete(ps, i, b) && IsRun(Next(ps, i, b), steps[1..], qs)
  }

  ghost predicate Reachable(starts: seq<Progress>, ps: seq<Progress>)
    requires |starts| == 2
  {
    exists steps :: IsRun(starts, steps, ps)
  }

  /** Two parties with at least one actor each; block counts and actor counts may differ. */
  function StartPair(blocks0: nat, actors0: nat, blocks1: nat, actors1: nat): (r: seq<Progress>)
    ensures |r| == 2
  {
    [Start(blocks0, actors0), Start(blocks1, actors1)]
  }

  lemma StepKeepsPair(ps: seq<Progress>, i: nat, b: nat)
    requires PairInv(ps) && i < 2 && CanComplete(ps, i, b)
    ensures PairInv(Next(ps, i, b))
  {
    var p, q := ps[i], Complete(ps[i], b);
    if p.taken < p.blocks {
      assert p.taken in q.busy;
    }
    forall x: nat | Done(q, x)
      ensures x < ps[1 - i].taken
    {
      assert x == b || Done(p, x);
    }
  }

  lemma {:induction false} RunKeepsPair(ps: seq<Progress>, steps: seq<(nat, nat)>, qs: seq<Progress>)
    requires PairInv(ps) && IsRun(ps, steps, qs)
    ensures PairInv(qs) && qs[0].blocks == ps[0].blocks && qs[1].blocks == ps[1].blocks
    decreases |steps|
  {
    if steps != [] {
      var (i, b) := steps[0];
      StepKeepsPair(ps, i, b);
      RunKeepsPair(Next(ps, i, b), steps[1..], qs);
    }
  }

  lemma ReachablePair(blocks0: nat, actors0: nat, blocks1: nat, actors1: nat, ps: seq<Progress>)
    requires actors0 >= 1 && actors1 >= 1
    requires Reachable(StartPair(blocks0, actors0, blocks1, actors1), ps)
    ensures PairInv(ps) && ps[0].blocks == blocks0 && ps[1].blocks == blocks1
  {
    var starts := StartPair(blocks0, actors0, blocks1, actors1);
    var steps :| IsRun(starts, steps, ps);
    assert blocks0 > 0 ==> 0 in starts[0].busy;
    assert blocks1 > 0 ==> 0 in starts[1].busy;
    RunKeepsPair(starts, steps, ps);
  }

  /** The lowest block unfinished anywhere is running at every party that still needs it, and can complete there. */
  lemma LowestBlockRuns(ps: seq<Progress>, m: nat, i: nat)
    requires PairInv(ps) && ps[0].blocks == ps[1].blocks && i < 2
    requires m < ps[0].blocks && !Done(ps[i], m)
    requires forall b :: 0 <= b < m ==> Done(ps[0], b) && Done(ps[1], b)
    ensures m in ps[i].busy && CanComplete(ps, i, m)
  {
    Needed(ps[i], m);
    if !Done(ps[1 - i], m) {
      Needed(ps[1 - i], m);
    }
  }

  lemma Needed(p: Progress, m: nat)
    requires ProgressInv(p) && m < p.blocks && !Done(p, m) && forall b :: 0 <= b < m ==> Done(p, b)
    ensures m in p.busy
  {
    if p.taken < p.blocks {
      var b :| b in p.busy;
      assert !Done(p, b) && b < p.taken;
    }
  }

  function Unfinished(p: Progress): int {
    p.blocks - p.taken + |p.busy|
  }

  /** Different actor counts never block: with equal block counts, unless both parties are done, some block completes. */
  lemma NeverBlocked(blocks: nat, actors0: nat, actors1: nat, ps: seq<Progress>)
    requires actors0 >= 1 && actors1 >= 1 && Reachable(StartPair(blocks, actors0, blocks, actors1), ps)
    ensures |ps| == 2
    ensures (AllDone(ps[0]) && AllDone(ps[1])) || exists i, b :: 0 <= i < 2 && CanComplete(ps, i, b)
  {
    ReachablePair(blocks, actors0, blocks, actors1, ps);
    if !(AllDone(ps[0]) && AllDone(ps[1])) {
      var i := if AllDone(ps[0]) then 1 else 0;
      var m := SomeUnfinished(ps[i]);
      m, i := LowestUnfinished(ps, 0, m, i);
      LowestBlockRuns(ps, m, i);
    }
  }

  lemma SomeUnfinished(p: Progress) returns (m: nat)
    requires ProgressInv(p) && !AllDone(p)
    ensures m < p.blocks && !Done(p, m)
  {
    if p.taken < p.blocks {
      m := p.taken;
    } else {
      m :| m in p.busy;
    }
  }

  lemma LowestUnfinished(ps: seq<Progress>, from: nat, limit: nat, at: nat) returns (m: nat, i: nat)
    requires |ps| == 2 && at < 2 && from <= limit < ps[0].blocks && !Done(ps[at], limit)
    requires forall b :: 0 <= b < from ==> Done(ps[0], b) && Done(ps[1], b)
    ensures m < ps[0].blocks && i < 2 && !Done(ps[i], m)
    ensures forall b :: 0 <= b < m ==> Done(ps[0], b) && Done(ps[1], b)
    decreases limit - from
  {
    if !Done(ps[0], from) {
      m, i := from, 0;
    } else if !Done(ps[1], from) {
      m, i := from, 1;
    } else {
      m, i := LowestUnfinished(ps, from + 1, limit, at);
    }
  }

  /** Each completion leaves one block fewer, so every run is finite. */
  lemma CompletionLowersWork(ps: seq<Progress>, i: nat, b: nat)
    requires PairInv(ps) && i < 2 && CanComplete(ps, i, b)
    ensures Unfinished(Next(ps, i, b)[i]) == Unfinished(ps[i]) - 1 >= 0
    ensures Next(ps, i, b)[1 - i] == ps[1 - i]
  {
    var p := ps[i];
    assert p.taken !in p.busy;
    assert |p.busy - {b}| == |p.busy| - 1;
  }

  /** Both parties finish only with equal block counts: otherwise the larger one waits for a peer that never comes. */
  lemma FinishNeedsEqualCounts(blocks0: nat, actors0: nat, blocks1: nat, actors1: nat, ps: seq<Progress>)
    requires actors0 >= 1 && actors1 >= 1
    requires Reachable(StartPair(blocks0, actors0, blocks1, actors1), ps)
    ensures |ps| == 2
    ensures AllDone(ps[0]) && AllDone(ps[1]) ==> blocks0 == blocks1
  {
    ReachablePair(blocks0, actors0, blocks1, actors1, ps);
    assert blocks0 > 0 && AllDone(ps[0]) ==> Done(ps[0], blocks0 - 1);
    assert blocks1 > 0 && AllDone(ps[1]) ==> Done(ps[1], blocks1 - 1);
  }
}

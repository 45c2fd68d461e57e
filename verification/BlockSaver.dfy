/** The leader's side: metas arrive into a buffer and a loop writes the matching blocks. */
module BlockSaver {
  import opened Wrappers
  import opened DataBlocks
  import opened BlockManager
  import opened BlockMaker
  import opened MetaBuffer

  /** `switch` marks a saving round that did not end normally; `looping` says whether a round is running. */
  datatype Saver = Saver(store: Store, buffer: seq<Meta>, next: nat, finished: bool, switch: bool, looping: bool)

  /** A saver on an empty directory. */
  const INITIAL_SAVER: Saver := Saver(Store(map[], map[], -1, None), [], 0, false, false, false)

  datatype Reply = NoMoreNeeded | Accepted(next: nat) | Refused(next: nat)

  function Append(s: Saver, m: Meta): (Saver, Reply) {
    if s.finished then (s, NoMoreNeeded)
    else if s.next != m.index then (s, Refused(s.next))
    else (s.(buffer := s.buffer + [m], next := s.next + 1), Accepted(s.next + 1))
  }

  /** Drops the leading metas whose blocks are already produced. */
  function DropProduced(buffer: seq<Meta>, produced: int): seq<Meta> {
    if buffer == [] || buffer[0].index >= produced then buffer else DropProduced(buffer[1..], produced)
  }

  /** A saving round starts; after a round that did not end normally it first brings index and buffer up to date. */
  function Begin(s: Saver): Saver {
    var t := if s.switch then s.(store := Sync(s.store), buffer := DropProduced(s.buffer, Sync(s.store).saved + 1)) else s;
    t.(switch := true, looping := true)
  }

  function End(s: Saver): Saver {
    s.(switch := false, looping := false)
  }

  /** A new process on the same directory. */
  function Crash(s: Saver): Saver {
    var store := Restart(s.store);
    Saver(store, [], store.saved + 1, false, false, false)
  }

  /** One pass of the save loop: the maker cannot be built, its file cannot be written, or the finalizer is reached. */
  datatype Trial = BuildFails | WriteFails | Tries(f: Faults)

  const FAULTLESS: Trial := Tries(NO_FAULTS)

  /** Saving the head of the buffer. Whatever is raised leaves the round: the handler around the maker passes the
      error's text to `print_exc` where a number belongs, and so raises an error of its own. */
  function Attempt(s: Saver, items: Items, t: Trial): Saver
    requires s.buffer != []
  {
    if !t.Tries? then s.(looping := false)
    else
      var m := s.buffer[0];
      var ids := Present(m.exampleIds, items);
      var (store, r) := Finalize(s.store, m, |ids|, Records(ids, items), t.f);
      if r == Finished then s.(store := store, buffer := s.buffer[1..]) else s.(store := store, looping := false)
  }

  /** What the file system does in the next pass; nothing goes wrong beyond the given passes. */
  function NextTrial(trials: seq<Trial>): Trial {
    if trials == [] then FAULTLESS else trials[0]
  }

  function Rest(trials: seq<Trial>): seq<Trial> {
    if trials == [] then [] else trials[1..]
  }

  /** The passes of one round. */
  function Attempts(s: Saver, items: Items, trials: seq<Trial>): Saver
    decreases |s.buffer|, s.looping
  {
    if s.buffer == [] || !s.looping then s
    else Attempts(Attempt(s, items, NextTrial(trials)), items, Rest(trials))
  }

  /** A whole round. */
  function Round(s: Saver, items: Items, trials: seq<Trial>): Saver {
    var u := Attempts(Begin(s), items, trials);
    if u.looping then End(u) else u
  }

  // ----- What holds of the saver against the metas its peer produced -----

  ghost predicate StoredFrom(store: Store, produced: seq<Meta>, items: Items) {
    forall k :: k in store.metas ==>
      && 0 <= k < |produced| && store.metas[k] == produced[k]
      && AllIn(produced[k].exampleIds, items)
      && k in store.blocks && store.blocks[k] == Records(produced[k].exampleIds, items)
  }

  /** The producer numbers its metas by position, and every one has ids, all of them this party's. */
  ghost predicate Produced(produced: seq<Meta>, items: Items) {
    forall k :: 0 <= k < |produced| ==>
      produced[k].index == k && produced[k].exampleIds != [] && AllIn(produced[k].exampleIds, items)
  }

  /** The buffer starts right after the last stored block, and no block is half saved. */
  predicate Clean(s: Saver) {
    s.store.saving.None? && s.next - |s.buffer| == s.store.saved + 1
  }

  /** After a failure the head of the buffer may be half saved, or saved without having been removed. */
  predicate HeadPending(s: Saver) {
    && s.buffer != []
    && if s.store.saving.Some? then s.next - |s.buffer| == s.store.saved + 1 else s.next - |s.buffer| == s.store.saved
  }

  /** The stored blocks, and the data file of a half saved one, match what the producer has. */
  ghost predicate StoreMatches(store: Store, produced: seq<Meta>, items: Items) {
    // One value, so that proving it is one obligation and not one per conjunct.
    var holds :=
      && StoreInv(store) && Produced(produced, items) && StoredFrom(store, produced, items)
      && (store.saving.Some? ==>
            var k := store.saving.value;
            k < |produced| && k in store.blocks && store.blocks[k] == Records(produced[k].exampleIds, items));
    holds
  }

  /** The buffer is a contiguous run of produced metas that starts at, or one before, the next block to store. */
  ghost predicate BufferMatches(s: Saver, produced: seq<Meta>) {
    // One value, so that proving it is one obligation and not one per conjunct.
    var holds :=
      && |s.buffer| <= s.next <= |produced|
      && s.buffer == produced[s.next - |s.buffer|..s.next]
      && (Clean(s) || HeadPending(s))
      && (!s.switch || s.looping ==> Clean(s))
      && (s.looping ==> s.switch);
    holds
  }

  ghost predicate SaverInv(s: Saver, produced: seq<Meta>, items: Items) {
    StoreMatches(s.store, produced, items) && BufferMatches(s, produced)
  }

  lemma InitialSaverInv(items: Items)
    ensures SaverInv(INITIAL_SAVER, [], items)
  {
    assert StoreMatches(INITIAL_SAVER.store, [], items);
  }

  lemma AppendKeepsInv(s: Saver, produced: seq<Meta>, items: Items, k: nat)
    requires SaverInv(s, produced, items) && k < |produced|
    ensures SaverInv(Append(s, produced[k]).0, produced, items)
    ensures Append(s, produced[k]).1.Accepted? <==> !s.finished && k == s.next
  {
  }

  lemma {:induction false} DropProducedShape(produced: seq<Meta>, items: Items, from: nat, end: nat, saved: int)
    requires Produced(produced, items) && from <= end <= |produced| && -1 <= saved
    ensures saved + 1 <= from ==> DropProduced(produced[from..end], saved + 1) == produced[from..end]
    ensures from <= saved + 1 <= end ==> DropProduced(produced[from..end], saved + 1) == produced[saved + 1..end]
    decreases end - from
  {
    var buffer := produced[from..end];
    if from < end && from <= saved {
      assert buffer[1..] == produced[from + 1..end];
      DropProducedShape(produced, items, from + 1, end, saved);
    }
  }

  lemma SyncKeepsStore(store: Store, produced: seq<Meta>, items: Items)
    requires StoreMatches(store, produced, items)
    ensures var t := Sync(store);
            StoreMatches(t, produced, items) && t.saving.None? && t.saved < |produced| && t.metas == store.metas
  {
    SyncMakesExact(store);
    var t := Sync(store);
    assert t.saved >= 0 ==> t.saved in t.metas;
  }

  /** Starting a round makes the buffer clean again, whatever went wrong in the round before. */
  lemma BeginCleans(s: Saver, produced: seq<Meta>, items: Items)
    requires SaverInv(s, produced, items)
    ensures SaverInv(Begin(s), produced, items) && Clean(Begin(s))
    ensures Begin(s).next == s.next
  {
    SyncKeepsStore(s.store, produced, items);
    if s.switch {
      DropProducedShape(produced, items, s.next - |s.buffer|, s.next, Sync(s.store).saved);
    }
  }

  lemma EndKeepsInv(s: Saver, produced: seq<Meta>, items: Items)
    requires SaverInv(s, produced, items) && s.buffer == []
    ensures SaverInv(End(s), produced, items)
  {
  }

  /** A restart keeps every stored block and asks for the first one missing. */
  lemma CrashKeepsInv(s: Saver, produced: seq<Meta>, items: Items)
    requires SaverInv(s, produced, items) && Sync(s.store).saved <= THRESHOLD
    ensures SaverInv(Crash(s), produced, items) && Clean(Crash(s))
    ensures Crash(s).store.metas == s.store.metas && Crash(s).next <= s.next
  {
    SyncKeepsStore(s.store, produced, items);
    RestartIsExact(s.store);
  }

  lemma DrainedCrash(s: Saver, produced: seq<Meta>, items: Items)
    requires SaverInv(s, produced, items) && s.buffer == [] && |produced| - 1 <= THRESHOLD
    ensures Sync(s.store).saved <= THRESHOLD && Crash(s).next == s.next
  {
    assert Clean(s) && Sync(s.store) == s.store;
    RestartIsExact(s.store);
  }

  lemma EmptyDiskStartsOver(s: Saver, produced: seq<Meta>, items: Items)
    requires SaverInv(s, produced, items) && s.store.metas == map[]
    ensures Sync(s.store).saved <= THRESHOLD && Crash(s).next == 0
  {
    EmptyRestart(s.store);
  }

  lemma HeadIs(s: Saver, produced: seq<Meta>, items: Items)
    requires SaverInv(s, produced, items) && s.buffer != []
    ensures var m := s.buffer[0];
            && m.index == s.next - |s.buffer| && m == produced[m.index]
            && Present(m.exampleIds, items) == m.exampleIds
    ensures s.buffer[1..] == produced[s.next - |s.buffer| + 1..s.next]
  {
    PresentIsAll(s.buffer[0].exampleIds, items);
  }

  /** The finalizer's count assertion holds for every meta that is ever saved. */
  lemma CountAssertionHolds(s: Saver, produced: seq<Meta>, items: Items, f: Faults)
    requires SaverInv(s, produced, items) && s.buffer != []
    ensures var m := s.buffer[0];
            var ids := Present(m.exampleIds, items);
            var (_, r) := Finalize(s.store, m, |ids|, Records(ids, items), f);
            !r.CountMismatch? && !r.NoBlock?
  {
    HeadIs(s, produced, items);
  }

  lemma BlockWritten(store: Store, produced: seq<Meta>, items: Items, k: nat)
    requires StoredFrom(store, produced, items) && Produced(produced, items) && k < |produced|
    ensures StoredFrom(store.(blocks := store.blocks[k := Records(produced[k].exampleIds, items)]), produced, items)
  {
  }

  lemma MetaWritten(store: Store, produced: seq<Meta>, items: Items, k: nat)
    requires StoredFrom(store, produced, items) && Produced(produced, items) && k < |produced|
    requires k in store.blocks && store.blocks[k] == Records(produced[k].exampleIds, items)
    ensures StoredFrom(store.(metas := store.metas[k := produced[k]]), produced, items)
  {
  }

  /** What a finalizer leaves on disk still matches what was produced. */
  lemma FinalizeKeepsStored(store: Store, produced: seq<Meta>, items: Items, k: nat, f: Faults)
    requires StoredFrom(store, produced, items) && Produced(produced, items) && k < |produced|
    ensures var m := produced[k];
            StoredFrom(Finalize(store, m, |m.exampleIds|, Records(m.exampleIds, items), f).0, produced, items)
  {
    var t := store.(blocks := store.blocks[k := Records(produced[k].exampleIds, items)]);
    BlockWritten(store, produced, items, k);
    MetaWritten(t, produced, items, k);
  }

  lemma FinalizeKeepsStore(store: Store, produced: seq<Meta>, items: Items, k: nat, f: Faults)
    requires StoreMatches(store, produced, items) && k < |produced|
    ensures var m := produced[k];
            var (t, r) := Finalize(store, m, |m.exampleIds|, Records(m.exampleIds, items), f);
            && StoreMatches(t, produced, items)
            && (r == Finished ==> t.saved == store.saved + 1 == k && t.saving.None?)
            && (r != Finished ==>
                  || (t.saved == store.saved && t.saving == store.saving)
                  || (t.saved == store.saved == k - 1 && t.saving.Some?)
                  || (t.saved == store.saved + 1 == k && t.saving.None?))
  {
    var m := produced[k];
    FinalizeStores(store, m, |m.exampleIds|, Records(m.exampleIds, items), f);
    FinalizeKeepsStored(store, produced, items, k, f);
  }

  lemma AttemptKeepsInv(s: Saver, produced: seq<Meta>, items: Items, t: Trial)
    requires SaverInv(s, produced, items) && s.buffer != [] && s.looping
    ensures SaverInv(Attempt(s, items, t), produced, items)
  {
    if t.Tries? {
      var m := s.buffer[0];
      HeadIs(s, produced, items);
      FinalizeKeepsStore(s.store, produced, items, m.index, t.f);
    }
  }

  /** Without new faults the head is saved and removed if and only if the buffer is clean. */
  lemma SavesIffClean(s: Saver, produced: seq<Meta>, items: Items)
    requires SaverInv(s, produced, items) && s.buffer != []
    ensures var u := Attempt(s, items, FAULTLESS);
            && (Clean(s) ==>
                  u.buffer == s.buffer[1..] && Clean(u) && u.store.saved == s.store.saved + 1 && u.looping == s.looping)
            && (!Clean(s) ==> u == s.(looping := false))
  {
    var m := s.buffer[0];
    HeadIs(s, produced, items);
    FinalizeStores(s.store, m, |m.exampleIds|, Records(m.exampleIds, items), NO_FAULTS);
    if !Clean(s) && s.store.saving.None? {
      assert m.index == s.store.saved && m.index in s.store.metas;
    }
    if !Clean(s) {
      assert s.store.blocks[m.index := Records(m.exampleIds, items)] == s.store.blocks;
    }
  }

  /** What leaves a clean buffer behind unclean: the meta's rename fails once the data file is in place, or
      everything is in place and the report fails. */
  predicate Spoils(t: Trial) {
    && t.Tries? && t.f.data == Renamed
    && (t.f.meta == Failed || t.f.meta == FailedInPlace || (t.f.meta == Renamed && t.f.reportFails))
  }

  lemma UncleanIffSpoiled(s: Saver, produced: seq<Meta>, items: Items, t: Trial)
    requires SaverInv(s, produced, items) && s.buffer != [] && Clean(s)
    ensures !Clean(Attempt(s, items, t)) <==> Spoils(t)
    ensures Attempt(s, items, t).buffer != s.buffer <==> t == FAULTLESS
  {
    if t.Tries? {
      var m := s.buffer[0];
      HeadIs(s, produced, items);
      FinalizeStores(s.store, m, |m.exampleIds|, Records(m.exampleIds, items), t.f);
    }
  }

  /** Any fault ends the round with its head still buffered and the switch still set; only a faultless pass goes on. */
  lemma FaultEndsRound(s: Saver, produced: seq<Meta>, items: Items, t: Trial)
    requires SaverInv(s, produced, items) && s.buffer != [] && s.looping
    ensures var u := Attempt(s, items, t);
            && u.switch && u.next == s.next
            && (u.looping <==> t == FAULTLESS)
            && u.buffer == if t == FAULTLESS then s.buffer[1..] else s.buffer
  {
    if t.Tries? {
      var m := s.buffer[0];
      HeadIs(s, produced, items);
      FinalizeStores(s.store, m, |m.exampleIds|, Records(m.exampleIds, items), t.f);
    }
  }

  /** How many passes go well before the first fault. */
  function GoodPasses(trials: seq<Trial>, most: nat): nat {
    if most == 0 || NextTrial(trials) != FAULTLESS then 0 else 1 + GoodPasses(Rest(trials), most - 1)
  }

  lemma DropMore(buffer: seq<Meta>, n: nat)
    requires n < |buffer|
    ensures buffer[1..][n..] == buffer[n + 1..]
  {
  }

  /** A round saves the buffered blocks up to the first fault, in order, and no more. */
  lemma {:induction false} PassesStopAtFault(s: Saver, produced: seq<Meta>, items: Items, trials: seq<Trial>)
    requires SaverInv(s, produced, items) && s.looping
    ensures var u, good := Attempts(s, items, trials), GoodPasses(trials, |s.buffer|);
            && SaverInv(u, produced, items) && u.switch && u.next == s.next
            && good <= |s.buffer| && u.buffer == s.buffer[good..] && (u.looping <==> u.buffer == [])
    decreases |s.buffer|
  {
    if s.buffer != [] {
      var u := Attempt(s, items, NextTrial(trials));
      FaultEndsRound(s, produced, items, NextTrial(trials));
      AttemptKeepsInv(s, produced, items, NextTrial(trials));
      if u.looping {
        PassesStopAtFault(u, produced, items, Rest(trials));
        DropMore(s.buffer, GoodPasses(Rest(trials), |u.buffer|));
      }
    }
  }

  /** Without faults a round started on a clean buffer stores every buffered block. */
  lemma {:induction false} CleanRoundDrains(s: Saver, produced: seq<Meta>, items: Items)
    requires SaverInv(s, produced, items) && Clean(s) && s.looping
    ensures var u := Attempts(s, items, []);
            && u.buffer == [] && u.looping && u.next == s.next && u.store.saved == s.next - 1
            && SaverInv(u, produced, items)
    decreases |s.buffer|
  {
    if s.buffer != [] {
      SavesIffClean(s, produced, items);
      AttemptKeepsInv(s, produced, items, FAULTLESS);
      CleanRoundDrains(Attempt(s, items, FAULTLESS), produced, items);
    }
  }

  /** Whatever goes wrong in a round, from whatever state: it ends with the switch set if a buffered block is left, and
      the next round, if nothing goes wrong in that one, stores every block up to `next`. */
  lemma NextRoundRecovers(s: Saver, produced: seq<Meta>, items: Items, trials: seq<Trial>)
    requires SaverInv(s, produced, items) && !s.looping
    ensures var u := Round(s, items, trials);
            && SaverInv(u, produced, items) && !u.looping && u.next == s.next && (u.switch <==> u.buffer != [])
            && var v := Round(u, items, []);
               && SaverInv(v, produced, items) && !v.looping && !v.switch && Clean(v) && v.buffer == []
               && forall k :: 0 <= k < s.next ==> k in v.store.metas && v.store.metas[k] == produced[k]
  {
    RoundKeepsInv(s, produced, items, trials);
    var u := Round(s, items, trials);
    BeginCleans(u, produced, items);
    CleanRoundDrains(Begin(u), produced, items);
    var v := Attempts(Begin(u), items, []);
    EndKeepsInv(v, produced, items);
    assert StoreInv(v.store) && v.store.saved == s.next - 1;
  }

  lemma RoundKeepsInv(s: Saver, produced: seq<Meta>, items: Items, trials: seq<Trial>)
    requires SaverInv(s, produced, items) && !s.looping
    ensures var u := Round(s, items, trials);
            SaverInv(u, produced, items) && !u.looping && u.next == s.next && (u.switch <==> u.buffer != [])
  {
    BeginCleans(s, produced, items);
    PassesStopAtFault(Begin(s), produced, items, trials);
    var u := Attempts(Begin(s), items, trials);
    if u.looping {
      EndKeepsInv(u, produced, items);
    }
  }

  // ----- The saver object -----

  class DataBlockSaver {
    const manager: DataBlockManager
    const items: Items
    var buffer: seq<Meta>
    var next: nat
    var sendFinished: bool
    var stateSwitch: bool
    var looping: bool

    ghost function View(): Saver
      reads this, manager
    {
      Saver(manager.View(), buffer, next, sendFinished, stateSwitch, looping)
    }

    constructor (manager: DataBlockManager, items: Items)
      requires manager.Valid()
      modifies manager`saved, manager`saving
      ensures manager.Valid() && this.manager == manager && this.items == items
      ensures View() == Saver(Sync(old(manager.View())), [], manager.saved + 1, false, false, false)
    {
      this.manager, this.items := manager, items;
      buffer, sendFinished, stateSwitch, looping := [], false, false, false;
      new;
      next := manager.AcquireProducedDataBlockNumber();
    }

    method AppendSentDataBlockMetaToBuffer(m: Meta) returns (reply: Reply)
      modifies this
      ensures reply == if old(sendFinished) then NoMoreNeeded
                       else if m.index == old(next) then Accepted(old(next) + 1) else Refused(old(next))
      ensures next == if reply.Accepted? then old(next) + 1 else old(next)
      ensures buffer == if reply.Accepted? then old(buffer) + [m] else old(buffer)
      ensures (View(), reply) == Append(old(View()), m)
    {
      if sendFinished {
        return NoMoreNeeded;
      }
      if next != m.index {
        return Refused(next);
      }
      buffer := buffer + [m];
      next := next + 1;
      reply := Accepted(next);
    }

    method FinishSentDataBlockMeta()
      modifies this
      ensures View() == old(View()).(finished := true)
    {
      sendFinished := true;
    }

    method RemoveSavedDataBlockMetaFromBuffer()
      requires manager.Valid()
      modifies this, manager`saved, manager`saving
      ensures manager.Valid()
      ensures View() == old(View()).(store := Sync(old(manager.View())),
                                     buffer := DropProduced(old(buffer), Sync(old(manager.View())).saved + 1))
    {
      var produced := manager.AcquireProducedDataBlockNumber();
      var removed := 0;
      while removed < |buffer| && buffer[removed].index < produced
        invariant removed <= |buffer|
        invariant DropProduced(buffer, produced) == DropProduced(buffer[removed..], produced)
      {
        assert buffer[removed..][1..] == buffer[removed + 1..];
        removed := removed + 1;
      }
      buffer := buffer[removed..];
    }

    /** Saving one block; `escaped` means that an exception left the round. */
    method SaveDataBlockWithMeta(m: Meta, t: Trial) returns (escaped: bool)
      requires manager.Valid() && looping && buffer != [] && m == buffer[0]
      modifies this, manager
      ensures manager.Valid() && View() == Attempt(old(View()), items, t)
      ensures escaped <==> !looping
    {
      if t.BuildFails? {
        looping := false;
        return true;
      }
      var maker := new DataBlockMaker(m.index, None);
      maker.InitMakerByInputMeta(m);
      if t.WriteFails? {
        looping := false;
        return true;
      }
      SaveRecords(maker, m.exampleIds, items);
      var r := maker.DataBlockFinalizer(manager, t.f);
      if r != Finished {
        looping := false;
        return true;
      }
      buffer := buffer[1..];
      escaped := false;
    }

    method SavePasses(trials: seq<Trial>)
      requires manager.Valid() && looping
      modifies this, manager
      ensures manager.Valid() && View() == Attempts(old(View()), items, trials)
    {
      var left, escaped := trials, false;
      while |buffer| > 0 && !escaped
        invariant manager.Valid() && (escaped <==> !looping)
        invariant Attempts(old(View()), items, trials) == Attempts(View(), items, left)
        decreases |buffer|, !escaped
      {
        escaped := SaveDataBlockWithMeta(buffer[0], NextTrial(left));
        left := Rest(left);
      }
    }

    /** One round of the saving thread, for what the file system does in each pass. */
    method SaveDataBlocks(trials: seq<Trial>)
      requires manager.Valid() && !looping
      modifies this, manager
      ensures manager.Valid() && View() == Round(old(View()), items, trials)
    {
      if stateSwitch {
        RemoveSavedDataBlockMetaFromBuffer();
      }
      stateSwitch, looping := true, true;
      assert View() == Begin(old(View()));
      SavePasses(trials);
      if looping {
        stateSwitch, looping := false, false;
      }
    }
  }

  // ----- Sending metas -----

  /** What becomes of one call to the leader. */
  datatype Transfer = Delivered | RequestLost | ReplyLost

  datatype Sent = AllSent | Interrupted | LookupFailed

  function Slice(metas: map<int, Meta>, from: nat, end: nat): (r: seq<Meta>)
    requires from <= end && forall k :: from <= k < end ==> k in metas
    ensures |r| == end - from && forall i :: 0 <= i < |r| ==> r[i] == metas[from + i]
  {
    seq(end - from, i requires 0 <= i < end - from => metas[from + i])
  }

  /** The leader's state once it has taken the metas up to `next`. */
  ghost predicate TookUpTo(before: Saver, after: Saver, metas: map<int, Meta>, next: nat) {
    // One value, so that proving it is one obligation and not one per conjunct.
    var holds :=
      && before.next <= next
      && (forall k :: before.next <= k < next ==> k in metas)
      && after == before.(next := next, buffer := before.buffer + Slice(metas, before.next, next));
    holds
  }

  lemma TookOneMore(before: Saver, after: Saver, metas: map<int, Meta>, next: nat)
    requires TookUpTo(before, after, metas, next) && next in metas && metas[next].index == next && !before.finished
    ensures TookUpTo(before, Append(after, metas[next]).0, metas, next + 1)
  {
    assert Slice(metas, before.next, next + 1) == Slice(metas, before.next, next) + [metas[next]];
    assert before.buffer + Slice(metas, before.next, next + 1)
        == before.buffer + Slice(metas, before.next, next) + [metas[next]];
  }

  /** Whether everything from `from` on is buffered or has room in the buffer. */
  ghost predicate CanSendFrom(b: Buffer, s: Store, from: nat)
    requires -1 <= s.saved
  {
    Fits(b, {}, from, s.saved + 1)
  }

  /** Whether a call that starts at `from` gets as far as sending the meta `lost`. */
  ghost predicate Reaches(b: Buffer, s: Store, from: nat, lost: Option<nat>) {
    lost.Some? && from <= lost.value <= s.saved && Fits(b, {}, from, lost.value + 1)
  }

  lemma LookupOfNext(b: Buffer, s: Store, next: nat)
    requires StoreInv(s) && Exact(s) && BufferInv(b, s)
    ensures var (b', r) := Acquire(b, s, next);
            && (r == Absent ==> CanSendFrom(b, s, next) && b' == b)
            && (r == KeyError ==> !CanSendFrom(b, s, next) && |b'| == BUFFER_ITEMS && !Holds(b', next))
            && (r.Found? ==> (CanSendFrom(b, s, next) <==> CanSendFrom(b', s, next + 1)))
            && r != IndexError
  {
    AcquireFinds(b, s, next);
    if next <= s.saved {
      SameLookups(b, s, next);
      FetchKeepsFits(b, MetasOf(s), {}, next, s.saved + 1);
      LookupEffect(b, MetasOf(s), next);
    }
  }

  lemma LookupTowards(b: Buffer, s: Store, next: nat, lost: Option<nat>)
    requires StoreInv(s) && Exact(s) && BufferInv(b, s) && (lost.Some? ==> next <= lost.value)
    ensures var (b', r) := Acquire(b, s, next);
            && (!r.Found? ==> !Reaches(b, s, next, lost))
            && (r.Found? && lost == Some(next) ==> Reaches(b, s, next, lost))
            && (r.Found? && lost != Some(next) ==> (Reaches(b, s, next, lost) <==> Reaches(b', s, next + 1, lost)))
  {
    if lost.Some? && lost.value <= s.saved {
      SameLookups(b, s, next);
      FetchKeepsFits(b, MetasOf(s), {}, next, lost.value + 1);
      NothingFits(Acquire(b, s, next).0, {}, next + 1);
    } else if lost == Some(next) {
      AcquireFinds(b, s, next);
    }
  }

  /** The follower's next meta after a sync; a failing lookup is one that is not buffered while the buffer is full. */
  method GetNextDataBlockMeta(follower: DataBlockManager, index: nat) returns (r: Lookup)
    requires follower.Valid()
    modifies follower
    ensures follower.Valid() && follower.View() == Sync(old(follower.View())) && Exact(follower.View())
    ensures (follower.buffer, r) == Acquire(old(follower.buffer), follower.View(), index)
    ensures r == Absent <==> index > follower.saved
    ensures r == KeyError <==>
            index <= follower.saved && !Holds(old(follower.buffer), index) && |old(follower.buffer)| >= BUFFER_ITEMS
    ensures r.Found? ==> index in follower.metas && r.meta == follower.metas[index] && r.meta.index == index
  {
    SyncMakesExact(follower.View());
    AcquireFinds(follower.buffer, Sync(follower.View()), index);
    r := follower.AcquireDataBlockMetaByIndex(index);
  }

  /** While a call of the sender runs: the follower's buffer and directory, and the leader before and now. `possible`
      says whether the call would send everything if nothing got lost, and `reached` whether it gets to the meta whose
      sending is `lost`. */
  ghost predicate Sending(b: Buffer, store: Store, before: Saver, now: Saver, lost: Option<nat>, possible: bool,
                          reached: bool)
    requires -1 <= store.saved
  {
    // One value, so that proving it is one obligation and not one per conjunct.
    var holds :=
      && BufferInv(b, store) && !before.finished && TookUpTo(before, now, store.metas, now.next)
      && (lost.Some? ==> now.next <= lost.value)
      && (possible <==> CanSendFrom(b, store, now.next)) && (reached <==> Reaches(b, store, now.next, lost));
    holds
  }

  /** How it ends: at the lost meta if it gets there, and otherwise with everything sent if that is possible. */
  ghost predicate SendingEnded(b: Buffer, store: Store, before: Saver, now: Saver, lost: Option<nat>, possible: bool,
                               reached: bool, r: Sent)
    requires -1 <= store.saved
  {
    // One value, so that proving it is one obligation and not one per conjunct.
    var holds :=
      && TookUpTo(before, now, store.metas, now.next)
      && (r == AllSent ==> now.next > store.saved)
      && (r == LookupFailed ==> now.next <= store.saved && !Holds(b, now.next) && |b| == BUFFER_ITEMS)
      && (r == Interrupted <==> reached) && (r == AllSent <==> !reached && possible)
      && (r == Interrupted ==> lost.Some? && (now.next == lost.value || now.next == lost.value + 1));
    holds
  }

  lemma FoundGoesOn(b: Buffer, store: Store, before: Saver, now: Saver, lost: Option<nat>, possible: bool, reached: bool)
    requires StoreInv(store) && Exact(store) && Sending(b, store, before, now, lost, possible, reached)
    requires Acquire(b, store, now.next).1.Found?
    ensures var b', next := Acquire(b, store, now.next).0, Append(now, store.metas[now.next]).0;
            && next.next == now.next + 1 <= store.saved + 1
            && if lost == Some(now.next)
               then SendingEnded(b', store, before, now, lost, possible, reached, Interrupted)
                    && SendingEnded(b', store, before, next, lost, possible, reached, Interrupted)
               else Sending(b', store, before, next, lost, possible, reached)
  {
    AcquireFinds(b, store, now.next);
    LookupOfNext(b, store, now.next);
    LookupTowards(b, store, now.next, lost);
    TookOneMore(before, now, store.metas, now.next);
  }

  lemma NotFoundEnds(b: Buffer, store: Store, before: Saver, now: Saver, lost: Option<nat>, possible: bool, reached: bool)
    requires StoreInv(store) && Exact(store) && Sending(b, store, before, now, lost, possible, reached)
    requires !Acquire(b, store, now.next).1.Found?
    ensures var (b', lookup) := Acquire(b, store, now.next);
            SendingEnded(b', store, before, now, lost, possible, reached, if lookup.Absent? then AllSent else LookupFailed)
  {
    AcquireFinds(b, store, now.next);
    LookupOfNext(b, store, now.next);
    LookupTowards(b, store, now.next, lost);
  }

  /** One pass of the sending loop; without a result it goes on. A lost reply leaves the meta with the leader. */
  method SendNextMeta(follower: DataBlockManager, leader: DataBlockSaver, transfer: Transfer, ghost before: Saver,
                      ghost store: Store, ghost lost: Option<nat>, ghost possible: bool, ghost reached: bool)
    returns (r: Option<Sent>)
    requires follower.Valid() && follower != leader.manager && store == Sync(follower.View())
    requires transfer != Delivered <==> lost == Some(leader.next)
    requires -1 <= store.saved && Sending(follower.buffer, store, before, leader.View(), lost, possible, reached)
    modifies follower, leader
    ensures follower.Valid() && follower.View() == store
    ensures r.None? ==> Sending(follower.buffer, store, before, leader.View(), lost, possible, reached)
    ensures r.None? ==> leader.next == old(leader.next) + 1 <= store.saved + 1
    ensures r.Some? ==> SendingEnded(follower.buffer, store, before, leader.View(), lost, possible, reached, r.value)
    ensures r == Some(Interrupted) ==> leader.next == old(leader.next) + if transfer == ReplyLost then 1 else 0
  {
    SyncMakesExact(follower.View());
    ghost var b, now := follower.buffer, leader.View();
    var lookup := GetNextDataBlockMeta(follower, leader.next);
    if !lookup.Found? {
      NotFoundEnds(b, store, before, now, lost, possible, reached);
      return Some(if lookup.Absent? then AllSent else LookupFailed);
    }
    FoundGoesOn(b, store, before, now, lost, possible, reached);
    if transfer == RequestLost {
      return Some(Interrupted);
    }
    var reply := leader.AppendSentDataBlockMetaToBuffer(lookup.meta);
    r := if transfer == ReplyLost then Some(Interrupted) else None;
  }

  /** The first call whose request or reply is lost. */
  function FirstLoss(transfers: seq<Transfer>): (n: nat)
    ensures n <= |transfers| && (n < |transfers| ==> transfers[n] != Delivered)
    ensures forall i :: 0 <= i < n ==> transfers[i] == Delivered
  {
    if transfers == [] || transfers[0] != Delivered then 0 else 1 + FirstLoss(transfers[1..])
  }

  /** The follower asks where to go on and sends meta after meta; a lost message ends the call, and the next
      call asks again. The leader's buffer grows by the follower's next metas, in order, without repetition.
      The call is interrupted if and only if it gets to the first loss, and otherwise sends all there are if and only if
      every one is buffered or fits. */
  method SendExecutor(follower: DataBlockManager, leader: DataBlockSaver, transfers: seq<Transfer>)
    returns (r: Sent, finished: bool)
    requires follower.Valid() && follower != leader.manager
    modifies follower, leader
    ensures follower.Valid() && Sync(follower.View()) == Sync(old(follower.View()))
    ensures finished == old(leader.sendFinished)
    ensures finished ==> r == AllSent && leader.View() == old(leader.View())
    ensures TookUpTo(old(leader.View()), leader.View(), follower.metas, leader.next)
    ensures r == AllSent && !finished ==> leader.next > Sync(follower.View()).saved
    ensures r == LookupFailed ==>
            leader.next <= follower.saved && !Holds(follower.buffer, leader.next) && |follower.buffer| == BUFFER_ITEMS
    ensures !finished ==>
      var from, saved, n := old(leader.next), Sync(old(follower.View())).saved, FirstLoss(transfers);
      && (r == Interrupted <==>
          n < |transfers| && from + n <= saved && Fits(old(follower.buffer), {}, from, from + n + 1))
      && (r == Interrupted ==> leader.next == from + n + if transfers[n] == ReplyLost then 1 else 0)
      && (r == AllSent <==> r != Interrupted && Fits(old(follower.buffer), {}, from, saved + 1))
  {
    finished := leader.sendFinished;
    if finished {
      return AllSent, finished;
    }
    SyncMakesExact(follower.View());
    ghost var before, store, n := leader.View(), Sync(follower.View()), FirstLoss(transfers);
    ghost var lost := if n < |transfers| then Some(leader.next + n) else None;
    ghost var possible := CanSendFrom(follower.buffer, store, leader.next);
    ghost var reached := Reaches(follower.buffer, store, leader.next, lost);
    assert TookUpTo(before, leader.View(), store.metas, leader.next);
    r := SendPasses(follower, leader, transfers, before, store, lost, possible, reached);
  }

  /** The sending loop. */
  method SendPasses(follower: DataBlockManager, leader: DataBlockSaver, transfers: seq<Transfer>, ghost before: Saver,
                    ghost store: Store, ghost lost: Option<nat>, ghost possible: bool, ghost reached: bool)
    returns (r: Sent)
    requires follower.Valid() && follower != leader.manager && store == Sync(follower.View()) && before == leader.View()
    requires var n := FirstLoss(transfers); lost == if n < |transfers| then Some(before.next + n) else None
    requires -1 <= store.saved && Sending(follower.buffer, store, before, before, lost, possible, reached)
    modifies follower, leader
    ensures follower.Valid() && follower.View() == store
    ensures SendingEnded(follower.buffer, store, before, leader.View(), lost, possible, reached, r)
    ensures r == Interrupted ==>
      lost.Some? && leader.next == lost.value + if transfers[FirstLoss(transfers)] == ReplyLost then 1 else 0
  {
    ghost var n := FirstLoss(transfers);
    var i := 0;
    while true
      invariant follower.Valid() && Sync(follower.View()) == store && leader.next == before.next + i
      invariant lost.Some? ==> i <= n
      invariant Sending(follower.buffer, store, before, leader.View(), lost, possible, reached)
      decreases store.saved - leader.next
    {
      var transfer := if i < |transfers| then transfers[i] else Delivered;
      var sent := SendNextMeta(follower, leader, transfer, before, store, lost, possible, reached);
      if sent.Some? {
        return sent.value;
      }
      i := i + 1;
    }
  }
}

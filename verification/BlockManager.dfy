/** The index machine of stored data blocks: recovery by binary search, and renames that may fail. */
module BlockManager {
  import opened Wrappers
  import opened DataBlocks

  function Pow2(n: nat): (r: int)
    ensures r >= 1
  {
    if n == 0 then 1 else 2 * Pow2(n - 1)
  }

  const THRESHOLD: int := Pow2(53)

  const BUFFER_ITEMS: nat := 1024

  // ----- Startup search -----

  /** What the search computes: the last existing index as far as halving can tell. */
  function SearchFrom(stored: int -> bool, low: int, high: int): (r: int)
    requires 0 <= low <= high + 1
    ensures low - 1 <= r <= high
    decreases high - low + 1
  {
    if low > high then high
    else
      var mid := (low + high) / 2;
      if stored(mid) then SearchFrom(stored, mid + 1, high) else SearchFrom(stored, low, mid - 1)
  }

  /** The result exists unless nothing was found, and its successor does not unless it is out of range. */
  lemma {:induction false} SearchEndsAtBoundary(stored: int -> bool, low: int, high: int)
    requires 0 <= low <= high + 1
    ensures var r := SearchFrom(stored, low, high); (low <= r ==> stored(r)) && (r < high ==> !stored(r + 1))
    decreases high - low + 1
  {
    if low <= high {
      var mid := (low + high) / 2;
      if stored(mid) {
        SearchEndsAtBoundary(stored, mid + 1, high);
      } else {
        SearchEndsAtBoundary(stored, low, mid - 1);
      }
    }
  }

  predicate IsPrefix(stored: int -> bool, count: nat, limit: int) {
    forall i :: 0 <= i <= limit ==> (stored(i) <==> i < count)
  }

  /** Stored files that form a prefix are all found, up to the search's upper end. */
  lemma SearchFindsPrefix(stored: int -> bool, count: nat)
    requires IsPrefix(stored, count, THRESHOLD)
    ensures SearchFrom(stored, 0, THRESHOLD) == if count <= THRESHOLD then count - 1 else THRESHOLD
  {
    SearchEndsAtBoundary(stored, 0, THRESHOLD);
  }

  lemma HalfOfPow2(n: nat, m: int, depth: nat)
    requires 1 <= n < Pow2(depth) && 2 * m <= n
    ensures depth > 0 && m < Pow2(depth - 1)
  {
  }

  /** One existence check leaves at most half of the range. */
  method Halve(stored: int -> bool, low: int, high: int) returns (low': int, high': int)
    requires 0 <= low <= high
    ensures 0 <= low' <= high' + 1 <= high + 1 && 2 * (high' - low' + 1) <= high - low + 1
    ensures SearchFrom(stored, low', high') == SearchFrom(stored, low, high)
  {
    var mid := (low + high) / 2;
    if stored(mid) {
      low', high' := mid + 1, high;
    } else {
      low', high' := low, mid - 1;
    }
  }

  /** The bisection loop over 0..threshold, with at most `depth` existence checks. */
  method Bisect(stored: int -> bool, threshold: int, ghost depth: nat) returns (r: int, checks: nat)
    requires 0 <= threshold && threshold + 1 < Pow2(depth)
    ensures r == SearchFrom(stored, 0, threshold)
    ensures r == -1 || stored(r)
    ensures r == threshold || !stored(r + 1)
    ensures checks <= depth
  {
    var low, high := 0, threshold;
    checks := 0;
    while low <= high
      invariant 0 <= low <= high + 1 <= threshold + 1
      invariant SearchFrom(stored, 0, threshold) == SearchFrom(stored, low, high)
      invariant checks <= depth && high - low + 1 < Pow2(depth - checks)
      decreases high - low
    {
      ghost var size := high - low + 1;
      low, high := Halve(stored, low, high);
      HalfOfPow2(size, high - low + 1, depth - checks);
      checks := checks + 1;
    }
    r := high;
    SearchEndsAtBoundary(stored, 0, threshold);
  }

  method SearchSavedIndex(stored: int -> bool) returns (r: int, checks: nat)
    ensures r == SearchFrom(stored, 0, THRESHOLD)
    ensures -1 <= r <= THRESHOLD
    ensures r == -1 || stored(r)
    ensures r == THRESHOLD || !stored(r + 1)
    ensures checks <= 54
  {
    assert THRESHOLD + 1 < Pow2(54);
    r, checks := Bisect(stored, THRESHOLD, 54);
  }

  // ----- The directory and the two indices -----

  /** How a rename ends: it may fail before or after the file is in place, and its source may be gone. */
  datatype Rename = Renamed | FailedInPlace | Failed | SourceMissing

  predicate Moves(r: Rename) {
    r == Renamed || r == FailedInPlace
  }

  /** One partition's directory (meta files and data files by block index) with the manager's two indices. */
  datatype Store = Store(metas: map<int, Meta>, blocks: map<int, seq<Record>>, saved: int, saving: Option<int>)

  datatype Updated = Stored | StillSaving | NotConsecutive | TmpMissing | RenameFailed

  function Update(s: Store, m: Meta, rename: Rename): (Store, Updated) {
    if rename == SourceMissing then (s, TmpMissing)
    else if s.saving.Some? then (s, StillSaving)
    else if m.index != s.saved + 1 then (s, NotConsecutive)
    else if rename == Renamed then (s.(metas := s.metas[m.index := m], saved := m.index), Stored)
    else (s.(metas := if rename == FailedInPlace then s.metas[m.index := m] else s.metas, saving := Some(m.index)),
          RenameFailed)
  }

  function Sync(s: Store): Store {
    if s.saving.None? then s
    else if s.saving.value in s.metas then s.(saved := s.saving.value, saving := None)
    else s.(saving := None)
  }

  /** A new process on the same directory. */
  function Restart(s: Store): Store {
    s.(saved := SearchFrom(i => i in s.metas, 0, THRESHOLD), saving := None)
  }

  /** The metas on disk are those of 0..saved, and possibly of saved + 1 while that one is being saved. */
  ghost predicate StoreInv(s: Store) {
    && -1 <= s.saved
    && (s.saving.None? || s.saving.value == s.saved + 1)
    && (forall k :: 0 <= k <= s.saved ==> k in s.metas)
    && (forall k :: k in s.metas ==> (0 <= k <= s.saved || s.saving == Some(k)) && s.metas[k].index == k)
  }

  /** `saved` is the last index on disk. */
  ghost predicate Exact(s: Store) {
    && -1 <= s.saved && s.saving.None?
    && forall k :: k in s.metas <==> 0 <= k <= s.saved
  }

  predicate Extends(s: Store, t: Store) {
    forall k :: k in s.metas ==> k in t.metas && t.metas[k] == s.metas[k]
  }

  lemma UpdateKeepsInv(s: Store, m: Meta, rename: Rename)
    requires StoreInv(s)
    ensures var (t, u) := Update(s, m, rename);
            && StoreInv(t) && Extends(s, t) && t.blocks == s.blocks
            && (u == Stored <==> rename == Renamed && s.saving.None? && m.index == s.saved + 1)
            && (u == Stored ==> t.saved == s.saved + 1 && m.index !in s.metas && t.metas[m.index] == m)
            && (u != Stored ==> t.saved == s.saved)
            && (u == TmpMissing <==> rename == SourceMissing)
            && (u == StillSaving <==> rename != SourceMissing && s.saving.Some?)
            && (u == NotConsecutive <==> rename != SourceMissing && s.saving.None? && m.index != s.saved + 1)
            && (u == RenameFailed ==> t.saving == Some(m.index as int) && (m.index in t.metas <==> rename == FailedInPlace))
            && (u != Stored && u != RenameFailed ==> t == s)
  {
  }

  lemma SyncMakesExact(s: Store)
    requires StoreInv(s)
    ensures StoreInv(Sync(s)) && Exact(Sync(s)) && Sync(s).metas == s.metas && Sync(s).blocks == s.blocks
  {
  }

  lemma RestartSaved(s: Store)
    requires StoreInv(s)
    ensures Restart(s).saved == if Sync(s).saved < THRESHOLD then Sync(s).saved else THRESHOLD
  {
    SyncMakesExact(s);
    SearchFindsPrefix(i => i in s.metas, Sync(s).saved + 1);
  }

  /** Restarting finds the exact index again if and only if the search's range covers it. */
  lemma RestartIsExact(s: Store)
    requires StoreInv(s)
    ensures StoreInv(Restart(s)) <==> Sync(s).saved <= THRESHOLD
    ensures Sync(s).saved <= THRESHOLD ==> Restart(s) == Sync(s)
  {
    SyncMakesExact(s);
    RestartSaved(s);
    assert Sync(s).saved > THRESHOLD ==> THRESHOLD + 1 in Restart(s).metas;
  }

  lemma EmptyRestart(s: Store)
    requires StoreInv(s) && s.metas == map[]
    ensures Sync(s).saved == Restart(s).saved == -1
  {
    SyncMakesExact(s);
    assert Sync(s).metas == map[];
    assert -1 !in s.metas && 0 !in s.metas;
    RestartIsExact(s);
  }

  // ----- Any run of the manager -----

  datatype Call = CallSync | CallUpdate(m: Meta, rename: Rename) | CallRestart

  function AfterCall(s: Store, c: Call): Store {
    match c
    case CallSync => Sync(s)
    case CallUpdate(m, rename) => Update(s, m, rename).0
    case CallRestart => Restart(s)
  }

  function AfterCalls(s: Store, calls: seq<Call>): Store
    decreases |calls|
  {
    if calls == [] then s else AfterCalls(AfterCall(s, calls[0]), calls[1..])
  }

  /** No restart happens on more files than the startup search can tell apart. */
  predicate Covered(s: Store, calls: seq<Call>)
    decreases |calls|
  {
    calls == []
    || ((calls[0].CallRestart? ==> Sync(s).saved <= THRESHOLD) && Covered(AfterCall(s, calls[0]), calls[1..]))
  }

  /** Through any calls, rename outcomes and restarts the metas on disk stay exactly the indices described, and a
      meta once on disk is never overwritten. */
  lemma {:induction false} RunKeepsStore(s: Store, calls: seq<Call>)
    requires StoreInv(s) && Covered(s, calls)
    ensures StoreInv(AfterCalls(s, calls)) && Extends(s, AfterCalls(s, calls)) && Exact(Sync(AfterCalls(s, calls)))
    decreases |calls|
  {
    if calls == [] {
      SyncMakesExact(s);
    } else {
      var t := AfterCall(s, calls[0]);
      SyncMakesExact(s);
      RestartIsExact(s);
      if calls[0].CallUpdate? {
        UpdateKeepsInv(s, calls[0].m, calls[0].rename);
      }
      RunKeepsStore(t, calls[1..]);
    }
  }

  // ----- The in-memory buffer of metas -----

  /** A Python dict: entries in insertion order. */
  type Buffer = seq<(int, Meta)>

  predicate Holds(b: Buffer, index: int) {
    exists i :: 0 <= i < |b| && b[i].0 == index
  }

  function Get(b: Buffer, index: int): (m: Meta)
    requires Holds(b, index)
    ensures (index, m) in b
  {
    if b[|b| - 1].0 == index then b[|b| - 1].1 else Get(b[..|b| - 1], index)
  }

  /** `popitem` takes the newest entry, so trimming keeps the oldest ones. */
  function Trim(b: Buffer): Buffer {
    if |b| > BUFFER_ITEMS then b[..BUFFER_ITEMS] else b
  }

  ghost predicate BufferInv(b: Buffer, s: Store) {
    && |b| <= BUFFER_ITEMS + 1
    && (forall i :: 0 <= i < |b| ==> 0 <= b[i].0 <= s.saved && b[i].0 in s.metas && b[i].1 == s.metas[b[i].0])
    && (forall i, j :: 0 <= i < j < |b| ==> b[i].0 != b[j].0)
  }

  /** An update keeps the buffer right, with the new entry after a success. */
  lemma UpdateKeepsBuffer(b: Buffer, s: Store, m: Meta, rename: Rename)
    requires StoreInv(s) && BufferInv(b, s)
    ensures var (t, u) := Update(s, m, rename); BufferInv(if u == Stored then Trim(b) + [(m.index, m)] else b, t)
  {
    UpdateKeepsInv(s, m, rename);
  }

  datatype Lookup = Found(meta: Meta) | Absent | IndexError | KeyError

  /** The meta of `index` after a sync; a new entry that does not fit is evicted again at once. */
  function Acquire(b: Buffer, s: Store, index: int): (Buffer, Lookup) {
    if index < 0 then (b, IndexError)
    else if index > s.saved || index !in s.metas then (b, Absent)
    else if Holds(b, index) then (b, Found(Get(b, index)))
    else
      var b' := Trim(b + [(index, s.metas[index])]);
      (b', if Holds(b', index) then Found(Get(b', index)) else KeyError)
  }

  /** A lookup finds the stored meta, except exactly when the entry is not buffered and the buffer is full. */
  lemma AcquireFinds(b: Buffer, s: Store, index: int)
    requires StoreInv(s) && Exact(s) && BufferInv(b, s)
    ensures var (b', r) := Acquire(b, s, index);
            && BufferInv(b', s)
            && (r == IndexError <==> index < 0)
            && (r == Absent <==> index > s.saved)
            && (r == KeyError <==> 0 <= index <= s.saved && !Holds(b, index) && |b| >= BUFFER_ITEMS)
            && (r.Found? ==> index in s.metas && r.meta == s.metas[index])
  {
    if 0 <= index <= s.saved && !Holds(b, index) {
      var entry := (index, s.metas[index]);
      if |b| < BUFFER_ITEMS {
        assert (b + [entry])[|b|] == entry;
      } else {
        var b' := Trim(b + [entry]);
        assert b' == b[..BUFFER_ITEMS];
        assert Holds(b', index) ==> Holds(b, index);
      }
    }
  }

  class DataBlockManager {
    var metas: map<int, Meta>
    var blocks: map<int, seq<Record>>
    var saved: int
    var saving: Option<int>
    var buffer: Buffer

    ghost function View(): Store
      reads this
    {
      Store(metas, blocks, saved, saving)
    }

    ghost predicate Valid()
      reads this
    {
      // One value, so that proving it is one obligation and not one per conjunct.
      var holds := StoreInv(View()) && BufferInv(buffer, View());
      holds
    }

    /** Starting on a directory left by an earlier process. */
    constructor (metas: map<int, Meta>, blocks: map<int, seq<Record>>, ghost before: Store)
      requires StoreInv(before) && metas == before.metas && blocks == before.blocks
      ensures View() == Restart(before) && buffer == []
      ensures Valid() <==> Sync(before).saved <= THRESHOLD
    {
      var r, checks := SearchSavedIndex(i => i in metas);
      RestartIsExact(before);
      this.metas, this.blocks := metas, blocks;
      saved, saving, buffer := r, None, [];
    }

    method SyncSavedDataBlockIndex()
      requires Valid()
      modifies this`saved, this`saving
      ensures Valid() && View() == Sync(old(View())) && Exact(View())
    {
      SyncMakesExact(View());
      if saving.Some? {
        assert saving.value == saved + 1;
        if saving.value in metas {
          saved := saving.value;
        }
        saving := None;
      }
    }

    method AcquireProducedDataBlockNumber() returns (number: nat)
      requires Valid()
      modifies this`saved, this`saving
      ensures Valid() && View() == Sync(old(View())) && Exact(View()) && number == saved + 1
    {
      SyncSavedDataBlockIndex();
      number := saved + 1;
    }

    method RemoveItems()
      modifies this`buffer
      ensures buffer == Trim(old(buffer))
    {
      while |buffer| > BUFFER_ITEMS
        invariant |buffer| <= |old(buffer)| && buffer == old(buffer)[..|buffer|]
        invariant |buffer| < |old(buffer)| ==> |buffer| >= BUFFER_ITEMS
        decreases |buffer|
      {
        buffer := buffer[..|buffer| - 1];
      }
    }

    method AcquireDataBlockMetaByIndex(index: int) returns (r: Lookup)
      requires Valid()
      modifies this`saved, this`saving, this`buffer
      ensures Valid()
      ensures index < 0 ==> r == IndexError && View() == old(View()) && buffer == old(buffer)
      ensures index >= 0 ==> View() == Sync(old(View())) && (buffer, r) == Acquire(old(buffer), View(), index)
    {
      if index < 0 {
        return IndexError;
      }
      SyncSavedDataBlockIndex();
      AcquireFinds(buffer, View(), index);
      if saved < 0 || index > saved {
        return Absent;
      }
      if !Holds(buffer, index) {
        buffer := buffer + [(index, metas[index])];
        RemoveItems();
      }
      r := if Holds(buffer, index) then Found(Get(buffer, index)) else KeyError;
    }

    method UpdateDataBlockMeta(m: Meta, rename: Rename) returns (u: Updated)
      requires Valid()
      modifies this`metas, this`saved, this`saving, this`buffer
      ensures Valid() && (View(), u) == Update(old(View()), m, rename)
      ensures buffer == if u == Stored then Trim(old(buffer)) + [(m.index, m)] else old(buffer)
    {
      UpdateKeepsInv(View(), m, rename);
      UpdateKeepsBuffer(buffer, View(), m, rename);
      if rename == SourceMissing {
        return TmpMissing;
      }
      if saving.Some? {
        return StillSaving;
      }
      if m.index != saved + 1 {
        return NotConsecutive;
      }
      saving := Some(m.index);
      if Moves(rename) {
        metas := metas[m.index := m];
      }
      if rename != Renamed {
        return RenameFailed;
      }
      saving := None;
      saved := m.index;
      RemoveItems();
      buffer := buffer + [(m.index, m)];
      u := Stored;
    }
  }
}

/** Which of the follower's metas its sender can still look up: what is buffered, and what the buffer has room for. */
module MetaBuffer {
  import opened Wrappers
  import opened DataBlocks
  import opened BlockManager

  /** A directory that holds exactly these metas, seen by a manager that is up to date. */
  function StoreOf(metas: seq<Meta>): (s: Store)
    ensures s.saved == |metas| - 1 && s.saving.None?
    ensures forall k :: k in s.metas <==> 0 <= k < |metas|
    ensures forall k :: 0 <= k < |metas| ==> s.metas[k] == metas[k]
  {
    Store(map k: int | 0 <= k < |metas| :: metas[k], map[], |metas| - 1, None)
  }

  /** What an up-to-date directory holds, in order. */
  function MetasOf(s: Store): (metas: seq<Meta>)
    requires -1 <= s.saved && forall k :: 0 <= k <= s.saved ==> k in s.metas
    ensures |metas| == s.saved + 1 && forall k :: 0 <= k < |metas| ==> metas[k] == s.metas[k]
  {
    seq(s.saved + 1, k requires 0 <= k <= s.saved => s.metas[k])
  }

  lemma SameLookups(b: Buffer, s: Store, k: int)
    requires StoreInv(s) && Exact(s)
    ensures StoreOf(MetasOf(s)).metas == s.metas && Numbered(MetasOf(s))
    ensures Acquire(b, s, k) == Acquire(b, StoreOf(MetasOf(s)), k)
    ensures BufferInv(b, s) ==> Buffered(b, MetasOf(s))
  {
  }

  ghost predicate Buffered(b: Buffer, metas: seq<Meta>) {
    BufferInv(b, StoreOf(metas))
  }

  ghost predicate Numbered(metas: seq<Meta>) {
    forall k :: 0 <= k < |metas| ==> metas[k].index == k
  }

  lemma HoldsAppend(b: Buffer, entry: (int, Meta), k: int)
    ensures Holds(b + [entry], k) <==> Holds(b, k) || k == entry.0
  {
    if Holds(b, k) {
      var i :| 0 <= i < |b| && b[i].0 == k;
      assert (b + [entry])[i].0 == k;
    }
    assert (b + [entry])[|b|] == entry;
  }

  lemma HoldsTrim(b: Buffer, k: int)
    ensures Holds(Trim(b), k) ==> Holds(b, k)
  {
  }

  // ----- One lookup -----

  /** A lookup that finds its meta adds at most that one entry and drops none; one that fails leaves a full buffer. */
  lemma LookupEffect(b: Buffer, metas: seq<Meta>, k: nat)
    requires Numbered(metas) && Buffered(b, metas)
    ensures var (b', r) := Acquire(b, StoreOf(metas), k);
            && Buffered(b', metas)
            && (r.Found? <==> k < |metas| && (Holds(b, k) || |b| < BUFFER_ITEMS))
            && (r.Found? ==> |b'| == |b| + if Holds(b, k) then 0 else 1)
            && (r.Found? ==> forall j :: Holds(b', j) <==> Holds(b, j) || j == k)
            && (r == KeyError ==> |b'| == BUFFER_ITEMS <= |b| && forall j :: Holds(b', j) ==> Holds(b, j))
            && (!r.Found? && r != KeyError ==> b' == b)
  {
    var s := StoreOf(metas);
    AcquireFinds(b, s, k);
    if k < |metas| && !Holds(b, k) {
      var entry := (k as int, s.metas[k]);
      forall j
        ensures Holds(b + [entry], j) <==> Holds(b, j) || j == k
        ensures Holds(Trim(b + [entry]), j) ==> Holds(b + [entry], j)
      {
        HoldsAppend(b, entry, j);
        HoldsTrim(b + [entry], j);
      }
    }
  }

  // ----- What is out of reach -----

  /** Neither buffered nor somewhere else already. */
  predicate IsMissing(b: Buffer, elsewhere: set<nat>, k: nat) {
    k !in elsewhere && !Holds(b, k)
  }

  /** How many of the indices from..end - 1 are missing. */
  function Missing(b: Buffer, elsewhere: set<nat>, from: nat, end: nat): nat
    decreases end - from
  {
    if from >= end then 0
    else (if IsMissing(b, elsewhere, from) then 1 else 0) + Missing(b, elsewhere, from + 1, end)
  }

  /** Nothing is missing, or the buffer has room for everything that is. */
  predicate Fits(b: Buffer, elsewhere: set<nat>, from: nat, end: nat) {
    var n := Missing(b, elsewhere, from, end);
    n == 0 || n + |b| <= BUFFER_ITEMS
  }

  lemma {:induction false} MissingMono(b: Buffer, e: set<nat>, b': Buffer, e': set<nat>, from: nat, end: nat)
    requires forall k: nat :: from <= k < end && IsMissing(b, e, k) ==> IsMissing(b', e', k)
    ensures Missing(b, e, from, end) <= Missing(b', e', from, end)
    decreases end - from
  {
    if from < end {
      MissingMono(b, e, b', e', from + 1, end);
    }
  }

  /** Taking one index off the list lowers the count by at most one. */
  lemma {:induction false} MissingLoss(b: Buffer, e: set<nat>, b': Buffer, e': set<nat>, from: nat, end: nat, gone: nat)
    requires forall k: nat :: from <= k < end && k != gone && IsMissing(b, e, k) ==> IsMissing(b', e', k)
    ensures Missing(b, e, from, end) <= Missing(b', e', from, end) + 1
    decreases end - from
  {
    if from < end {
      if from == gone {
        MissingMono(b, e, b', e', from + 1, end);
      } else {
        MissingLoss(b, e, b', e', from + 1, end, gone);
      }
    }
  }

  /** And by one if it was on it. */
  lemma {:induction false} MissingGain(b: Buffer, e: set<nat>, b': Buffer, e': set<nat>, from: nat, end: nat, gone: nat)
    requires from <= gone < end && IsMissing(b, e, gone) && !IsMissing(b', e', gone)
    requires forall k: nat :: from <= k < end && IsMissing(b', e', k) ==> IsMissing(b, e, k)
    ensures Missing(b', e', from, end) < Missing(b, e, from, end)
    decreases end - from
  {
    if from == gone {
      MissingMono(b', e', b, e, from + 1, end);
    } else {
      MissingGain(b, e, b', e', from + 1, end, gone);
    }
  }

  lemma {:induction false} SomeMissing(b: Buffer, e: set<nat>, from: nat, end: nat) returns (k: nat)
    requires Missing(b, e, from, end) > 0
    ensures from <= k < end && IsMissing(b, e, k)
    decreases end - from
  {
    if IsMissing(b, e, from) {
      k := from;
    } else {
      k := SomeMissing(b, e, from + 1, end);
    }
  }

  lemma MissingCounts(b: Buffer, e: set<nat>, from: nat, end: nat, k: nat)
    requires from <= k < end && IsMissing(b, e, k)
    ensures Missing(b, e, from, end) > 0
  {
    MissingGain(b, e, b, e + {k}, from, end, k);
  }

  // ----- How looking up and saving change that -----

  /** Looking the next index up: when it is found, what is left up to any end fits exactly if it did before; when it is
      not, it did not fit. */
  lemma FetchKeepsFits(b: Buffer, metas: seq<Meta>, e: set<nat>, next: nat, end: nat)
    requires Numbered(metas) && Buffered(b, metas) && next < end <= |metas| && next !in e
    ensures var (b', r) := Acquire(b, StoreOf(metas), next);
            && (r.Found? ==> (Fits(b, e, next, end) <==> Fits(b', e, next + 1, end)))
            && (!r.Found? ==> !Fits(b, e, next, end))
  {
    LookupEffect(b, metas, next);
    var (b', r) := Acquire(b, StoreOf(metas), next);
    if r.Found? {
      MissingMono(b, e, b', e, next + 1, end);
      MissingMono(b', e, b, e, next + 1, end);
    }
  }

  lemma FittingIsFound(b: Buffer, metas: seq<Meta>, e: set<nat>, next: nat)
    requires Numbered(metas) && Buffered(b, metas) && next < |metas| && next !in e && Fits(b, e, next, |metas|)
    ensures var (b', r) := Acquire(b, StoreOf(metas), next); r.Found? && Fits(b', e, next + 1, |metas|)
  {
    FetchKeepsFits(b, metas, e, next, |metas|);
  }

  lemma NothingFits(b: Buffer, e: set<nat>, from: nat)
    ensures Fits(b, e, from, from)
  {
  }

  /** What does not fit once never fits again: any lookup either fills the buffer or leaves it full. */
  lemma LookupKeepsUnfit(b: Buffer, metas: seq<Meta>, k: nat, e: set<nat>, from: nat, end: nat)
    requires Numbered(metas) && Buffered(b, metas) && !Fits(b, e, from, end)
    ensures var (b', r) := Acquire(b, StoreOf(metas), k); !Fits(b', if r.Found? then e + {k} else e, from, end)
  {
    LookupEffect(b, metas, k);
    var (b', r) := Acquire(b, StoreOf(metas), k);
    if !r.Found? || Holds(b, k) {
      MissingMono(b, e, b', if r.Found? then e + {k} else e, from, end);
    } else {
      MissingLoss(b, e, b', e + {k}, from, end, k);
    }
  }

  /** The buffer after the blocks from..end - 1 were saved. */
  function Saves(b: Buffer, metas: seq<Meta>, from: nat, end: nat): Buffer
    requires end <= |metas|
  {
    if end <= from then b else Trim(Saves(b, metas, from, end - 1)) + [(end - 1, metas[end - 1])]
  }

  lemma SaveKeepsBuffered(b: Buffer, metas: seq<Meta>, k: nat)
    requires k < |metas| && Buffered(b, metas[..k])
    ensures Buffered(Trim(b) + [(k, metas[k])], metas[..k + 1])
  {
    assert forall j :: 0 <= j < k ==> metas[..k][j] == metas[..k + 1][j];
  }

  lemma {:induction false} SavesKeepBuffered(b: Buffer, metas: seq<Meta>, from: nat, end: nat)
    requires from <= end <= |metas| && Buffered(b, metas[..from])
    ensures Buffered(Saves(b, metas, from, end), metas[..end])
    decreases end
  {
    if from < end {
      SavesKeepBuffered(b, metas, from, end - 1);
      SaveKeepsBuffered(Saves(b, metas, from, end - 1), metas, end - 1);
    }
  }

  lemma {:induction false} SavesOnlyAddNew(b: Buffer, metas: seq<Meta>, from: nat, end: nat, k: nat)
    requires from <= end <= |metas| && k < from && Holds(Saves(b, metas, from, end), k)
    ensures Holds(b, k)
    decreases end
  {
    if from < end {
      var before := Saves(b, metas, from, end - 1);
      HoldsAppend(Trim(before), (end - 1, metas[end - 1]), k);
      HoldsTrim(before, k);
      SavesOnlyAddNew(b, metas, from, end - 1, k);
    }
  }

  lemma {:induction false} SavesNeverShrink(b: Buffer, metas: seq<Meta>, from: nat, end: nat)
    requires end <= |metas|
    ensures |Saves(b, metas, from, end)| >= if |b| <= BUFFER_ITEMS then |b| else BUFFER_ITEMS
    decreases end
  {
    if from < end {
      SavesNeverShrink(b, metas, from, end - 1);
    }
  }

  /** Saving further blocks makes no room either. */
  lemma SavesKeepUnfit(b: Buffer, metas: seq<Meta>, before: nat, after: nat, e: set<nat>, from: nat, end: nat)
    requires end <= before <= after <= |metas| && !Fits(b, e, from, end)
    ensures !Fits(Saves(b, metas, before, after), e, from, end)
  {
    var b' := Saves(b, metas, before, after);
    SavesNeverShrink(b, metas, before, after);
    forall k: nat | from <= k < end && IsMissing(b, e, k)
      ensures IsMissing(b', e, k)
    {
      if Holds(b', k) {
        SavesOnlyAddNew(b, metas, before, after, k);
      }
    }
    MissingMono(b, e, b', e, from, end);
  }

  lemma BufferedMore(b: Buffer, metas: seq<Meta>, k: nat, n: nat)
    requires k <= n <= |metas| && Buffered(b, metas[..k])
    ensures Buffered(b, metas[..n])
  {
    assert forall j :: 0 <= j < k ==> metas[..k][j] == metas[..n][j];
  }

  /** Saving more than 1025 blocks in a row drops block 1024. */
  lemma {:induction false} SavesDropBlocks(metas: seq<Meta>, end: nat)
    requires end <= |metas|
    ensures var b := Saves([], metas, 0, end);
            && |b| == (if end <= BUFFER_ITEMS + 1 then end else BUFFER_ITEMS + 1)
            && forall i :: 0 <= i < |b| ==> b[i].0 == if i < BUFFER_ITEMS then i else end - 1
    decreases end
  {
    if end > 0 {
      SavesDropBlocks(metas, end - 1);
    }
  }

  lemma SavedAreBuffered(metas: seq<Meta>)
    ensures Buffered(Saves([], metas, 0, |metas|), metas)
  {
    SavesKeepBuffered([], metas, 0, |metas|);
    assert metas[..|metas|] == metas;
  }

  /** From then on exactly the first 1024 blocks and the newest one can be looked up. */
  lemma LaterBlocksAreLost(metas: seq<Meta>, index: nat)
    requires Numbered(metas) && index < |metas|
    ensures Acquire(Saves([], metas, 0, |metas|), StoreOf(metas), index).1 == KeyError
            <==> BUFFER_ITEMS <= index < |metas| - 1
  {
    var b := Saves([], metas, 0, |metas|);
    SavesDropBlocks(metas, |metas|);
    SavedAreBuffered(metas);
    LookupEffect(b, metas, index);
    if index < BUFFER_ITEMS {
      assert b[index].0 == index;
    } else if index == |metas| - 1 {
      assert b[|b| - 1].0 == index;
    }
  }

  lemma LongSavesStrand(metas: seq<Meta>)
    requires |metas| > BUFFER_ITEMS + 1
    ensures !Fits(Saves([], metas, 0, |metas|), {}, 0, |metas|)
  {
    SavesDropBlocks(metas, |metas|);
    MissingCounts(Saves([], metas, 0, |metas|), {}, 0, |metas|, BUFFER_ITEMS);
  }
}

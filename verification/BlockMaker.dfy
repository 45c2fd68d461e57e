/** Building one data block: records and meta grow together until the finalizer stores both. */
module BlockMaker {
  import opened Wrappers
  import opened DataBlocks
  import opened BlockManager

  /** What goes wrong around one finalizer call: the renames of both files and the report to the meta service. */
  datatype Faults = Faults(data: Rename, meta: Rename, reportFails: bool)

  const NO_FAULTS: Faults := Faults(Renamed, Renamed, false)

  datatype Finalized =
    | Finished
    | NoBlock
    | CountMismatch
    | DataNotMoved
    | MetaNotStored(why: Updated)
    | NotReported

  /** The finalizer on a directory: nothing may be stored unless one record was written for every id of the meta. */
  function Finalize(s: Store, m: Meta, written: nat, records: seq<Record>, f: Faults): (Store, Finalized) {
    if written != |m.exampleIds| then (s, CountMismatch)
    else if m.exampleIds == [] then (s, NoBlock)
    else
      var t := if Moves(f.data) then s.(blocks := s.blocks[m.index := records]) else s;
      if f.data != Renamed then (t, DataNotMoved)
      else
        var (u, updated) := Update(t, m, f.meta);
        (u, if updated != Stored then MetaNotStored(updated) else if f.reportFails then NotReported else Finished)
  }

  /** A block is finished exactly when nothing fails, one record was written per id, and its turn has come; an
      earlier block's meta is never touched. */
  lemma FinalizeStores(s: Store, m: Meta, written: nat, records: seq<Record>, f: Faults)
    requires StoreInv(s)
    ensures var (t, r) := Finalize(s, m, written, records, f);
            && StoreInv(t) && Extends(s, t)
            && (r == Finished <==>
                f == NO_FAULTS && written == |m.exampleIds| > 0 && s.saving.None? && m.index == s.saved + 1)
            && (r == Finished || r == NotReported ==>
                t == Store(s.metas[m.index := m], s.blocks[m.index := records], s.saved + 1, None))
            && (forall k :: k != m.index ==> (k in t.blocks <==> k in s.blocks))
            && (forall k :: k != m.index && k in s.blocks ==> t.blocks[k] == s.blocks[k])
            && (m.index in t.metas && m.index !in s.metas ==>
                written == |m.exampleIds| && t.metas[m.index] == m && m.index in t.blocks && t.blocks[m.index] == records)
  {
    var t := if Moves(f.data) then s.(blocks := s.blocks[m.index := records]) else s;
    UpdateKeepsInv(t, m, f.meta);
  }

  /** How each call ends: at the first thing that is wrong, in this order. */
  lemma FinalizeEnds(s: Store, m: Meta, written: nat, records: seq<Record>, f: Faults)
    ensures var r := Finalize(s, m, written, records, f).1;
            var moved := written == |m.exampleIds| > 0 && f.data == Renamed;
            var stored := moved && f.meta == Renamed && s.saving.None? && m.index == s.saved + 1;
            && (r.CountMismatch? <==> written != |m.exampleIds|)
            && (r.NoBlock? <==> written == 0 && m.exampleIds == [])
            && (r.DataNotMoved? <==> written == |m.exampleIds| > 0 && f.data != Renamed)
            && (r.MetaNotStored? <==> moved && !stored)
            && (r.NotReported? <==> stored && f.reportFails) && (r.Finished? <==> stored && !f.reportFails)
  {
  }

  /** A party that writes the records it has of a meta's ids fails the finalizer's count check exactly when it
      misses one of them. */
  lemma CountMismatchIffMissing(s: Store, m: Meta, items: Items, f: Faults)
    ensures var ids := Present(m.exampleIds, items);
            Finalize(s, m, |ids|, Records(ids, items), f).1.CountMismatch? <==> !AllIn(m.exampleIds, items)
  {
    PresentIsAll(m.exampleIds, items);
  }

  class DataBlockMaker {
    var meta: Meta
    var savedExampleNum: nat
    var exampleNumThreshold: Option<int>
    var records: seq<Record>

    constructor (index: nat, threshold: Option<int>)
      ensures meta == Meta(index, [], 0, 0) && savedExampleNum == 0 && records == [] && exampleNumThreshold == threshold
    {
      meta, savedExampleNum, exampleNumThreshold, records := Meta(index, [], 0, 0), 0, threshold, [];
    }

    /** The maker holds the block of `ids`, each written with its own record. */
    ghost predicate Holds(index: nat, ids: seq<Id>, items: Items)
      reads this
    {
      && AllIn(ids, items)
      && meta == MetaFor(index, ids, items) && records == Records(ids, items) && savedExampleNum == |ids|
    }

    method Save(record: Record, id: Id, eventTime: int, ghost ids: seq<Id>, ghost items: Items)
      requires Holds(meta.index, ids, items) && id in items && items[id] == Item(record, eventTime)
      modifies this
      ensures Holds(old(meta.index), ids + [id], items)
      ensures exampleNumThreshold == old(exampleNumThreshold)
    {
      OneMore(meta.index, ids, id, items);
      records := records + [record];
      meta := meta.(exampleIds := meta.exampleIds + [id]);
      if savedExampleNum == 0 {
        meta := meta.(startTime := eventTime, endTime := eventTime);
      } else {
        if eventTime < meta.startTime {
          meta := meta.(startTime := eventTime);
        }
        if eventTime > meta.endTime {
          meta := meta.(endTime := eventTime);
        }
      }
      savedExampleNum := savedExampleNum + 1;
    }

    /** The leader's makers take the follower's meta over and have no threshold. */
    method InitMakerByInputMeta(m: Meta)
      modifies this
      ensures meta == m && exampleNumThreshold == None
      ensures savedExampleNum == old(savedExampleNum) && records == old(records)
    {
      exampleNumThreshold := None;
      meta := m;
    }

    method SaveDataRecord(record: Record)
      modifies this
      ensures meta == old(meta) && exampleNumThreshold == old(exampleNumThreshold)
      ensures savedExampleNum == old(savedExampleNum) + 1 && records == old(records) + [record]
    {
      records := records + [record];
      savedExampleNum := savedExampleNum + 1;
    }

    predicate IsDataBlockExceedThreshold()
      reads this
    {
      exampleNumThreshold.Some? && |meta.exampleIds| >= exampleNumThreshold.value
    }

    method DataBlockFinalizer(manager: DataBlockManager, f: Faults) returns (r: Finalized)
      requires manager.Valid()
      modifies manager
      ensures manager.Valid()
      ensures (manager.View(), r) == Finalize(old(manager.View()), meta, savedExampleNum, records, f)
      ensures manager.buffer == if manager.saved == old(manager.saved) then old(manager.buffer)
                                else Trim(old(manager.buffer)) + [(meta.index, meta)]
    {
      if savedExampleNum != |meta.exampleIds| {
        return CountMismatch;
      }
      if |meta.exampleIds| == 0 {
        return NoBlock;
      }
      if Moves(f.data) {
        manager.blocks := manager.blocks[meta.index := records];
      }
      if f.data != Renamed {
        return DataNotMoved;
      }
      var updated := manager.UpdateDataBlockMeta(meta, f.meta);
      if updated != Stored {
        return MetaNotStored(updated);
      }
      r := if f.reportFails then NotReported else Finished;
    }
  }

  /** Writing the records of the meta's ids that this party has. */
  method SaveRecords(maker: DataBlockMaker, ids: seq<Id>, items: Items)
    requires maker.savedExampleNum == 0 && maker.records == []
    modifies maker
    ensures maker.meta == old(maker.meta)
    ensures maker.records == Records(Present(ids, items), items)
    ensures maker.savedExampleNum == |Present(ids, items)|
  {
    for i := 0 to |ids|
      invariant maker.meta == old(maker.meta)
      invariant maker.records == Records(Present(ids[..i], items), items)
      invariant maker.savedExampleNum == |Present(ids[..i], items)|
    {
      assert ids[..i + 1] == ids[..i] + [ids[i]];
      PresentSnoc(ids[..i], ids[i], items);
      if ids[i] in items {
        maker.SaveDataRecord(items[ids[i]].record);
      }
    }
    assert ids[..|ids|] == ids;
  }
}

/** Examples, data block metas, and what a block written for a list of example ids must hold. */
module DataBlocks {

  type Id = string

  type Record = seq<bv8>

  /** One loaded example; a party's `item_dict` maps ids to these. */
  datatype Item = Item(record: Record, eventTime: int)

  type Items = map<Id, Item>

  datatype Meta = Meta(index: nat, exampleIds: seq<Id>, startTime: int, endTime: int)

  predicate AllIn(ids: seq<Id>, items: Items) {
    forall i :: 0 <= i < |ids| ==> ids[i] in items
  }

  /** The ids that `items` has, in order and with repetitions kept. */
  function Present(ids: seq<Id>, items: Items): (r: seq<Id>)
    ensures AllIn(r, items) && |r| <= |ids|
  {
    if ids == [] then []
    else
      var front := Present(ids[..|ids| - 1], items);
      if ids[|ids| - 1] in items then front + [ids[|ids| - 1]] else front
  }

  lemma {:induction false} PresentAppend(a: seq<Id>, b: seq<Id>, items: Items)
    ensures Present(a + b, items) == Present(a, items) + Present(b, items)
  {
    if b == [] {
      assert a + b == a;
    } else {
      assert (a + b)[..|a + b| - 1] == a + b[..|b| - 1];
      PresentAppend(a, b[..|b| - 1], items);
    }
  }

  lemma PresentSnoc(ids: seq<Id>, id: Id, items: Items)
    ensures Present(ids + [id], items) == Present(ids, items) + if id in items then [id] else []
  {
    assert (ids + [id])[..|ids|] == ids;
  }

  /** Counting what was found tells whether anything was missing. */
  lemma {:induction false} PresentIsAll(ids: seq<Id>, items: Items)
    ensures |Present(ids, items)| == |ids| <==> AllIn(ids, items)
    ensures AllIn(ids, items) ==> Present(ids, items) == ids
  {
    if ids != [] {
      PresentIsAll(ids[..|ids| - 1], items);
      assert ids == ids[..|ids| - 1] + [ids[|ids| - 1]];
    }
  }

  function Records(ids: seq<Id>, items: Items): (r: seq<Record>)
    requires AllIn(ids, items)
    ensures |r| == |ids| && forall i :: 0 <= i < |ids| ==> r[i] == items[ids[i]].record
  {
    seq(|ids|, i requires 0 <= i < |ids| => items[ids[i]].record)
  }

  function Min(a: int, b: int): int {
    if b < a then b else a
  }

  function Max(a: int, b: int): int {
    if b > a then b else a
  }

  /** The least event time of `ids`. */
  function Earliest(ids: seq<Id>, items: Items): (t: int)
    requires ids != [] && AllIn(ids, items)
    ensures forall i :: 0 <= i < |ids| ==> t <= items[ids[i]].eventTime
    ensures exists i :: 0 <= i < |ids| && t == items[ids[i]].eventTime
  {
    var last := |ids| - 1;
    if last == 0 then items[ids[0]].eventTime
    else
      var front := Earliest(ids[..last], items);
      assert exists i :: 0 <= i < last && front == items[ids[..last][i]].eventTime;
      assert forall i :: 0 <= i < last ==> front <= items[ids[..last][i]].eventTime;
      Min(front, items[ids[last]].eventTime)
  }

  /** The greatest event time of `ids`. */
  function Latest(ids: seq<Id>, items: Items): (t: int)
    requires ids != [] && AllIn(ids, items)
    ensures forall i :: 0 <= i < |ids| ==> t >= items[ids[i]].eventTime
    ensures exists i :: 0 <= i < |ids| && t == items[ids[i]].eventTime
  {
    var last := |ids| - 1;
    if last == 0 then items[ids[0]].eventTime
    else
      var front := Latest(ids[..last], items);
      assert exists i :: 0 <= i < last && front == items[ids[..last][i]].eventTime;
      assert forall i :: 0 <= i < last ==> front >= items[ids[..last][i]].eventTime;
      Max(front, items[ids[last]].eventTime)
  }

  /** The meta of the block that holds `ids`; a fresh one has the protocol buffer's zero times. */
  function MetaFor(index: nat, ids: seq<Id>, items: Items): Meta
    requires AllIn(ids, items)
  {
    if ids == [] then Meta(index, [], 0, 0) else Meta(index, ids, Earliest(ids, items), Latest(ids, items))
  }

  /** One more example widens the times just as far as needed. */
  lemma OneMore(index: nat, ids: seq<Id>, id: Id, items: Items)
    requires AllIn(ids, items) && id in items
    ensures AllIn(ids + [id], items)
    ensures Records(ids + [id], items) == Records(ids, items) + [items[id].record]
    ensures var t, m := items[id].eventTime, MetaFor(index, ids, items);
            MetaFor(index, ids + [id], items)
            == Meta(index, ids + [id],
                    if ids == [] then t else Min(m.startTime, t), if ids == [] then t else Max(m.endTime, t))
  {
    assert (ids + [id])[..|ids|] == ids;
  }
}

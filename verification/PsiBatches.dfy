/** Cutting an id list into batches for the wire, and the byte layout of one batch. */
module PsiBatches {

  type Bytes = seq<bv8>

  /** One EcdhPsiCipherBatch; `items` is its unmarshalled cipher list. */
  datatype Batch = Batch(index: nat, last: bool, items: seq<Bytes>)

  function Map<A, B>(f: A -> B, xs: seq<A>): (r: seq<B>)
    ensures |r| == |xs| && forall i :: 0 <= i < |xs| ==> r[i] == f(xs[i])
  {
    seq(|xs|, i requires 0 <= i < |xs| => f(xs[i]))
  }

  function Flatten<A>(xss: seq<seq<A>>): seq<A> {
    if xss == [] then [] else xss[0] + Flatten(xss[1..])
  }

  lemma {:induction false} FlattenAppend<A>(xss: seq<seq<A>>, yss: seq<seq<A>>)
    ensures Flatten(xss + yss) == Flatten(xss) + Flatten(yss)
  {
    if xss == [] {
      assert xss + yss == yss;
    } else {
      assert (xss + yss)[1..] == xss[1..] + yss;
      FlattenAppend(xss[1..], yss);
    }
  }

  lemma FlattenSnoc<A>(xss: seq<seq<A>>, k: nat)
    requires k < |xss|
    ensures Flatten(xss[..k + 1]) == Flatten(xss[..k]) + xss[k]
  {
    assert xss[..k + 1] == xss[..k] + [xss[k]];
    FlattenAppend(xss[..k], [xss[k]]);
    assert Flatten([xss[k]]) == xss[k] + Flatten<A>([]);
  }

  /** The batches for `xs`: slices of `size`, and a single empty batch for an empty list. */
  function Batches(xs: seq<Bytes>, size: nat, index: nat): (r: seq<Batch>)
    requires size >= 1
    ensures |r| >= 1
    decreases |xs|
  {
    if |xs| <= size then [Batch(index, true, xs)]
    else [Batch(index, false, xs[..size])] + Batches(xs[size..], size, index + 1)
  }

  function Items(bs: seq<Batch>): seq<seq<Bytes>> {
    Map((b: Batch) => b.items, bs)
  }

  /** The batches are numbered consecutively, only the final one carries the last flag, every other one is full,
      and together they are the whole list in order. */
  lemma {:induction false} BatchesCarryEverything(xs: seq<Bytes>, size: nat, index: nat)
    requires size >= 1
    ensures var bs := Batches(xs, size, index);
            && Flatten(Items(bs)) == xs
            && (forall i :: 0 <= i < |bs| ==> bs[i].index == index + i && (bs[i].last <==> i == |bs| - 1))
            && (forall i :: 0 <= i < |bs| - 1 ==> |bs[i].items| == size)
            && (xs != [] ==> forall i :: 0 <= i < |bs| ==> 1 <= |bs[i].items| <= size)
    decreases |xs|
  {
    var bs := Batches(xs, size, index);
    if |xs| <= size {
      assert Items(bs) == [xs];
      assert Flatten([xs]) == xs + Flatten<Bytes>([]);
    } else {
      BatchesCarryEverything(xs[size..], size, index + 1);
      assert Items(bs)[1..] == Items(bs[1..]);
      assert bs[1..] == Batches(xs[size..], size, index + 1);
      assert xs == xs[..size] + xs[size..];
    }
  }

  lemma BatchesStep(all: seq<Bytes>, size: nat, i: nat, index: nat)
    requires size >= 1 && i < |all|
    ensures var end := if i + size < |all| then i + size else |all|;
            && Batches(all[i..], size, index)[0] == Batch(index, i + size >= |all|, all[i..end])
            && Batches(all[i..], size, index)[1..]
               == if i + size < |all| then Batches(all[i + size..], size, index + 1) else []
  {
    if i + size < |all| {
      assert all[i..][size..] == all[i + size..] && all[i..][..size] == all[i..i + size];
    }
  }

  /** The encrypt-and-send loop of one party. */
  method CalcucipherAndSend(ids: seq<Bytes>, batch: nat, hashAndEncrypt: Bytes -> Bytes) returns (sent: seq<Batch>)
    requires batch >= 1
    ensures sent == Batches(Map(hashAndEncrypt, ids), batch, 0)
  {
    if |ids| == 0 {
      return [Batch(0, true, [])];
    }
    sent := [];
    var batchIndex, isLastBatch := 0, false;
    var i := 0;
    ghost var all := Map(hashAndEncrypt, ids);
    ghost var pending := Batches(all, batch, 0);
    assert all[0..] == all && [] + pending == pending;
    while i < |ids|
      invariant i < |ids| ==> !isLastBatch
      invariant pending == if i < |ids| then Batches(all[i..], batch, batchIndex) else []
      invariant Batches(all, batch, 0) == sent + pending
      decreases |ids| - i
    {
      BatchesStep(all, batch, i, batchIndex);
      var end := if i + batch < |ids| then i + batch else |ids|;
      var arr := ids[i..end];
      if i + batch >= |ids| {
        isLastBatch := true;
      }
      arr := Map(hashAndEncrypt, arr);
      assert arr == all[i..end];
      assert sent + pending == (sent + [pending[0]]) + pending[1..];
      sent := sent + [Batch(batchIndex, isLastBatch, arr)];
      pending := pending[1..];
      i := i + batch;
      batchIndex := batchIndex + 1;
    }
  }

  // ----- Byte layout -----

  /** The receiver's view of a ciphertext: `count` blocks of `len / count` bytes; a count of 0 is an empty list. */
  function Unmarshal(data: Bytes, count: nat): (r: seq<Bytes>)
    ensures |r| == count
  {
    if count == 0 then []
    else
      var blockSize := |data| / count;
      seq(count, i requires 0 <= i < count =>
        BlockInside(|data|, count, i);
        data[i * blockSize..i * blockSize + blockSize])
  }

  lemma BlockInside(len: nat, count: nat, i: nat)
    requires i < count
    ensures 0 <= i * (len / count) <= i * (len / count) + len / count <= len
  {
    var b := len / count;
    MulMono(i + 1, count, b);
    QuotientFits(len, count);
    Successor(i, b);
  }

  lemma MulMono(i: nat, j: nat, b: nat)
    requires i <= j
    ensures i * b <= j * b
  {
    calc {
      j * b;
      (i + (j - i)) * b;
      i * b + (j - i) * b;
    }
  }

  lemma QuotientFits(len: nat, count: nat)
    requires count > 0
    ensures count * (len / count) <= len
  {
  }

  lemma Successor(i: nat, b: nat)
    ensures (i + 1) * b == i * b + b
  {
  }

  method PointOctetUnmarshal(data: Bytes, count: nat) returns (build: seq<Bytes>)
    ensures build == Unmarshal(data, count)
  {
    build := [];
    if count == 0 {
      return;
    }
    var blockSize := |data| / count;
    for i := 0 to count
      invariant build == Unmarshal(data, count)[..i]
    {
      BlockInside(|data|, count, i);
      build := build + [data[i * blockSize..i * blockSize + blockSize]];
    }
  }

  /** What arrives of a batch: its ciphers are joined for the wire and cut up again by their count. */
  function OnWire(b: Batch): Batch {
    b.(items := Unmarshal(Flatten(b.items), |b.items|))
  }

  /** All ciphers have one width. */
  predicate EqualWidth(cs: seq<Bytes>) {
    forall i, j :: 0 <= i < |cs| && 0 <= j < |cs| ==> |cs[i]| == |cs[j]|
  }

  /** Block `i` of width `w`. */
  function Block(data: Bytes, w: nat, i: nat): Bytes
    requires i * w + w <= |data|
  {
    data[i * w..i * w + w]
  }

  lemma {:induction false} JoinedLength(cs: seq<Bytes>, w: nat)
    requires forall j :: 0 <= j < |cs| ==> |cs[j]| == w
    ensures |Flatten(cs)| == |cs| * w
  {
    if cs != [] {
      JoinedLength(cs[1..], w);
      assert |cs| * w == |cs[1..]| * w + w;
    }
  }

  lemma {:induction false} JoinedBlock(cs: seq<Bytes>, w: nat, i: nat)
    requires (forall j :: 0 <= j < |cs| ==> |cs[j]| == w) && i < |cs|
    ensures i * w + w <= |Flatten(cs)| && Block(Flatten(cs), w, i) == cs[i]
  {
    JoinedLength(cs[1..], w);
    if i == 0 {
      assert 0 * w == 0;
    } else {
      JoinedBlock(cs[1..], w, i - 1);
      assert i * w == (i - 1) * w + w;
      assert Block(Flatten(cs), w, i) == Block(Flatten(cs[1..]), w, i - 1);
    }
  }

  lemma ExactQuotient(n: nat, w: nat)
    requires n > 0
    ensures (n * w) / n == w
  {
    var q, r := (n * w) / n, (n * w) % n;
    assert n * w == n * q + r && 0 <= r < n;
    var d: int := w - q;
    assert n * d == r;
    assert d >= 1 ==> n * d >= n;
    assert d <= -1 ==> n * d + n <= 0;
  }

  lemma EqualWidthsSurvive(cs: seq<Bytes>)
    requires cs != [] && EqualWidth(cs)
    ensures Unmarshal(Flatten(cs), |cs|) == cs
  {
    var w := |cs[0]|;
    JoinedLength(cs, w);
    ExactQuotient(|cs|, w);
    forall i | 0 <= i < |cs|
      ensures Unmarshal(Flatten(cs), |cs|)[i] == cs[i]
    {
      JoinedBlock(cs, w, i);
    }
  }

  /** Joining a batch's ciphers and cutting them up by their count gives the batch back exactly when
      the ciphers all have one width; an empty batch always survives. */
  lemma WireRoundTrip(cs: seq<Bytes>)
    ensures Unmarshal(Flatten(cs), |cs|) == cs <==> EqualWidth(cs)
  {
    if cs != [] && EqualWidth(cs) {
      EqualWidthsSurvive(cs);
    } else if cs != [] && Unmarshal(Flatten(cs), |cs|) == cs {
      forall i | 0 <= i < |cs|
        ensures |cs[i]| == |Flatten(cs)| / |cs|
      {
        BlockInside(|Flatten(cs)|, |cs|, i);
      }
    }
  }

  /** So a batch arrives as it was sent exactly when its ciphers all have one width. */
  lemma BatchSurvives(b: Batch)
    ensures OnWire(b) == b <==> EqualWidth(b.items)
  {
    WireRoundTrip(b.items);
  }

  lemma {:induction false} PartsHaveOneWidth(xss: seq<seq<Bytes>>, i: nat)
    requires EqualWidth(Flatten(xss)) && i < |xss|
    ensures EqualWidth(xss[i])
  {
    var rest := Flatten(xss[1..]);
    if i == 0 {
      assert forall j :: 0 <= j < |xss[0]| ==> xss[0][j] == (xss[0] + rest)[j];
    } else {
      assert forall j :: 0 <= j < |rest| ==> rest[j] == (xss[0] + rest)[|xss[0]| + j];
      PartsHaveOneWidth(xss[1..], i - 1);
    }
  }
}

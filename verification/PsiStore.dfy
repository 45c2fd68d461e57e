/** The store one party's threads share: a queue of re-encrypted batches, the peer's cipher set, and the matches. */
module PsiStore {
  import opened Wrappers
  import opened PsiBatches

  /** The queue's contents over a whole run: each batch in turn, with a sentinel just before the last one. */
  function QueueStream(ds: seq<seq<Bytes>>): (r: seq<Option<seq<Bytes>>>)
    requires ds != []
    ensures |r| == |ds| + 1
    ensures forall i :: 0 <= i < |ds| - 1 ==> r[i] == Some(ds[i])
    ensures r[|ds| - 1] == None && r[|ds|] == Some(ds[|ds| - 1])
  {
    seq(|ds| + 1, i requires 0 <= i <= |ds| =>
      if i < |ds| - 1 then Some(ds[i]) else if i == |ds| - 1 then None else Some(ds[i - 1]))
  }

  /** The dual-cipher messages sent for a list of batches. */
  function DualBatches(ds: seq<seq<Bytes>>): (r: seq<Batch>)
    ensures |r| == |ds|
    ensures forall i :: 0 <= i < |ds| ==> r[i] == Batch(i, i == |ds| - 1, ds[i])
  {
    seq(|ds|, i requires 0 <= i < |ds| => Batch(i, i == |ds| - 1, ds[i]))
  }

  /** The ascending positions, counted from `base`, of the ciphers that belong to `peer`. */
  function MatchesFrom(base: nat, cs: seq<Bytes>, peer: set<Bytes>): (r: seq<nat>)
    ensures forall i :: i in r ==> base <= i < base + |cs|
    decreases |cs|
  {
    if cs == [] then [] else (if cs[0] in peer then [base] else []) + MatchesFrom(base + 1, cs[1..], peer)
  }

  lemma {:induction false} MatchesAppend(base: nat, cs: seq<Bytes>, ds: seq<Bytes>, peer: set<Bytes>)
    ensures MatchesFrom(base, cs + ds, peer) == MatchesFrom(base, cs, peer) + MatchesFrom(base + |cs|, ds, peer)
    decreases |cs|
  {
    if cs == [] {
      assert cs + ds == ds;
    } else {
      assert (cs + ds)[1..] == cs[1..] + ds;
      MatchesAppend(base + 1, cs[1..], ds, peer);
    }
  }

  predicate Ascending(s: seq<nat>) {
    forall i, j :: 0 <= i < j < |s| ==> s[i] < s[j]
  }

  lemma AscendingCons(x: nat, s: seq<nat>)
    requires Ascending(s) && forall y :: y in s ==> x < y
    ensures Ascending([x] + s)
  {
    forall i, j | 0 <= i < j < |[x] + s|
      ensures ([x] + s)[i] < ([x] + s)[j]
    {
      assert s[j - 1] in s;
      assert i > 0 ==> s[i - 1] < s[j - 1];
    }
  }

  lemma {:induction false} MatchesAscend(base: nat, cs: seq<Bytes>, peer: set<Bytes>)
    ensures Ascending(MatchesFrom(base, cs, peer))
    decreases |cs|
  {
    if cs != [] {
      var rest := MatchesFrom(base + 1, cs[1..], peer);
      MatchesAscend(base + 1, cs[1..], peer);
      AscendingCons(base, rest);
      assert [] + rest == rest;
    }
  }

  lemma {:induction false} MatchAt(base: nat, cs: seq<Bytes>, peer: set<Bytes>, k: nat)
    requires k < |cs|
    ensures base + k in MatchesFrom(base, cs, peer) <==> cs[k] in peer
    decreases |cs|
  {
    if k > 0 {
      MatchAt(base + 1, cs[1..], peer, k - 1);
      assert base + 1 + (k - 1) == base + k;
    }
  }

  /** The matches are strictly ascending and name exactly the positions whose cipher is in the set. */
  lemma MatchesAreThePositions(base: nat, cs: seq<Bytes>, peer: set<Bytes>)
    ensures var r := MatchesFrom(base, cs, peer);
            && Ascending(r)
            && (forall k :: 0 <= k < |cs| ==> (base + k in r <==> cs[k] in peer))
  {
    MatchesAscend(base, cs, peer);
    forall k: nat | k < |cs|
      ensures base + k in MatchesFrom(base, cs, peer) <==> cs[k] in peer
    {
      MatchAt(base, cs, peer, k);
    }
  }

  /** What the receiving thread puts into the queue for one re-encrypted batch. */
  function Puts(dual: seq<Bytes>, done: bool): seq<Option<seq<Bytes>>> {
    if done then [None, Some(dual)] else [Some(dual)]
  }

  /** What it adds to the peer set. */
  function Adds(dual: seq<Bytes>, recvs: bool): set<Bytes> {
    if recvs then set c | c in dual else {}
  }

  /** The queue after `g` gets, when it was `first` at the start. */
  ghost predicate GotSoFar(queue: seq<Option<seq<Bytes>>>, first: seq<Option<seq<Bytes>>>,
                           arrivals: seq<seq<Option<seq<Bytes>>>>, g: nat) {
    && g <= |arrivals| && g <= |first| + |Flatten(arrivals[..g])|
    && queue == (first + Flatten(arrivals[..g]))[g..]
  }

  /** When get number `g` returns, there was an element for it. */
  ghost predicate Fed(first: seq<Option<seq<Bytes>>>, arrivals: seq<seq<Option<seq<Bytes>>>>, g: nat)
    requires g < |arrivals|
  {
    g < |first| + |Flatten(arrivals[..g + 1])|
  }

  lemma TakeFront<A>(before: seq<A>, more: seq<A>, g: nat)
    requires g <= |before| && g < |before + more|
    ensures var filled, all := before[g..] + more, before + more;
            filled != [] && filled[0] == all[g] && filled[1..] == all[g + 1..]
  {
    assert before[g..] + more == (before + more)[g..];
  }

  lemma FlattenPrefix<A>(xss: seq<seq<A>>, k: nat)
    requires k <= |xss|
    ensures Flatten(xss[..k]) <= Flatten(xss)
  {
    FlattenAppend(xss[..k], xss[k..]);
    assert xss == xss[..k] + xss[k..];
  }

  /** A get takes element `g` of everything put so far and leaves what follows it. */
  lemma GetShifts(queue: seq<Option<seq<Bytes>>>, first: seq<Option<seq<Bytes>>>,
                  arrivals: seq<seq<Option<seq<Bytes>>>>, g: nat)
    requires g < |arrivals| && Fed(first, arrivals, g) && GotSoFar(queue, first, arrivals, g)
    ensures var filled, all := queue + arrivals[g], first + Flatten(arrivals);
            && filled != [] && g < |all| && filled[0] == all[g] && GotSoFar(filled[1..], first, arrivals, g + 1)
  {
    FlattenSnoc(arrivals, g);
    FlattenPrefix(arrivals, g + 1);
    var before := first + Flatten(arrivals[..g]);
    assert first + Flatten(arrivals[..g + 1]) == before + arrivals[g];
    TakeFront(before, arrivals[g], g);
  }

  class CipherStore {
    var peerCipher: seq<Option<seq<Bytes>>>
    var peerCipherSet: set<Bytes>
    var peerCipherSetDone: bool
    var localIndexRecord: nat
    var localTakeIndex: seq<nat>

    constructor ()
      ensures peerCipher == [] && peerCipherSet == {} && !peerCipherSetDone
      ensures localIndexRecord == 0 && localTakeIndex == []
    {
      peerCipher, peerCipherSet, peerCipherSetDone := [], {}, false;
      localIndexRecord, localTakeIndex := 0, [];
    }

    /** Re-encrypts one received batch, queues it for the dual sender and, if this party wants the result,
        adds it to the peer set. */
    method CalcuAddPeerCipher(received: seq<Bytes>, done: bool, diffieHellman: Bytes -> Bytes, needRecvCipher: bool)
      modifies this
      ensures var dual := Map(diffieHellman, received);
              && peerCipher == old(peerCipher) + Puts(dual, done)
              && peerCipherSet == old(peerCipherSet) + Adds(dual, needRecvCipher)
              && peerCipherSetDone == (old(peerCipherSetDone) || (needRecvCipher && done))
      ensures localIndexRecord == old(localIndexRecord) && localTakeIndex == old(localTakeIndex)
    {
      var dual := Map(diffieHellman, received);
      if done {
        peerCipher := peerCipher + [None];
      }
      peerCipher := peerCipher + [Some(dual)];
      if needRecvCipher {
        for i := 0 to |dual|
          invariant peerCipherSet == old(peerCipherSet) + set c | c in dual[..i]
          invariant peerCipher == old(peerCipher) + Puts(dual, done)
          invariant peerCipherSetDone == old(peerCipherSetDone)
          invariant localIndexRecord == old(localIndexRecord) && localTakeIndex == old(localTakeIndex)
        {
          peerCipherSet := peerCipherSet + {dual[i]};
          assert dual[..i + 1] == dual[..i] + [dual[i]];
        }
        assert dual[..|dual|] == dual;
        if done {
          peerCipherSetDone := true;
        }
      }
    }

    /** Takes batches from the queue up to the one after the sentinel, sending each marshalled as it is. The other
        thread fills the queue meanwhile: `arrivals[g]` is what it put before get number `g` returned, and a get
        waits until there is an element. */
    method SendDualenc(arrivals: seq<seq<Option<seq<Bytes>>>>, ghost ds: seq<seq<Bytes>>) returns (sent: seq<Batch>)
      requires ds != [] && |arrivals| == |ds| + 1
      requires QueueStream(ds) <= peerCipher + Flatten(arrivals)
      requires forall g :: 0 <= g <= |ds| ==> Fed(peerCipher, arrivals, g)
      modifies this
      ensures sent == DualBatches(ds)
      ensures peerCipher == (old(peerCipher) + Flatten(arrivals))[|ds| + 1..]
      ensures peerCipherSet == old(peerCipherSet) && peerCipherSetDone == old(peerCipherSetDone)
      ensures localIndexRecord == old(localIndexRecord) && localTakeIndex == old(localTakeIndex)
    {
      var batchIndex, isLastBatch := 0, false;
      sent := [];
      ghost var first := peerCipher;
      while !isLastBatch
        invariant batchIndex == |sent| <= |ds|
        invariant sent == DualBatches(ds)[..batchIndex]
        invariant isLastBatch <==> batchIndex == |ds|
        invariant GotSoFar(peerCipher, first, arrivals, if isLastBatch then |ds| + 1 else batchIndex)
        invariant peerCipherSet == old(peerCipherSet) && peerCipherSetDone == old(peerCipherSetDone)
        invariant localIndexRecord == old(localIndexRecord) && localTakeIndex == old(localTakeIndex)
        decreases |ds| - batchIndex
      {
        var arr := Get(arrivals, batchIndex, first, ds);
        if arr.None? {
          arr := Get(arrivals, batchIndex + 1, first, ds);
          isLastBatch := true;
        }
        sent := sent + [Batch(batchIndex, isLastBatch, arr.value)];
        batchIndex := batchIndex + 1;
      }
      assert arrivals[..|ds| + 1] == arrivals;
    }

    /** Get number `g`: the queue's element `g`, counted over the whole run. */
    method Get(arrivals: seq<seq<Option<seq<Bytes>>>>, g: nat, ghost first: seq<Option<seq<Bytes>>>,
               ghost ds: seq<seq<Bytes>>)
      returns (arr: Option<seq<Bytes>>)
      requires ds != [] && |arrivals| == |ds| + 1 && g <= |ds| && QueueStream(ds) <= first + Flatten(arrivals)
      requires Fed(first, arrivals, g) && GotSoFar(peerCipher, first, arrivals, g)
      modifies this`peerCipher
      ensures arr == QueueStream(ds)[g] && GotSoFar(peerCipher, first, arrivals, g + 1)
    {
      GetShifts(peerCipher, first, arrivals, g);
      peerCipher := peerCipher + arrivals[g];
      arr := peerCipher[0];
      peerCipher := peerCipher[1..];
    }

    /** Matches one batch of own dual ciphers, once the peer set is complete. */
    method RecvDuaencLocalCipher(received: seq<Bytes>)
      requires peerCipherSetDone
      modifies this`localIndexRecord, this`localTakeIndex
      ensures localIndexRecord == old(localIndexRecord) + |received|
      ensures localTakeIndex == old(localTakeIndex) + MatchesFrom(old(localIndexRecord), received, peerCipherSet)
    {
      for i := 0 to |received|
        invariant localIndexRecord == old(localIndexRecord) + i
        invariant localTakeIndex
               == old(localTakeIndex) + MatchesFrom(old(localIndexRecord), received[..i], peerCipherSet)
      {
        MatchesAppend(old(localIndexRecord), received[..i], [received[i]], peerCipherSet);
        assert received[..i + 1] == received[..i] + [received[i]];
        if received[i] in peerCipherSet {
          localTakeIndex := localTakeIndex + [localIndexRecord];
        }
        localIndexRecord := localIndexRecord + 1;
      }
      assert received[..|received|] == received;
    }
  }
}

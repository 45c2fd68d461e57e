/** A session between two id lists: what the receiving parties end up with, and the handshake before it. */
module PsiSession {
  import opened PsiBatches
  import opened PsiStore
  import opened PsiFlow

  /** Party `p` holds `inputs[p]` and the secret `keys[p]`; `mul` is the curve operation and `hash` the hash
      onto the curve. */
  datatype Session = Session(
    inputs: seq<seq<Bytes>>,
    keys: seq<Bytes>,
    hash: Bytes -> Bytes,
    mul: (Bytes, Bytes) -> Bytes,
    batch: nat,
    window: nat,
    sends: seq<bool>,
    recvs: seq<bool>)

  predicate ValidSession(c: Session) {
    && |c.inputs| == |c.keys| == |c.sends| == |c.recvs| == 2
    && c.batch >= 1 && c.window >= 1
    && c.sends[0] == c.recvs[1] && c.sends[1] == c.recvs[0]
  }

  function DhOf(c: Session, p: nat): Bytes -> Bytes
    requires ValidSession(c) && IsParty(p)
  {
    x => c.mul(KeyOf(c, p), x)
  }

  function EncryptOf(c: Session, p: nat): Bytes -> Bytes
    requires ValidSession(c) && IsParty(p)
  {
    x => c.mul(KeyOf(c, p), c.hash(x))
  }

  function KeyOf(c: Session, p: nat): Bytes {
    if p < |c.keys| then c.keys[p] else []
  }

  function MainOf(c: Session, p: nat): seq<Batch>
    requires ValidSession(c) && IsParty(p)
  {
    Batches(Map(EncryptOf(c, p), c.inputs[p]), c.batch, 0)
  }

  function DualOf(c: Session, p: nat): seq<seq<Bytes>>
    requires ValidSession(c) && IsParty(p)
  {
    MapAll(DhOf(c, p), Items(MainOf(c, 1 - p)))
  }

  function MapAll(f: Bytes -> Bytes, xss: seq<seq<Bytes>>): seq<seq<Bytes>> {
    Map((xs: seq<Bytes>) => Map(f, xs), xss)
  }

  function FlowOf(c: Session): Flow
    requires ValidSession(c)
  {
    Flow([Plan(MainOf(c, 0), DhOf(c, 0), DualOf(c, 0), c.sends[0], c.recvs[0]),
          Plan(MainOf(c, 1), DhOf(c, 1), DualOf(c, 1), c.sends[1], c.recvs[1])], c.window)
  }

  lemma {:induction false} FlattenMapAll(f: Bytes -> Bytes, xss: seq<seq<Bytes>>)
    ensures Flatten(MapAll(f, xss)) == Map(f, Flatten(xss))
  {
    if xss != [] {
      FlattenMapAll(f, xss[1..]);
      assert MapAll(f, xss)[1..] == MapAll(f, xss[1..]);
    }
  }

  /** An id encrypted first by party `p` and then by its peer. */
  function Dual(c: Session, p: nat, id: Bytes): Bytes
    requires IsParty(p)
  {
    c.mul(KeyOf(c, 1 - p), c.mul(KeyOf(c, p), c.hash(id)))
  }

  /** The dual ciphers of party `p`'s ids, in order. */
  lemma DualsInOrder(c: Session, p: nat)
    requires ValidSession(c) && IsParty(p)
    ensures Flatten(DualOf(c, 1 - p)) == Map((id: Bytes) => Dual(c, p, id), c.inputs[p])
  {
    var enc := Map(EncryptOf(c, p), c.inputs[p]);
    BatchesCarryEverything(enc, c.batch, 0);
    FlattenMapAll(DhOf(c, 1 - p), Items(MainOf(c, p)));
  }

  /** The two encryptions commute on the ids of this session (the role of section 6.1 of RFC 7748). */
  ghost predicate Commutes(c: Session)
    requires |c.inputs| == 2
  {
    forall id :: id in c.inputs[0] + c.inputs[1] ==> Dual(c, 0, id) == Dual(c, 1, id)
  }

  /** Hash and double encryption keep different ids of this session apart. */
  ghost predicate Injective(c: Session)
    requires |c.inputs| == 2
  {
    forall a, b :: a in c.inputs[0] + c.inputs[1] && b in c.inputs[0] + c.inputs[1] && Dual(c, 0, a) == Dual(c, 0, b)
                   ==> a == b
  }

  /** The dual ciphers a party's own ids, or the peer's ids, end up as. */
  function Duals(c: Session, p: nat): seq<Bytes>
    requires ValidSession(c) && IsParty(p)
  {
    Map((id: Bytes) => Dual(c, p, id), c.inputs[p])
  }

  /** The wire format needs it: all ciphers one party sends for its own ids have one width, and so have all it sends
      back. A curve point in a fixed octet format does. */
  ghost predicate OneWidth(c: Session)
    requires ValidSession(c)
  {
    && EqualWidth(Map(EncryptOf(c, 0), c.inputs[0])) && EqualWidth(Duals(c, 0))
    && EqualWidth(Map(EncryptOf(c, 1), c.inputs[1])) && EqualWidth(Duals(c, 1))
  }

  lemma MainWidths(c: Session, p: nat)
    requires ValidSession(c) && OneWidth(c) && IsParty(p)
    ensures forall i :: 0 <= i < |MainOf(c, p)| ==> EqualWidth(MainOf(c, p)[i].items)
  {
    var main := MainOf(c, p);
    BatchesCarryEverything(Map(EncryptOf(c, p), c.inputs[p]), c.batch, 0);
    forall i | 0 <= i < |main|
      ensures EqualWidth(main[i].items)
    {
      PartsHaveOneWidth(Items(main), i);
    }
  }

  lemma DualWidths(c: Session, p: nat)
    requires ValidSession(c) && OneWidth(c) && IsParty(p)
    ensures forall i :: 0 <= i < |DualOf(c, p)| ==> EqualWidth(DualOf(c, p)[i])
  {
    var dual := DualOf(c, p);
    DualsInOrder(c, 1 - p);
    assert EqualWidth(Flatten(dual));
    forall i | 0 <= i < |dual|
      ensures EqualWidth(dual[i])
    {
      PartsHaveOneWidth(dual, i);
    }
  }

  lemma FlowIsValid(c: Session)
    requires ValidSession(c) && OneWidth(c)
    ensures ValidFlow(FlowOf(c))
  {
    BatchesCarryEverything(Map(EncryptOf(c, 0), c.inputs[0]), c.batch, 0);
    BatchesCarryEverything(Map(EncryptOf(c, 1), c.inputs[1]), c.batch, 0);
    MainWidths(c, 0);
    MainWidths(c, 1);
    DualWidths(c, 0);
    DualWidths(c, 1);
  }

  lemma FinishedTakes(c: Session, w: seq<Party>, p: nat)
    requires ValidSession(c) && OneWidth(c) && IsParty(p) && c.recvs[p]
    requires |w| == 2 && Reachable(FlowOf(c), w) && Finished(FlowOf(c), w)
    ensures w[p].takeIndex == MatchesFrom(0, Duals(c, p), SetOf(Duals(c, 1 - p)))
  {
    FlowIsValid(c);
    FinishedMatches(FlowOf(c), w, p);
    DualsInOrder(c, p);
    DualsInOrder(c, 1 - p);
  }

  /** `take` lists, in ascending order, the positions of party `p`'s ids that occur in the peer's input. */
  ghost predicate IsIntersection(c: Session, p: nat, take: seq<nat>)
    requires ValidSession(c) && IsParty(p)
  {
    && Ascending(take)
    && (forall k: nat :: k in take <==> k < |c.inputs[p]| && c.inputs[p][k] in c.inputs[1 - p])
  }

  lemma DualsIntersect(c: Session, p: nat)
    requires ValidSession(c) && Commutes(c) && Injective(c) && IsParty(p)
    ensures IsIntersection(c, p, MatchesFrom(0, Duals(c, p), SetOf(Duals(c, 1 - p))))
  {
    var mine, peer := Duals(c, p), SetOf(Duals(c, 1 - p));
    MatchesAreThePositions(0, mine, peer);
    forall k: nat
      ensures k in MatchesFrom(0, mine, peer) <==> k < |c.inputs[p]| && c.inputs[p][k] in c.inputs[1 - p]
    {
      if k < |c.inputs[p]| {
        DualMembership(c, p, k);
        assert 0 + k in MatchesFrom(0, mine, peer) <==> mine[k] in peer;
      }
    }
  }

  /** For every interleaving of both parties' threads, every batch size and every throttle window: when all threads
      have returned, a receiving party's take index is exactly its intersection with the peer's input. */
  lemma SessionResult(c: Session, w: seq<Party>, p: nat)
    requires ValidSession(c) && OneWidth(c) && Commutes(c) && Injective(c) && IsParty(p) && c.recvs[p]
    requires |w| == 2 && Reachable(FlowOf(c), w) && Finished(FlowOf(c), w)
    ensures IsIntersection(c, p, w[p].takeIndex)
  {
    FinishedTakes(c, w, p);
    DualsIntersect(c, p);
  }

  lemma DualMembership(c: Session, p: nat, k: nat)
    requires ValidSession(c) && Commutes(c) && Injective(c) && IsParty(p) && k < |c.inputs[p]|
    ensures Dual(c, p, c.inputs[p][k]) in Duals(c, 1 - p)
            <==> c.inputs[p][k] in c.inputs[1 - p]
  {
    var id := c.inputs[p][k];
    var theirs := Duals(c, 1 - p);
    if Dual(c, p, id) in theirs {
      var j :| 0 <= j < |theirs| && theirs[j] == Dual(c, p, id);
      assert c.inputs[1 - p][j] in c.inputs[1 - p];
      assert Dual(c, 0, id) == Dual(c, 0, c.inputs[1 - p][j]);
    }
    if id in c.inputs[1 - p] {
      var j :| 0 <= j < |c.inputs[1 - p]| && c.inputs[1 - p][j] == id;
      assert theirs[j] == Dual(c, p, id);
    }
  }
}

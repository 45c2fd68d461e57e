/** Negotiating a session: what both parties agreed to, and who receives the result. */
module PsiHandshake {
  import opened Wrappers
  import opened PsiBatches
  import opened PsiStore
  import opened PsiFlow
  import opened PsiSession

  datatype Suite = Suite(curve: int, hash: int, hashToCurve: int)

  datatype EccProposal = EccProposal(versions: seq<int>, suites: seq<Suite>, formats: seq<int>, truncation: bool)

  /** A HandshakeRequest with its packed parameters unpacked. */
  datatype Request = Request(
    version: int,
    algos: seq<int>,
    families: seq<int>,
    ecc: seq<EccProposal>,
    ioVersions: seq<int>,
    resultToRank: int)

  datatype Response = Response(
    algo: int,
    ioVersion: int,
    family: int,
    eccVersion: int,
    suite: Suite,
    format: int,
    resultToRank: int)

  datatype Refusal = UnsupportedVersion | UnsupportedAlgo | UnsupportedParams

  datatype Result<+T> = Agreed(value: T) | Refused(why: Refusal)

  const ALGO_ECDH_PSI: int := 1
  const FAMILY_ECC: int := 1
  const SENDER_RANK: int := 0
  const RECEIVER_RANK: int := 1

  /** What `make_handshake_request` proposes: exactly one value for everything negotiable. */
  predicate MadeByContext(r: Request) {
    && r.algos == [ALGO_ECDH_PSI] && r.families == [FAMILY_ECC] && r.ioVersions == [1] && r.version == 1
    && |r.ecc| == 1 && r.ecc[0].versions == [1] && |r.ecc[0].suites| == 1 && |r.ecc[0].formats| == 1
    && !r.ecc[0].truncation
  }

  predicate InAll<T(==, !new)>(x: T, lists: seq<seq<T>>) {
    forall l :: l in lists ==> x in l
  }

  /** The members of the first list that all the others have, in the first list's order. */
  function Common<T(==, !new)>(first: seq<T>, others: seq<seq<T>>): (r: seq<T>)
    ensures forall x :: x in r <==> x in first && InAll(x, others)
  {
    if first == [] then []
    else (if InAll(first[0], others) then [first[0]] else []) + Common(first[1..], others)
  }

  lemma {:induction false} CommonAppend<T(!new)>(first: seq<T>, x: T, others: seq<seq<T>>)
    ensures Common(first + [x], others) == Common(first, others) + (if InAll(x, others) then [x] else [])
  {
    assert (first + [x])[0] == if first == [] then x else first[0];
    assert (first + [x])[1..] == if first == [] then [] else first[1..] + [x];
    if first != [] {
      CommonAppend(first[1..], x, others);
    }
  }

  /** The list case for elements that cannot be hashed. */
  method Intersection<T(==, !new)>(first: seq<T>, others: seq<seq<T>>) returns (r: seq<T>)
    ensures r == Common(first, others)
  {
    r := [];
    for i := 0 to |first|
      invariant r == Common(first[..i], others)
    {
      var isCommon := true;
      var j := 0;
      while j < |others|
        invariant 0 <= j <= |others|
        invariant isCommon && forall k :: 0 <= k < j ==> first[i] in others[k]
      {
        if first[i] !in others[j] {
          isCommon := false;
          break;
        }
        j := j + 1;
      }
      CommonAppend(first[..i], first[i], others);
      assert first[..i + 1] == first[..i] + [first[i]];
      assert isCommon <==> InAll(first[i], others);
      if isCommon {
        r := r + [first[i]];
      }
    }
    assert first[..|first|] == first;
  }

  /** The values all lists share; the source turns such a set into a list in no particular order. */
  function CommonSet(first: seq<int>, others: seq<seq<int>>): set<int> {
    set x | x in first && forall o :: o in others ==> x in o
  }

  /** The element that ends up first when a set is turned into a list. */
  method AnyOf(s: set<int>) returns (x: int)
    requires s != {}
    ensures x in s
  {
    assert (forall v :: v !in s) ==> s == {};
    x :| x in s;
  }

  function Versions(ps: seq<EccProposal>): seq<seq<int>> { Map((p: EccProposal) => p.versions, ps) }
  function Suites(ps: seq<EccProposal>): seq<seq<Suite>> { Map((p: EccProposal) => p.suites, ps) }
  function Formats(ps: seq<EccProposal>): seq<seq<int>> { Map((p: EccProposal) => p.formats, ps) }

  /** The first thing the two requests cannot agree on, in the order the receiving rank looks. */
  function Problem(own: Request, peer: Request): Option<Refusal>
    requires own.ecc != []
  {
    var first, rest := own.ecc[0], own.ecc[1..] + peer.ecc;
    if own.version != peer.version then Some(UnsupportedVersion)
    else if !(ALGO_ECDH_PSI in own.algos && ALGO_ECDH_PSI in peer.algos) then Some(UnsupportedAlgo)
    else if forall v :: v in own.ioVersions ==> v !in peer.ioVersions then Some(UnsupportedVersion)
    else if own.resultToRank != peer.resultToRank then Some(UnsupportedParams)
    else if !(FAMILY_ECC in own.families && FAMILY_ECC in peer.families) then Some(UnsupportedParams)
    else if CommonSet(first.versions, Versions(rest)) == {} then Some(UnsupportedVersion)
    else if Common(first.suites, Suites(rest)) == [] then Some(UnsupportedParams)
    else if CommonSet(first.formats, Formats(rest)) == {} then Some(UnsupportedParams)
    else if forall p :: p in own.ecc + peer.ecc ==> p.truncation then Some(UnsupportedParams)
    else None
  }

  /** All of the peer's curve proposals list this party's single version, suite or format. */
  predicate VersionInAll(own: EccProposal, ps: seq<EccProposal>) {
    forall p :: p in ps ==> own.versions != [] && own.versions[0] in p.versions
  }

  predicate SuiteInAll(own: EccProposal, ps: seq<EccProposal>) {
    forall p :: p in ps ==> own.suites != [] && own.suites[0] in p.suites
  }

  predicate FormatInAll(own: EccProposal, ps: seq<EccProposal>) {
    forall p :: p in ps ==> own.formats != [] && own.formats[0] in p.formats
  }

  lemma VersionsFit(v: int, ps: seq<EccProposal>)
    ensures CommonSet([v], Versions(ps)) == {} <==> exists p :: p in ps && v !in p.versions
  {
    var lists := Versions(ps);
    assert forall i :: 0 <= i < |ps| ==> lists[i] == ps[i].versions;
    if p :| p in ps && v !in p.versions {
      var i :| 0 <= i < |ps| && ps[i] == p;
      assert lists[i] in lists;
    } else {
      assert v in CommonSet([v], lists);
    }
  }

  lemma FormatsFit(f: int, ps: seq<EccProposal>)
    ensures CommonSet([f], Formats(ps)) == {} <==> exists p :: p in ps && f !in p.formats
  {
    var lists := Formats(ps);
    assert forall i :: 0 <= i < |ps| ==> lists[i] == ps[i].formats;
    if p :| p in ps && f !in p.formats {
      var i :| 0 <= i < |ps| && ps[i] == p;
      assert lists[i] in lists;
    } else {
      assert f in CommonSet([f], lists);
    }
  }

  lemma SuitesFit(s: Suite, ps: seq<EccProposal>)
    ensures Common([s], Suites(ps)) == [] <==> exists p :: p in ps && s !in p.suites
  {
    var lists := Suites(ps);
    assert forall i :: 0 <= i < |ps| ==> lists[i] == ps[i].suites;
    if p :| p in ps && s !in p.suites {
      var i :| 0 <= i < |ps| && ps[i] == p;
      assert lists[i] in lists;
      assert forall x :: x !in Common([s], lists);
    } else {
      assert s in Common([s], lists);
    }
  }

  lemma CurvesFit(own: EccProposal, ps: seq<EccProposal>)
    requires |own.versions| == |own.suites| == |own.formats| == 1
    ensures CommonSet(own.versions, Versions(ps)) == {} <==> !VersionInAll(own, ps)
    ensures Common(own.suites, Suites(ps)) == [] <==> !SuiteInAll(own, ps)
    ensures CommonSet(own.formats, Formats(ps)) == {} <==> !FormatInAll(own, ps)
  {
    assert own.versions == [own.versions[0]] && own.suites == [own.suites[0]] && own.formats == [own.formats[0]];
    VersionsFit(own.versions[0], ps);
    SuitesFit(own.suites[0], ps);
    FormatsFit(own.formats[0], ps);
  }

  /** For what this repository proposes: the first thing of the peer's request that does not fit, on its lists. */
  lemma ProblemMeans(own: Request, peer: Request)
    requires MadeByContext(own)
    ensures Problem(own, peer) ==
            if peer.version != 1 then Some(UnsupportedVersion)
            else if 1 !in peer.algos then Some(UnsupportedAlgo)
            else if 1 !in peer.ioVersions then Some(UnsupportedVersion)
            else if peer.resultToRank != own.resultToRank then Some(UnsupportedParams)
            else if 1 !in peer.families then Some(UnsupportedParams)
            else if !VersionInAll(own.ecc[0], peer.ecc) then Some(UnsupportedVersion)
            else if !SuiteInAll(own.ecc[0], peer.ecc) || !FormatInAll(own.ecc[0], peer.ecc) then Some(UnsupportedParams)
            else None
  {
    CurvesFit(own.ecc[0], peer.ecc);
    assert own.ecc[1..] + peer.ecc == peer.ecc;
    assert own.ecc[0] in own.ecc + peer.ecc;
  }

  /** Two requests of this repository agree exactly when they propose the same suite, format and receiver. */
  lemma SameProposalsAgree(own: Request, peer: Request)
    requires MadeByContext(own) && MadeByContext(peer)
    ensures Problem(own, peer) ==
            if own.ecc[0].suites == peer.ecc[0].suites && own.ecc[0].formats == peer.ecc[0].formats
               && own.resultToRank == peer.resultToRank
            then None else Some(UnsupportedParams)
  {
    ProblemMeans(own, peer);
    assert peer.ecc[0] in peer.ecc && forall p :: p in peer.ecc ==> p == peer.ecc[0];
  }

  /** Everything chosen is in every proposal of both parties. */
  ghost predicate AgreedOn(own: Request, peer: Request, rsp: Response) {
    && own.version == peer.version
    && rsp.algo in own.algos && rsp.algo in peer.algos
    && rsp.ioVersion in own.ioVersions && rsp.ioVersion in peer.ioVersions
    && rsp.family in own.families && rsp.family in peer.families
    && (forall p :: p in own.ecc || p in peer.ecc ==>
          rsp.eccVersion in p.versions && rsp.suite in p.suites && rsp.format in p.formats)
    && rsp.resultToRank == own.resultToRank == peer.resultToRank
  }

  /** A party that proposes one value for everything can only agree to its own. */
  lemma ChosenIsOwn(own: Request, peer: Request, rsp: Response)
    requires MadeByContext(own) && AgreedOn(own, peer, rsp)
    ensures rsp == Response(1, 1, 1, 1, own.ecc[0].suites[0], own.ecc[0].formats[0], own.resultToRank)
  {
    assert own.ecc[0] in own.ecc;
  }

  predicate Sends(rank: int, resultToRank: int) {
    resultToRank == -1 || rank == SENDER_RANK
  }

  predicate Receives(rank: int, resultToRank: int) {
    resultToRank == -1 || rank != SENDER_RANK
  }

  class Context {
    const rank: int
    const request: Request
    var needRecvCipher: bool
    var needSendCipher: bool

    constructor (rank: int, suite: Suite, format: int, resultToRank: int)
      ensures this.rank == rank && !needRecvCipher && !needSendCipher
      ensures MadeByContext(request) && request.resultToRank == resultToRank
    {
      this.rank := rank;
      request := Request(1, [ALGO_ECDH_PSI], [FAMILY_ECC], [EccProposal([1], [suite], [format], false)], [1], resultToRank);
      needRecvCipher, needSendCipher := false, false;
    }

    /** Fixes this party's duties from its own rank and its own idea of who gets the result. */
    method ResetFromResponse(rsp: Response)
      requires !needRecvCipher && !needSendCipher
      modifies this
      ensures needSendCipher == Sends(rank, request.resultToRank)
      ensures needRecvCipher == Receives(rank, request.resultToRank)
    {
      if request.resultToRank == -1 {
        needRecvCipher := true;
        needSendCipher := true;
      } else if rank == SENDER_RANK {
        needSendCipher := true;
      } else {
        needRecvCipher := true;
      }
    }

    /** The receiving rank's side of the handshake. Set intersections come back in no particular order,
        so any common version may be chosen; suites keep this party's order. */
    method NegotiateHandshake(req: Request) returns (result: Result<Response>)
      requires MadeByContext(request) && !needRecvCipher && !needSendCipher
      modifies this
      ensures result.Agreed? ==> Problem(request, req) == None && AgreedOn(request, req, result.value)
      ensures result.Refused? ==> Problem(request, req) == Some(result.why)
      ensures result.Agreed? ==>
        result.value == Response(1, 1, 1, 1, request.ecc[0].suites[0], request.ecc[0].formats[0], request.resultToRank)
      ensures needSendCipher == (result.Agreed? && Sends(rank, request.resultToRank))
      ensures needRecvCipher == (result.Agreed? && Receives(rank, request.resultToRank))
    {
      if request.version + req.version != 2 * request.version {
        return Refused(UnsupportedVersion);
      }
      if ALGO_ECDH_PSI !in CommonSet(request.algos, [req.algos]) {
        return Refused(UnsupportedAlgo);
      }
      var ioVersions := CommonSet(request.ioVersions, [req.ioVersions]);
      if ioVersions == {} {
        assert forall v :: v in request.ioVersions && v in req.ioVersions ==> v in ioVersions;
        return Refused(UnsupportedVersion);
      }
      var ioVersion := AnyOf(ioVersions);
      if request.resultToRank + req.resultToRank != 2 * request.resultToRank {
        return Refused(UnsupportedParams);
      }
      if FAMILY_ECC !in CommonSet(request.families, [req.families]) {
        return Refused(UnsupportedParams);
      }
      assert request.ecc[1..] + req.ecc == (request.ecc + req.ecc)[1..];
      result := NegotiateCurve(request.ecc + req.ecc, ioVersion);
      if result.Agreed? {
        assert forall p :: p in request.ecc || p in req.ecc ==> p in request.ecc + req.ecc;
        ResetFromResponse(result.value);
        ChosenIsOwn(request, req, result.value);
      }
    }

    /** The part of the negotiation about the curve parameters of all proposals. */
    method NegotiateCurve(params: seq<EccProposal>, ioVersion: int) returns (result: Result<Response>)
      requires params != []
      ensures result.Agreed? ==>
        var r := result.value;
        && r == Response(ALGO_ECDH_PSI, ioVersion, FAMILY_ECC, r.eccVersion, r.suite, r.format, request.resultToRank)
        && forall p :: p in params ==> r.eccVersion in p.versions && r.suite in p.suites && r.format in p.formats
      ensures
        var first, rest := params[0], params[1..];
        var versions, formats := CommonSet(first.versions, Versions(rest)), CommonSet(first.formats, Formats(rest));
        if versions == {} then result == Refused(UnsupportedVersion)
        else if Common(first.suites, Suites(rest)) == [] || formats == {} || forall p :: p in params ==> p.truncation
        then result == Refused(UnsupportedParams)
        else result.Agreed?
    {
      var first, rest := params[0], params[1..];
      var versions := CommonSet(first.versions, Versions(rest));
      if versions == {} {
        return Refused(UnsupportedVersion);
      }
      var eccVersion := AnyOf(versions);
      var suites := Intersection(first.suites, Suites(rest));
      if suites == [] {
        return Refused(UnsupportedParams);
      }
      var formats := CommonSet(first.formats, Formats(rest));
      if formats == {} {
        return Refused(UnsupportedParams);
      }
      var format := AnyOf(formats);
      if forall p :: p in params ==> p.truncation {
        return Refused(UnsupportedParams);
      }
      forall i | 0 <= i < |params|
        ensures eccVersion in params[i].versions && suites[0] in params[i].suites && format in params[i].formats
      {
        assert suites[0] in suites;
        if i > 0 {
          assert rest[i - 1] == params[i];
          assert Versions(rest)[i - 1] in Versions(rest) && Suites(rest)[i - 1] in Suites(rest);
          assert Formats(rest)[i - 1] in Formats(rest);
        }
      }
      return Agreed(Response(ALGO_ECDH_PSI, ioVersion, FAMILY_ECC, eccVersion, suites[0], format, request.resultToRank));
    }
  }

  /** Once both parties agree on who gets the result, one sends dual ciphers exactly when the other receives them. */
  lemma DutiesFit(own: Request, peer: Request)
    requires own.ecc != [] && Problem(own, peer) == None
    ensures Sends(SENDER_RANK, peer.resultToRank) == Receives(RECEIVER_RANK, own.resultToRank)
    ensures Sends(RECEIVER_RANK, own.resultToRank) == Receives(SENDER_RANK, peer.resultToRank)
  {
  }

  predicate ReceivesAsNamed(rank: int, resultToRank: int) {
    Receives(rank, resultToRank) <==> resultToRank == -1 || resultToRank == rank
  }

  /** The result reaches exactly the rank the requests name (or both, for -1) if and only if they do not name rank 0:
      then rank 1 still receives it and rank 0 does not. */
  lemma NamedRankReceives(resultToRank: int)
    requires -1 <= resultToRank <= 1
    ensures ReceivesAsNamed(SENDER_RANK, resultToRank) && ReceivesAsNamed(RECEIVER_RANK, resultToRank)
            <==> resultToRank != SENDER_RANK
  {
  }

  // ----- Results with send-back -----

  predicate InRange(ids: seq<Bytes>, take: seq<nat>) {
    forall i :: 0 <= i < |take| ==> take[i] < |ids|
  }

  /** The ids a party takes. */
  function Taken(ids: seq<Bytes>, take: seq<nat>): (r: seq<Bytes>)
    requires InRange(ids, take)
    ensures |r| == |take| && forall i :: 0 <= i < |take| ==> r[i] == ids[take[i]]
  {
    seq(|take|, i requires 0 <= i < |take| => ids[take[i]])
  }

  predicate NoDuplicates(ids: seq<Bytes>) {
    forall i, j :: 0 <= i < j < |ids| ==> ids[i] != ids[j]
  }

  lemma TakenIds(c: Session, p: nat, take: seq<nat>)
    requires ValidSession(c) && IsParty(p) && IsIntersection(c, p, take)
    ensures InRange(c.inputs[p], take)
    ensures SetOf(Taken(c.inputs[p], take)) == SetOf(c.inputs[0]) * SetOf(c.inputs[1])
    ensures NoDuplicates(c.inputs[p]) ==> NoDuplicates(Taken(c.inputs[p], take))
  {
    var ids := c.inputs[p];
    assert forall i :: 0 <= i < |take| ==> take[i] in take;
    forall id | id in ids && id in c.inputs[1 - p]
      ensures id in Taken(ids, take)
    {
      var k :| 0 <= k < |ids| && ids[k] == id;
      assert k in take;
      var i :| 0 <= i < |take| && take[i] == k;
      assert Taken(ids, take)[i] == id;
    }
  }

  lemma {:induction false} SizeOfSet(ids: seq<Bytes>)
    requires NoDuplicates(ids)
    ensures |SetOf(ids)| == |ids|
  {
    if ids != [] {
      var last := |ids| - 1;
      SizeOfSet(ids[..last]);
      assert SetOf(ids) == SetOf(ids[..last]) + {ids[last]};
      assert ids[last] !in ids[..last];
    }
  }

  /** With send-back both parties end up with the same set of ids, and with equally many rows when neither
      input repeats an id. */
  lemma BothPartiesAgree(c: Session, w: seq<Party>)
    requires ValidSession(c) && OneWidth(c) && Commutes(c) && Injective(c) && c.recvs[0] && c.recvs[1]
    requires |w| == 2 && Reachable(FlowOf(c), w) && Finished(FlowOf(c), w)
    ensures InRange(c.inputs[0], w[0].takeIndex) && InRange(c.inputs[1], w[1].takeIndex)
    ensures SetOf(Taken(c.inputs[0], w[0].takeIndex)) == SetOf(Taken(c.inputs[1], w[1].takeIndex))
    ensures NoDuplicates(c.inputs[0]) && NoDuplicates(c.inputs[1]) ==> |w[0].takeIndex| == |w[1].takeIndex|
  {
    SessionResult(c, w, 0);
    SessionResult(c, w, 1);
    TakenIds(c, 0, w[0].takeIndex);
    TakenIds(c, 1, w[1].takeIndex);
    if NoDuplicates(c.inputs[0]) && NoDuplicates(c.inputs[1]) {
      SizeOfSet(Taken(c.inputs[0], w[0].takeIndex));
      SizeOfSet(Taken(c.inputs[1], w[1].takeIndex));
    }
  }

  // ----- From the handshake to the session -----

  /** Both ranks' side of the handshake. A refusal raises at the receiving rank, and no response is sent. */
  method ShakehandFlow(sender: Context, receiver: Context) returns (result: Result<Response>)
    requires sender != receiver && sender.rank == SENDER_RANK && receiver.rank == RECEIVER_RANK
    requires MadeByContext(sender.request) && MadeByContext(receiver.request)
    requires !sender.needRecvCipher && !sender.needSendCipher && !receiver.needRecvCipher && !receiver.needSendCipher
    modifies sender, receiver
    ensures var mine, theirs := receiver.request.ecc[0], sender.request.ecc[0];
            result == if mine.suites == theirs.suites && mine.formats == theirs.formats
                         && receiver.request.resultToRank == sender.request.resultToRank
                      then Agreed(Response(1, 1, 1, 1, mine.suites[0], mine.formats[0], receiver.request.resultToRank))
                      else Refused(UnsupportedParams)
    ensures result.Agreed? <==> Problem(receiver.request, sender.request) == None
    ensures result.Agreed? ==> AgreedOn(receiver.request, sender.request, result.value)
    ensures sender.needSendCipher == receiver.needRecvCipher == result.Agreed?
    ensures sender.needRecvCipher == receiver.needSendCipher == (result.Agreed? && receiver.request.resultToRank == -1)
  {
    SameProposalsAgree(receiver.request, sender.request);
    result := receiver.NegotiateHandshake(sender.request);
    if result.Agreed? {
      sender.ResetFromResponse(result.value);
    }
  }

  /** The session of two parties whose duties come from their own requests. */
  function Negotiated(sender: Request, receiver: Request, c: Session): Session {
    c.(sends := [Sends(SENDER_RANK, sender.resultToRank), Sends(RECEIVER_RANK, receiver.resultToRank)],
       recvs := [Receives(SENDER_RANK, sender.resultToRank), Receives(RECEIVER_RANK, receiver.resultToRank)])
  }

  /** An agreed handshake makes the duties of a session fit, whatever inputs, keys and batch size. */
  lemma NegotiatedIsValid(sender: Request, receiver: Request, c: Session)
    requires receiver.ecc != [] && Problem(receiver, sender) == None
    requires |c.inputs| == |c.keys| == 2 && c.batch >= 1 && c.window >= 1
    ensures ValidSession(Negotiated(sender, receiver, c))
  {
    DutiesFit(receiver, sender);
  }

  /** After an agreed handshake a finished session gives rank 1 its intersection; with send-back rank 0 gets its own,
      and both hold the same ids, while otherwise rank 0 receives nothing. */
  lemma NegotiatedResult(sender: Request, receiver: Request, c: Session, w: seq<Party>)
    requires receiver.ecc != [] && Problem(receiver, sender) == None
    requires |c.inputs| == |c.keys| == 2 && c.batch >= 1 && c.window >= 1
    ensures ValidSession(Negotiated(sender, receiver, c))
    ensures var n := Negotiated(sender, receiver, c);
            OneWidth(n) && Commutes(n) && Injective(n)
            && |w| == 2 && Reachable(FlowOf(n), w) && Finished(FlowOf(n), w) ==>
              && IsIntersection(n, 1, w[1].takeIndex)
              && (receiver.resultToRank != -1 ==> !n.recvs[0])
              && (receiver.resultToRank == -1 ==>
                    && IsIntersection(n, 0, w[0].takeIndex)
                    && InRange(n.inputs[0], w[0].takeIndex) && InRange(n.inputs[1], w[1].takeIndex)
                    && SetOf(Taken(n.inputs[0], w[0].takeIndex)) == SetOf(Taken(n.inputs[1], w[1].takeIndex)))
  {
    NegotiatedIsValid(sender, receiver, c);
    var n := Negotiated(sender, receiver, c);
    if OneWidth(n) && Commutes(n) && Injective(n) && |w| == 2 && Reachable(FlowOf(n), w) && Finished(FlowOf(n), w) {
      SessionResult(n, w, 1);
      if receiver.resultToRank == -1 {
        SessionResult(n, w, 0);
        BothPartiesAgree(n, w);
      }
    }
  }
}

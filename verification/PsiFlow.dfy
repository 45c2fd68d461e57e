/** The Diffie-Hellman flow: two parties, up to four threads each, over bounded channels. */
module PsiFlow {
  import opened Wrappers
  import opened PsiBatches
  import opened PsiStore

  predicate IsParty(p: int) {
    p == 0 || p == 1
  }

  /** What one party does in a session: its batches for the main channel, what it does to a peer's cipher,
      the peer's batches re-encrypted that way, and whether it sends and receives dual ciphers
      (need_send_cipher, need_recv_cipher). */
  datatype Plan = Plan(main: seq<Batch>, dh: Bytes -> Bytes, dual: seq<seq<Bytes>>, sends: bool, recvs: bool)

  /** The plans of both parties and the link's throttle window. */
  datatype Flow = Flow(plans: seq<Plan>, window: nat)

  ghost predicate ValidPlans(mine: Plan, peers: Plan) {
    && |mine.dual| == |peers.main| >= 1
    && (forall i :: 0 <= i < |peers.main| ==> (peers.main[i].last <==> i == |peers.main| - 1))
    && (forall i :: 0 <= i < |peers.main| ==> mine.dual[i] == Map(mine.dh, peers.main[i].items))
    && (forall i :: 0 <= i < |mine.main| ==> EqualWidth(mine.main[i].items))
    && (forall i :: 0 <= i < |mine.dual| ==> EqualWidth(mine.dual[i]))
    && mine.sends == peers.recvs
  }

  ghost predicate ValidFlow(f: Flow) {
    && |f.plans| == 2 && f.window >= 1
    && ValidPlans(f.plans[0], f.plans[1]) && ValidPlans(f.plans[1], f.plans[0])
  }

  // ----- Program counters -----

  /** The thread that receives and re-encrypts. */
  datatype RecvPc =
    | Receiving
    | PutSentinel(dual: seq<Bytes>)
    | PutBatch(dual: seq<Bytes>, last: bool)
    | Inserting(rest: seq<Bytes>, last: bool)
    | RecvDone

  /** The thread that sends dual ciphers. */
  datatype SendPc =
    | Getting
    | GettingLast
    | Sending(items: seq<Bytes>, last: bool)
    | SendDone

  /** The thread that receives dual ciphers and matches them. */
  datatype MatchPc =
    | Awaiting
    | WaitingForSet(items: seq<Bytes>, last: bool)
    | MatchDone

  /** One party: its outgoing channels, thread positions and store. The counters `got`, `taken` and `matched`
      number the batches received, the queue elements taken and the dual batches received so far. */
  datatype Party = Party(
    sent: nat,
    main: seq<Batch>,
    dual: seq<Batch>,
    got: nat,
    recvPc: RecvPc,
    queue: seq<Option<seq<Bytes>>>,
    peerSet: set<Bytes>,
    setDone: bool,
    taken: nat,
    dualSent: nat,
    sendPc: SendPc,
    matched: nat,
    matchPc: MatchPc,
    record: nat,
    takeIndex: seq<nat>)

  function InitialParty(mine: Plan): Party {
    Party(0, [], [], 0, Receiving, [], {}, false, 0, 0, if mine.sends then Getting else SendDone,
          0, if mine.recvs then Awaiting else MatchDone, 0, [])
  }

  function InitialWorld(f: Flow): seq<Party>
    requires |f.plans| == 2
  {
    [InitialParty(f.plans[0]), InitialParty(f.plans[1])]
  }

  datatype Thread = Sender | Receiver | DualSender | Matcher

  /** A thread of the party `x` with peer `y` can take its next step: sends wait for room on the channel,
      receives for a message, queue reads for an element, matching for the set event. */
  predicate CanStep(mine: Plan, window: nat, x: Party, y: Party, t: Thread) {
    match t
    case Sender => x.sent < |mine.main| && |x.main| < window
    case Receiver => if x.recvPc == Receiving then y.main != [] else x.recvPc != RecvDone
    case DualSender =>
      (match x.sendPc
       case Getting => x.queue != []
       case GettingLast => x.queue != [] && x.queue[0].Some?
       case Sending(_, _) => |x.dual| < window
       case SendDone => false)
    case Matcher =>
      (match x.matchPc
       case Awaiting => y.dual != []
       case WaitingForSet(_, _) => x.setDone
       case MatchDone => false)
  }

  predicate Enabled(f: Flow, w: seq<Party>, p: nat, t: Thread)
    requires |f.plans| == 2 && |w| == 2 && IsParty(p)
  {
    CanStep(f.plans[p], f.window, w[p], w[1 - p], t)
  }

  function SenderStep(x: Party, b: Batch): Party {
    x.(sent := x.sent + 1, main := x.main + [OnWire(b)])
  }

  /** `b` is the message at the head of the peer's main channel and `dual` its re-encryption, used only when receiving. */
  function ReceiverStep(recvs: bool, x: Party, b: Batch, dual: seq<Bytes>): Party
    requires x.recvPc != RecvDone
  {
    match x.recvPc
    case Receiving =>
      x.(got := x.got + 1, recvPc := if b.last then PutSentinel(dual) else PutBatch(dual, false))
    case PutSentinel(d) => x.(queue := x.queue + [None], recvPc := PutBatch(d, true))
    case PutBatch(d, last) =>
      x.(queue := x.queue + [Some(d)],
         recvPc := if recvs then Inserting(d, last) else if last then RecvDone else Receiving)
    case Inserting(rest, last) =>
      if rest != [] then x.(peerSet := x.peerSet + {rest[0]}, recvPc := Inserting(rest[1..], last))
      else if last then x.(setDone := true, recvPc := RecvDone)
      else x.(recvPc := Receiving)
  }

  function DualSenderStep(x: Party): Party
    requires x.sendPc != SendDone
    requires x.sendPc.Getting? || x.sendPc.GettingLast? ==> x.queue != []
    requires x.sendPc.GettingLast? ==> x.queue[0].Some?
  {
    match x.sendPc
    case Getting =>
      x.(queue := x.queue[1..], taken := x.taken + 1,
         sendPc := if x.queue[0].None? then GettingLast else Sending(x.queue[0].value, false))
    case GettingLast =>
      x.(queue := x.queue[1..], taken := x.taken + 1, sendPc := Sending(x.queue[0].value, true))
    case Sending(items, last) =>
      x.(dual := x.dual + [OnWire(Batch(x.dualSent, last, items))], dualSent := x.dualSent + 1,
         sendPc := if last then SendDone else Getting)
  }

  /** `b` is the message at the head of the peer's dual channel, used only when receiving. */
  function MatcherStep(x: Party, b: Batch): Party
    requires x.matchPc != MatchDone
  {
    match x.matchPc
    case Awaiting => x.(matched := x.matched + 1, matchPc := WaitingForSet(b.items, b.last))
    case WaitingForSet(items, last) =>
      x.(record := x.record + |items|,
         takeIndex := x.takeIndex + MatchesFrom(x.record, items, x.peerSet),
         matchPc := if last then MatchDone else Awaiting)
  }

  function Head(bs: seq<Batch>): Batch {
    if bs == [] then Batch(0, false, []) else bs[0]
  }

  /** One step of a thread of `x`: both parties afterwards. */
  function StepPair(mine: Plan, window: nat, x: Party, y: Party, t: Thread): (Party, Party)
    requires CanStep(mine, window, x, y, t)
  {
    match t
    case Sender => (SenderStep(x, mine.main[x.sent]), y)
    case Receiver =>
      (ReceiverStep(mine.recvs, x, Head(y.main), Map(mine.dh, Head(y.main).items)),
       if x.recvPc == Receiving then y.(main := y.main[1..]) else y)
    case DualSender => (DualSenderStep(x), y)
    case Matcher =>
      (MatcherStep(x, Head(y.dual)),
       if x.matchPc == Awaiting then y.(dual := y.dual[1..]) else y)
  }

  /** One step of thread `t` of party `p`. */
  function Next(f: Flow, w: seq<Party>, p: nat, t: Thread): (w': seq<Party>)
    requires |f.plans| == 2 && |w| == 2 && IsParty(p) && Enabled(f, w, p, t)
    ensures |w'| == 2
  {
    var (x, y) := StepPair(f.plans[p], f.window, w[p], w[1 - p], t);
    if p == 0 then [x, y] else [y, x]
  }

  /** The receiving thread alone, from a batch just re-encrypted until it has stored it. */
  function StoreBatch(recvs: bool, x: Party): Party
    decreases match x.recvPc
              case PutSentinel(d) => |d| + 3
              case PutBatch(d, _) => |d| + 2
              case Inserting(rest, _) => |rest| + 1
              case _ => 0
  {
    if x.recvPc == Receiving || x.recvPc == RecvDone then x
    else StoreBatch(recvs, ReceiverStep(recvs, x, Batch(0, false, []), []))
  }

  lemma {:induction false} InsertingAdds(x: Party, rest: seq<Bytes>, last: bool)
    requires x.recvPc == Inserting(rest, last)
    ensures StoreBatch(true, x)
            == x.(peerSet := x.peerSet + Adds(rest, true), setDone := x.setDone || last,
                  recvPc := if last then RecvDone else Receiving)
    decreases |rest|
  {
    if rest != [] {
      InsertingAdds(ReceiverStep(true, x, Batch(0, false, []), []), rest[1..], last);
      assert Adds(rest, true) == {rest[0]} + Adds(rest[1..], true);
    }
  }

  /** The thread's small steps together do to queue, set and event what CipherStore.CalcuAddPeerCipher does. */
  lemma StoreBatchIsCalcuAdd(recvs: bool, x: Party, dual: seq<Bytes>, last: bool)
    requires x.recvPc == if last then PutSentinel(dual) else PutBatch(dual, false)
    ensures StoreBatch(recvs, x)
            == x.(queue := x.queue + Puts(dual, last), peerSet := x.peerSet + Adds(dual, recvs),
                  setDone := x.setDone || (recvs && last), recvPc := if last then RecvDone else Receiving)
  {
    var y := if last then ReceiverStep(recvs, x, Batch(0, false, []), []) else x;
    assert StoreBatch(recvs, x) == StoreBatch(recvs, y);
    var z := ReceiverStep(recvs, y, Batch(0, false, []), []);
    assert StoreBatch(recvs, y) == StoreBatch(recvs, z);
    assert z.queue == x.queue + Puts(dual, last);
    if recvs {
      InsertingAdds(z, dual, last);
    } else {
      assert x.peerSet + Adds(dual, recvs) == x.peerSet;
      assert StoreBatch(recvs, z) == z;
    }
  }

  // ----- Invariant -----

  /** Queue elements put so far, out of `n` batches. */
  function PutCount(n: nat, got: nat, pc: RecvPc): int {
    match pc
    case PutSentinel(_) => got - 1
    case PutBatch(_, last) => if last then got else got - 1
    case _ => if got == n then n + 1 else got
  }

  function SetOf(cs: seq<Bytes>): set<Bytes> {
    set e | e in cs
  }

  /** `ds` are the peer's batches as this party re-encrypts them. */
  predicate RecvInv(ds: seq<seq<Bytes>>, recvs: bool, got: nat, pc: RecvPc) {
    && got <= |ds|
    && match pc
       case Receiving => got < |ds|
       case PutSentinel(dual) => 1 <= got == |ds| && dual == ds[got - 1]
       case PutBatch(dual, last) => 1 <= got && dual == ds[got - 1] && (last <==> got == |ds|)
       case Inserting(rest, last) => 1 <= got && recvs && (last <==> got == |ds|)
       case RecvDone => got == |ds|
  }

  predicate QueueInv(stream: seq<Option<seq<Bytes>>>, taken: nat, put: int, queue: seq<Option<seq<Bytes>>>) {
    taken <= put <= |stream| && queue == stream[taken..put]
  }

  predicate SetInv(ds: seq<seq<Bytes>>, recvs: bool, got: nat, pc: RecvPc, peerSet: set<Bytes>, setDone: bool)
    requires RecvInv(ds, recvs, got, pc)
  {
    && (setDone <==> pc.RecvDone? && recvs)
    && (recvs ==>
          match pc
          case PutSentinel(_) => peerSet == SetOf(Flatten(ds[..got - 1]))
          case PutBatch(_, _) => peerSet == SetOf(Flatten(ds[..got - 1]))
          case Inserting(rest, _) => peerSet + SetOf(rest) == SetOf(Flatten(ds[..got]))
          case _ => peerSet == SetOf(Flatten(ds[..got])))
  }

  predicate SendInv(ds: seq<seq<Bytes>>, sends: bool, taken: nat, dualSent: nat, pc: SendPc) {
    var n := |ds|;
    if !sends then pc == SendDone && dualSent == 0 && taken == 0
    else
      match pc
      case Getting => taken == dualSent < n
      case GettingLast => taken == n && dualSent == n - 1
      case Sending(items, last) =>
        && dualSent < n && items == ds[dualSent] && (last <==> dualSent == n - 1)
        && taken == (if last then n + 1 else dualSent + 1)
      case SendDone => taken == n + 1 && dualSent == n
  }

  /** `es` are the dual batches the peer makes of this party's own ids, `full` the complete peer set. */
  predicate MatchInv(es: seq<seq<Bytes>>, full: set<Bytes>, recvs: bool, matched: nat, pc: MatchPc,
                     record: nat, takeIndex: seq<nat>)
  {
    if !recvs then pc == MatchDone && matched == 0
    else
      && matched <= |es|
      && (match pc
          case Awaiting => matched < |es|
          case WaitingForSet(items, last) => 1 <= matched && items == es[matched - 1] && (last <==> matched == |es|)
          case MatchDone => matched == |es|)
      && var done := if pc.WaitingForSet? then matched - 1 else matched;
         && record == |Flatten(es[..done])|
         && takeIndex == MatchesFrom(0, Flatten(es[..done]), full)
  }

  /** A channel holds what was sent and not yet received. */
  predicate ChannelInv(all: seq<Batch>, got: nat, sent: nat, channel: seq<Batch>) {
    got <= sent <= |all| && channel == all[got..sent]
  }

  predicate PartyInv(ds: seq<seq<Bytes>>, es: seq<seq<Bytes>>, full: set<Bytes>, sends: bool, recvs: bool, x: Party) {
    // One value, so that proving it is one obligation and not one per conjunct.
    var holds :=
      && ds != []
      && RecvInv(ds, recvs, x.got, x.recvPc)
      && QueueInv(QueueStream(ds), x.taken, PutCount(|ds|, x.got, x.recvPc), x.queue)
      && SetInv(ds, recvs, x.got, x.recvPc, x.peerSet, x.setDone)
      && SendInv(ds, sends, x.taken, x.dualSent, x.sendPc)
      && MatchInv(es, full, recvs, x.matched, x.matchPc, x.record, x.takeIndex);
    holds
  }

  ghost predicate SideInv(mine: Plan, peers: Plan, x: Party, y: Party) {
    && ValidPlans(mine, peers)
    && PartyInv(mine.dual, peers.dual, SetOf(Flatten(mine.dual)), mine.sends, mine.recvs, x)
    && ChannelInv(mine.main, y.got, x.sent, x.main)
    && ChannelInv(DualBatches(mine.dual), y.matched, x.dualSent, x.dual)
  }

  /** The invariant of both sides, named by a party and its peer. */
  ghost predicate BothInv(mine: Plan, peers: Plan, x: Party, y: Party) {
    // One value, so that proving it is one obligation and not one per conjunct.
    var holds := SideInv(mine, peers, x, y) && SideInv(peers, mine, y, x);
    holds
  }

  ghost predicate Inv(f: Flow, w: seq<Party>) {
    |f.plans| == 2 && |w| == 2 && BothInv(f.plans[0], f.plans[1], w[0], w[1])
  }

  lemma InitialInv(f: Flow)
    requires ValidFlow(f)
    ensures Inv(f, InitialWorld(f))
  {
    assert forall i :: 0 <= i < 2 ==> f.plans[i].dual[..0] == [];
  }

  // ----- Every step keeps the invariant -----

  lemma SliceGrow<A>(s: seq<A>, a: nat, b: nat)
    requires a <= b < |s|
    ensures s[a..b] + [s[b]] == s[a..b + 1]
  {
  }

  lemma SliceShrink<A>(s: seq<A>, a: nat, b: nat)
    requires a < b <= |s|
    ensures s[a..b][0] == s[a] && s[a..b][1..] == s[a + 1..b]
  {
  }

  lemma SetGrow(ds: seq<seq<Bytes>>, k: nat)
    requires k < |ds|
    ensures SetOf(Flatten(ds[..k + 1])) == SetOf(Flatten(ds[..k])) + SetOf(ds[k])
  {
    FlattenSnoc(ds, k);
  }

  lemma ReceivingKeeps(ds: seq<seq<Bytes>>, es: seq<seq<Bytes>>, full: set<Bytes>, sends: bool, recvs: bool, x: Party,
                       b: Batch)
    requires PartyInv(ds, es, full, sends, recvs, x) && x.recvPc == Receiving
    requires b.last <==> x.got + 1 == |ds|
    ensures PartyInv(ds, es, full, sends, recvs, ReceiverStep(recvs, x, b, ds[x.got]))
  {
  }

  lemma InsertingKeeps(ds: seq<seq<Bytes>>, recvs: bool, x: Party, b: Batch, dual: seq<Bytes>)
    requires x.recvPc.Inserting? && RecvInv(ds, recvs, x.got, x.recvPc)
    requires SetInv(ds, recvs, x.got, x.recvPc, x.peerSet, x.setDone)
    ensures var x' := ReceiverStep(recvs, x, b, dual);
            RecvInv(ds, recvs, x'.got, x'.recvPc) && SetInv(ds, recvs, x'.got, x'.recvPc, x'.peerSet, x'.setDone)
  {
    var rest := x.recvPc.rest;
    if rest != [] {
      assert SetOf(rest) == {rest[0]} + SetOf(rest[1..]);
    }
  }

  lemma PuttingKeeps(ds: seq<seq<Bytes>>, recvs: bool, x: Party, b: Batch, dual: seq<Bytes>)
    requires ds != [] && (x.recvPc.PutSentinel? || x.recvPc.PutBatch?) && RecvInv(ds, recvs, x.got, x.recvPc)
    requires SetInv(ds, recvs, x.got, x.recvPc, x.peerSet, x.setDone)
    requires QueueInv(QueueStream(ds), x.taken, PutCount(|ds|, x.got, x.recvPc), x.queue)
    ensures var x' := ReceiverStep(recvs, x, b, dual);
            && RecvInv(ds, recvs, x'.got, x'.recvPc)
            && SetInv(ds, recvs, x'.got, x'.recvPc, x'.peerSet, x'.setDone)
            && QueueInv(QueueStream(ds), x'.taken, PutCount(|ds|, x'.got, x'.recvPc), x'.queue)
  {
    SliceGrow(QueueStream(ds), x.taken, PutCount(|ds|, x.got, x.recvPc));
    if x.recvPc.PutBatch? {
      SetGrow(ds, x.got - 1);
    }
  }

  lemma StoringKeeps(ds: seq<seq<Bytes>>, es: seq<seq<Bytes>>, full: set<Bytes>, sends: bool, recvs: bool, x: Party,
                     b: Batch, dual: seq<Bytes>)
    requires PartyInv(ds, es, full, sends, recvs, x) && x.recvPc != Receiving && x.recvPc != RecvDone
    ensures PartyInv(ds, es, full, sends, recvs, ReceiverStep(recvs, x, b, dual))
  {
    if x.recvPc.Inserting? {
      InsertingKeeps(ds, recvs, x, b, dual);
    } else {
      PuttingKeeps(ds, recvs, x, b, dual);
    }
  }

  lemma DualSenderKeeps(ds: seq<seq<Bytes>>, es: seq<seq<Bytes>>, full: set<Bytes>, sends: bool, recvs: bool, x: Party)
    requires PartyInv(ds, es, full, sends, recvs, x) && x.sendPc != SendDone
    requires x.sendPc.Getting? || x.sendPc.GettingLast? ==> x.queue != []
    requires x.sendPc.GettingLast? ==> x.queue[0].Some?
    ensures PartyInv(ds, es, full, sends, recvs, DualSenderStep(x))
  {
    if !x.sendPc.Sending? {
      SliceShrink(QueueStream(ds), x.taken, PutCount(|ds|, x.got, x.recvPc));
    }
  }

  lemma MatcherKeeps(ds: seq<seq<Bytes>>, es: seq<seq<Bytes>>, full: set<Bytes>, sends: bool, recvs: bool, x: Party,
                     b: Batch)
    requires PartyInv(ds, es, full, sends, recvs, x) && x.matchPc != MatchDone && full == SetOf(Flatten(ds))
    requires x.matchPc == Awaiting ==> b == DualBatches(es)[x.matched]
    requires x.matchPc.WaitingForSet? ==> x.setDone
    ensures PartyInv(ds, es, full, sends, recvs, MatcherStep(x, b))
  {
    if x.matchPc.WaitingForSet? {
      assert ds[..|ds|] == ds;
      FlattenSnoc(es, x.matched - 1);
      MatchesAppend(0, Flatten(es[..x.matched - 1]), es[x.matched - 1], full);
    }
  }

  lemma MainSent(mine: Plan, peers: Plan, x: Party, x': Party, y: Party)
    requires BothInv(mine, peers, x, y) && x.sent < |mine.main|
    requires x' == x.(sent := x.sent + 1, main := x.main + [mine.main[x.sent]])
    ensures BothInv(mine, peers, x', y)
  {
    SliceGrow(mine.main, y.got, x.sent);
  }

  lemma SenderKeepsBoth(mine: Plan, peers: Plan, x: Party, y: Party)
    requires BothInv(mine, peers, x, y) && x.sent < |mine.main|
    ensures BothInv(mine, peers, SenderStep(x, mine.main[x.sent]), y)
  {
    BatchSurvives(mine.main[x.sent]);
    MainSent(mine, peers, x, SenderStep(x, mine.main[x.sent]), y);
  }

  /** A message at the head of the main channel is the peer's next batch. */
  lemma HeadIsNext(mine: Plan, peers: Plan, x: Party, y: Party)
    requires BothInv(mine, peers, x, y) && x.recvPc == Receiving && y.main != []
    ensures y.main[0] == peers.main[x.got] && y.main[1..] == peers.main[x.got + 1..y.sent]
    ensures Map(mine.dh, y.main[0].items) == mine.dual[x.got] && (y.main[0].last <==> x.got + 1 == |mine.dual|)
  {
    SliceShrink(peers.main, x.got, y.sent);
  }

  lemma ReceivingKeepsBoth(mine: Plan, peers: Plan, x: Party, y: Party)
    requires BothInv(mine, peers, x, y) && x.recvPc == Receiving && y.main != []
    ensures BothInv(mine, peers, ReceiverStep(mine.recvs, x, y.main[0], Map(mine.dh, y.main[0].items)),
                    y.(main := y.main[1..]))
  {
    HeadIsNext(mine, peers, x, y);
    ReceivingKeeps(mine.dual, peers.dual, SetOf(Flatten(mine.dual)), mine.sends, mine.recvs, x, y.main[0]);
    MainReceived(mine, peers, x, ReceiverStep(mine.recvs, x, y.main[0], Map(mine.dh, y.main[0].items)), y);
  }

  /** A receiver's step takes the head of the peer's main channel and counts it. */
  lemma MainReceived(mine: Plan, peers: Plan, x: Party, x': Party, y: Party)
    requires BothInv(mine, peers, x, y)
    requires PartyInv(mine.dual, peers.dual, SetOf(Flatten(mine.dual)), mine.sends, mine.recvs, x')
    requires x'.sent == x.sent && x'.main == x.main && x'.got == x.got + 1
    requires x'.dualSent == x.dualSent && x'.dual == x.dual && x'.matched == x.matched
    requires y.main != [] && y.main[1..] == peers.main[x.got + 1..y.sent]
    ensures BothInv(mine, peers, x', y.(main := y.main[1..]))
  {
  }

  lemma DualSent(mine: Plan, peers: Plan, x: Party, x': Party, y: Party)
    requires BothInv(mine, peers, x, y) && x.dualSent < |mine.dual|
    requires PartyInv(mine.dual, peers.dual, SetOf(Flatten(mine.dual)), mine.sends, mine.recvs, x')
    requires x'.sent == x.sent && x'.main == x.main && x'.got == x.got && x'.matched == x.matched
    requires x'.dualSent == x.dualSent + 1 && x'.dual == x.dual + [DualBatches(mine.dual)[x.dualSent]]
    ensures BothInv(mine, peers, x', y)
  {
    SliceGrow(DualBatches(mine.dual), y.matched, x.dualSent);
  }

  lemma DualSenderKeepsBoth(mine: Plan, peers: Plan, x: Party, y: Party)
    requires BothInv(mine, peers, x, y) && x.sendPc != SendDone
    requires x.sendPc.Getting? || x.sendPc.GettingLast? ==> x.queue != []
    requires x.sendPc.GettingLast? ==> x.queue[0].Some?
    ensures BothInv(mine, peers, DualSenderStep(x), y)
  {
    DualSenderKeeps(mine.dual, peers.dual, SetOf(Flatten(mine.dual)), mine.sends, mine.recvs, x);
    if x.sendPc.Sending? {
      BatchSurvives(DualBatches(mine.dual)[x.dualSent]);
      DualSent(mine, peers, x, DualSenderStep(x), y);
    } else {
      ReplaceParty(mine, peers, x, DualSenderStep(x), y);
    }
  }

  lemma AwaitingKeepsBoth(mine: Plan, peers: Plan, x: Party, y: Party)
    requires BothInv(mine, peers, x, y) && x.matchPc == Awaiting && y.dual != []
    ensures BothInv(mine, peers, MatcherStep(x, y.dual[0]), y.(dual := y.dual[1..]))
  {
    SliceShrink(DualBatches(peers.dual), x.matched, y.dualSent);
    MatcherKeeps(mine.dual, peers.dual, SetOf(Flatten(mine.dual)), mine.sends, mine.recvs, x, y.dual[0]);
    DualReceived(mine, peers, x, MatcherStep(x, y.dual[0]), y);
  }

  /** A matcher's step takes the head of the peer's dual channel and counts it. */
  lemma DualReceived(mine: Plan, peers: Plan, x: Party, x': Party, y: Party)
    requires BothInv(mine, peers, x, y)
    requires PartyInv(mine.dual, peers.dual, SetOf(Flatten(mine.dual)), mine.sends, mine.recvs, x')
    requires x'.sent == x.sent && x'.main == x.main && x'.got == x.got && x'.matched == x.matched + 1
    requires x'.dualSent == x.dualSent && x'.dual == x.dual
    requires y.dual != [] && y.dual[1..] == DualBatches(peers.dual)[x.matched + 1..y.dualSent]
    ensures BothInv(mine, peers, x', y.(dual := y.dual[1..]))
  {
  }

  /** The channels only depend on the counters of what was sent and received. */
  lemma ReplaceParty(mine: Plan, peers: Plan, x: Party, x': Party, y: Party)
    requires BothInv(mine, peers, x, y)
    requires PartyInv(mine.dual, peers.dual, SetOf(Flatten(mine.dual)), mine.sends, mine.recvs, x')
    requires x'.sent == x.sent && x'.main == x.main && x'.got == x.got
    requires x'.dualSent == x.dualSent && x'.dual == x.dual && x'.matched == x.matched
    ensures BothInv(mine, peers, x', y)
  {
  }

  lemma StoringFrame(recvs: bool, x: Party, b: Batch, dual: seq<Bytes>)
    requires x.recvPc != Receiving && x.recvPc != RecvDone
    ensures var x' := ReceiverStep(recvs, x, b, dual);
            && x'.sent == x.sent && x'.main == x.main && x'.got == x.got
            && x'.dualSent == x.dualSent && x'.dual == x.dual && x'.matched == x.matched
  {
  }

  lemma StoringKeepsBoth(mine: Plan, peers: Plan, x: Party, y: Party, b: Batch, dual: seq<Bytes>)
    requires BothInv(mine, peers, x, y) && x.recvPc != Receiving && x.recvPc != RecvDone
    ensures BothInv(mine, peers, ReceiverStep(mine.recvs, x, b, dual), y)
  {
    StoringKeeps(mine.dual, peers.dual, SetOf(Flatten(mine.dual)), mine.sends, mine.recvs, x, b, dual);
    StoringFrame(mine.recvs, x, b, dual);
    ReplaceParty(mine, peers, x, ReceiverStep(mine.recvs, x, b, dual), y);
  }

  lemma MatchingKeepsBoth(mine: Plan, peers: Plan, x: Party, y: Party, b: Batch)
    requires BothInv(mine, peers, x, y) && x.matchPc.WaitingForSet? && x.setDone
    ensures BothInv(mine, peers, MatcherStep(x, b), y)
  {
    MatcherKeeps(mine.dual, peers.dual, SetOf(Flatten(mine.dual)), mine.sends, mine.recvs, x, b);
    ReplaceParty(mine, peers, x, MatcherStep(x, b), y);
  }

  lemma StepKeepsBoth(mine: Plan, peers: Plan, window: nat, x: Party, y: Party, t: Thread)
    requires BothInv(mine, peers, x, y) && CanStep(mine, window, x, y, t)
    ensures var (x', y') := StepPair(mine, window, x, y, t); BothInv(mine, peers, x', y')
  {
    match t {
      case Sender => SenderKeepsBoth(mine, peers, x, y);
      case Receiver =>
        if x.recvPc == Receiving {
          ReceivingKeepsBoth(mine, peers, x, y);
        } else {
          StoringKeepsBoth(mine, peers, x, y, Head(y.main), Map(mine.dh, Head(y.main).items));
        }
      case DualSender => DualSenderKeepsBoth(mine, peers, x, y);
      case Matcher =>
        if x.matchPc == Awaiting {
          AwaitingKeepsBoth(mine, peers, x, y);
        } else {
          MatchingKeepsBoth(mine, peers, x, y, Head(y.dual));
        }
    }
  }

  lemma StepKeepsInv(f: Flow, w: seq<Party>, p: nat, t: Thread)
    requires Inv(f, w) && IsParty(p) && Enabled(f, w, p, t)
    ensures Inv(f, Next(f, w, p, t))
  {
    StepKeepsBoth(f.plans[p], f.plans[1 - p], f.window, w[p], w[1 - p], t);
  }

  // ----- Whole runs -----

  ghost predicate IsRun(f: Flow, w: seq<Party>, steps: seq<(nat, Thread)>, w': seq<Party>)
    requires |f.plans| == 2 && |w| == 2
    decreases |steps|
  {
    if steps == [] then w == w'
    else
      var (p, t) := steps[0];
      IsParty(p) && Enabled(f, w, p, t) && IsRun(f, Next(f, w, p, t), steps[1..], w')
  }

  ghost predicate Reachable(f: Flow, w: seq<Party>)
    requires |f.plans| == 2
  {
    exists steps :: IsRun(f, InitialWorld(f), steps, w)
  }

  lemma {:induction false} RunKeepsInv(f: Flow, w: seq<Party>, steps: seq<(nat, Thread)>, w': seq<Party>)
    requires Inv(f, w) && IsRun(f, w, steps, w')
    ensures Inv(f, w')
    decreases |steps|
  {
    if steps != [] {
      var (p, t) := steps[0];
      StepKeepsInv(f, w, p, t);
      RunKeepsInv(f, Next(f, w, p, t), steps[1..], w');
    }
  }

  lemma ReachableInv(f: Flow, w: seq<Party>)
    requires ValidFlow(f) && Reachable(f, w)
    ensures Inv(f, w)
  {
    var steps :| IsRun(f, InitialWorld(f), steps, w);
    InitialInv(f);
    RunKeepsInv(f, InitialWorld(f), steps, w);
  }

  predicate PartyFinished(mine: Plan, x: Party) {
    x.sent == |mine.main| && x.recvPc == RecvDone && x.sendPc == SendDone && x.matchPc == MatchDone
  }

  /** Every thread of both parties has returned. */
  predicate Finished(f: Flow, w: seq<Party>)
    requires |f.plans| == 2 && |w| == 2
  {
    PartyFinished(f.plans[0], w[0]) && PartyFinished(f.plans[1], w[1])
  }

  // ----- No deadlock -----

  ghost predicate SomeStep(f: Flow, w: seq<Party>)
    requires |f.plans| == 2 && |w| == 2
  {
    exists p, t :: IsParty(p) && Enabled(f, w, p, t)
  }

  /** A main sender that has not finished can go on, or its peer can drain the channel. */
  lemma MainSenderMoves(mine: Plan, peers: Plan, window: nat, x: Party, y: Party)
    requires BothInv(mine, peers, x, y) && window >= 1 && x.sent < |mine.main|
    ensures CanStep(mine, window, x, y, Sender) || CanStep(peers, window, y, x, Receiver)
  {
  }

  lemma ReceiverMoves(mine: Plan, peers: Plan, window: nat, x: Party, y: Party)
    requires BothInv(mine, peers, x, y) && x.recvPc != RecvDone && y.sent == |peers.main|
    ensures CanStep(mine, window, x, y, Receiver)
  {
  }

  /** With everything received, the queue holds all a dual sender still needs, and a matcher never waits for its set. */
  lemma DualSenderMoves(mine: Plan, peers: Plan, window: nat, x: Party, y: Party)
    requires BothInv(mine, peers, x, y) && window >= 1 && x.sendPc != SendDone
    requires x.recvPc == RecvDone && y.recvPc == RecvDone
    ensures CanStep(mine, window, x, y, DualSender) || CanStep(peers, window, y, x, Matcher)
  {
    if x.sendPc.Getting? || x.sendPc.GettingLast? {
      assert x.queue[0] == QueueStream(mine.dual)[x.taken];
    }
  }

  lemma MatcherMoves(mine: Plan, peers: Plan, window: nat, x: Party, y: Party)
    requires BothInv(mine, peers, x, y) && x.matchPc != MatchDone
    requires x.recvPc == RecvDone && y.sendPc == SendDone
    ensures CanStep(mine, window, x, y, Matcher)
  {
  }

  /** No deadlock: whatever the interleaving and the throttle window, an unfinished session has an enabled step. */
  lemma NeverStuck(f: Flow, w: seq<Party>)
    requires ValidFlow(f) && Reachable(f, w)
    ensures |w| == 2 && (Finished(f, w) || SomeStep(f, w))
  {
    ReachableInv(f, w);
    var P, Q, x, y := f.plans[0], f.plans[1], w[0], w[1];
    if x.sent < |P.main| {
      MainSenderMoves(P, Q, f.window, x, y);
      assert Enabled(f, w, 0, Sender) || Enabled(f, w, 1, Receiver);
    } else if y.sent < |Q.main| {
      MainSenderMoves(Q, P, f.window, y, x);
      assert Enabled(f, w, 1, Sender) || Enabled(f, w, 0, Receiver);
    } else if x.recvPc != RecvDone {
      ReceiverMoves(P, Q, f.window, x, y);
      assert Enabled(f, w, 0, Receiver);
    } else if y.recvPc != RecvDone {
      ReceiverMoves(Q, P, f.window, y, x);
      assert Enabled(f, w, 1, Receiver);
    } else if x.sendPc != SendDone {
      DualSenderMoves(P, Q, f.window, x, y);
      assert Enabled(f, w, 0, DualSender) || Enabled(f, w, 1, Matcher);
    } else if y.sendPc != SendDone {
      DualSenderMoves(Q, P, f.window, y, x);
      assert Enabled(f, w, 1, DualSender) || Enabled(f, w, 0, Matcher);
    } else if x.matchPc != MatchDone {
      MatcherMoves(P, Q, f.window, x, y);
      assert Enabled(f, w, 0, Matcher);
    } else if y.matchPc != MatchDone {
      MatcherMoves(Q, P, f.window, y, x);
      assert Enabled(f, w, 1, Matcher);
    }
  }

  // ----- Every run is finite -----

  /** Steps to receive, re-encrypt and store the batches `ds`. */
  function StoreWork(ds: seq<seq<Bytes>>): nat {
    if ds == [] then 0 else 4 + |ds[0]| + StoreWork(ds[1..])
  }

  function RecvWork(ds: seq<seq<Bytes>>, got: nat, pc: RecvPc): nat {
    (if got <= |ds| then StoreWork(ds[got..]) else 0) +
    match pc
    case PutSentinel(d) => 3 + |d|
    case PutBatch(d, _) => 2 + |d|
    case Inserting(rest, _) => 1 + |rest|
    case _ => 0
  }

  function Left(n: nat, done: nat): nat {
    if done <= n then n - done else 0
  }

  function SendWork(n: nat, dualSent: nat, pc: SendPc): nat {
    match pc
    case Getting => 3 * Left(n, dualSent)
    case GettingLast => 3 * Left(n, dualSent + 1) + 2
    case Sending(_, _) => 3 * Left(n, dualSent + 1) + 1
    case SendDone => 0
  }

  function MatchWork(n: nat, matched: nat, pc: MatchPc): nat {
    match pc
    case Awaiting => 2 * Left(n, matched)
    case WaitingForSet(_, _) => 2 * Left(n, matched) + 1
    case MatchDone => 0
  }

  function PartyWork(mine: Plan, peers: Plan, x: Party): nat {
    Left(|mine.main|, x.sent) + RecvWork(mine.dual, x.got, x.recvPc)
    + SendWork(|mine.dual|, x.dualSent, x.sendPc) + MatchWork(|peers.dual|, x.matched, x.matchPc)
  }

  /** The steps that remain. */
  function Work(f: Flow, w: seq<Party>): nat
    requires |f.plans| == 2 && |w| == 2
  {
    PartyWork(f.plans[0], f.plans[1], w[0]) + PartyWork(f.plans[1], f.plans[0], w[1])
  }

  lemma ReceiverLowersWork(ds: seq<seq<Bytes>>, recvs: bool, x: Party, b: Batch, dual: seq<Bytes>)
    requires RecvInv(ds, recvs, x.got, x.recvPc) && x.recvPc != RecvDone
    requires x.recvPc == Receiving ==> dual == ds[x.got]
    ensures var x' := ReceiverStep(recvs, x, b, dual);
            x'.got <= |ds| && RecvWork(ds, x'.got, x'.recvPc) < RecvWork(ds, x.got, x.recvPc)
  {
    if x.recvPc == Receiving {
      assert ds[x.got..][1..] == ds[x.got + 1..];
    }
  }

  lemma DualSenderLowersWork(ds: seq<seq<Bytes>>, sends: bool, x: Party)
    requires SendInv(ds, sends, x.taken, x.dualSent, x.sendPc) && x.sendPc != SendDone
    requires x.sendPc.Getting? || x.sendPc.GettingLast? ==> x.queue != []
    requires x.sendPc.GettingLast? ==> x.queue[0].Some?
    ensures var x' := DualSenderStep(x);
            SendWork(|ds|, x'.dualSent, x'.sendPc) < SendWork(|ds|, x.dualSent, x.sendPc)
  {
  }

  lemma MatcherLowersWork(es: seq<seq<Bytes>>, full: set<Bytes>, recvs: bool, x: Party, b: Batch)
    requires MatchInv(es, full, recvs, x.matched, x.matchPc, x.record, x.takeIndex) && x.matchPc != MatchDone
    ensures var x' := MatcherStep(x, b);
            MatchWork(|es|, x'.matched, x'.matchPc) < MatchWork(|es|, x.matched, x.matchPc)
  {
  }

  /** Taking a message off the peer's channels is no work of the peer's. */
  lemma PeersWorkStays(mine: Plan, peers: Plan, window: nat, x: Party, y: Party, t: Thread)
    requires CanStep(mine, window, x, y, t)
    ensures PartyWork(peers, mine, StepPair(mine, window, x, y, t).1) == PartyWork(peers, mine, y)
  {
  }

  lemma StepLowersOwnWork(mine: Plan, peers: Plan, window: nat, x: Party, y: Party, t: Thread)
    requires CanStep(mine, window, x, y, t)
    requires RecvInv(mine.dual, mine.recvs, x.got, x.recvPc)
    requires SendInv(mine.dual, mine.sends, x.taken, x.dualSent, x.sendPc)
    requires MatchInv(peers.dual, SetOf(Flatten(mine.dual)), mine.recvs, x.matched, x.matchPc, x.record, x.takeIndex)
    requires x.recvPc == Receiving && y.main != [] ==> Map(mine.dh, y.main[0].items) == mine.dual[x.got]
    ensures PartyWork(mine, peers, StepPair(mine, window, x, y, t).0) < PartyWork(mine, peers, x)
  {
    match t {
      case Sender =>
      case Receiver =>
        ReceiverLowersWork(mine.dual, mine.recvs, x, Head(y.main), Map(mine.dh, Head(y.main).items));
      case DualSender => DualSenderLowersWork(mine.dual, mine.sends, x);
      case Matcher =>
        MatcherLowersWork(peers.dual, SetOf(Flatten(mine.dual)), mine.recvs, x, Head(y.dual));
    }
  }

  lemma StepLowersBothWork(mine: Plan, peers: Plan, window: nat, x: Party, y: Party, t: Thread)
    requires BothInv(mine, peers, x, y) && CanStep(mine, window, x, y, t)
    ensures var (x', y') := StepPair(mine, window, x, y, t);
            PartyWork(mine, peers, x') < PartyWork(mine, peers, x) && PartyWork(peers, mine, y') == PartyWork(peers, mine, y)
  {
    if x.recvPc == Receiving && y.main != [] {
      HeadIsNext(mine, peers, x, y);
    }
    StepLowersOwnWork(mine, peers, window, x, y, t);
    PeersWorkStays(mine, peers, window, x, y, t);
  }

  /** Every step lowers the remaining work. */
  lemma StepLowersWork(f: Flow, w: seq<Party>, p: nat, t: Thread)
    requires Inv(f, w) && IsParty(p) && Enabled(f, w, p, t)
    ensures Inv(f, Next(f, w, p, t)) && Work(f, Next(f, w, p, t)) < Work(f, w)
  {
    StepKeepsInv(f, w, p, t);
    WorkFalls(f, w, p, t);
  }

  lemma WorkFalls(f: Flow, w: seq<Party>, p: nat, t: Thread)
    requires Inv(f, w) && IsParty(p) && Enabled(f, w, p, t)
    ensures Work(f, Next(f, w, p, t)) < Work(f, w)
  {
    StepLowersBothWork(f.plans[p], f.plans[1 - p], f.window, w[p], w[1 - p], t);
    WorkOfBoth(f, w, p);
    WorkOfBoth(f, Next(f, w, p, t), p);
  }

  lemma WorkOfBoth(f: Flow, w: seq<Party>, p: nat)
    requires |f.plans| == 2 && |w| == 2 && IsParty(p)
    ensures Work(f, w) == PartyWork(f.plans[p], f.plans[1 - p], w[p]) + PartyWork(f.plans[1 - p], f.plans[p], w[1 - p])
  {
  }

  /** So no run takes more steps than the work of the initial state. */
  lemma {:induction false} RunsAreBounded(f: Flow, w: seq<Party>, steps: seq<(nat, Thread)>, w': seq<Party>)
    requires Inv(f, w) && IsRun(f, w, steps, w')
    ensures |steps| <= Work(f, w)
    decreases |steps|
  {
    if steps != [] {
      var (p, t) := steps[0];
      StepLowersWork(f, w, p, t);
      RunsAreBounded(f, Next(f, w, p, t), steps[1..], w');
    }
  }

  /** On completion a receiving party holds exactly the positions of its own dual ciphers in its peer set. */
  lemma FinishedMatches(f: Flow, w: seq<Party>, p: nat)
    requires ValidFlow(f) && Reachable(f, w) && |w| == 2 && Finished(f, w) && IsParty(p) && f.plans[p].recvs
    ensures w[p].takeIndex == MatchesFrom(0, Flatten(f.plans[1 - p].dual), SetOf(Flatten(f.plans[p].dual)))
  {
    ReachableInv(f, w);
    assert f.plans[1 - p].dual[..|f.plans[1 - p].dual|] == f.plans[1 - p].dual;
  }
}

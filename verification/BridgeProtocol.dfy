/** Sender, network, receiver and readers run as one system, for every interleaving of their critical sections. */
module BridgeProtocol {
  import opened Wrappers
  import opened BridgeTypes
  import opened BridgeSender
  import opened BridgeReceiver

  /** A reply the receiver put on the wire for one attempt. */
  datatype Reply = Reply(tag: nat, code: ResultCode)

  /** The reader of one slot between the two locked sections of its query. */
  datatype Reader = Waiting(n: nat) | Woken(n: nat, ok: bool)

  /** `requests` and `replies` only grow: anything on the wire may be lost, delayed or delivered twice.
      `enqueued`, `resolved` and `delivered` record the history: messages accepted from the caller,
      numbers the sender freed, and messages each slot's reader was handed. */
  datatype System = System(
    seqNum: nat,
    enqueued: seq<Message>,
    nextTag: nat,
    requests: map<nat, Message>,
    replies: set<Reply>,
    sender: Sender,
    resolved: set<nat>,
    receiver: Receiver,
    nextNote: nat,
    readers: map<Slot, Reader>,
    delivered: map<Slot, seq<Message>>)

  const INITIAL := System(0, [], 0, map[], {}, INITIAL_SENDER, {}, INITIAL_RECEIVER, 0, map[], map[])

  datatype Step =
    | EnqueueStep(body: Body, sendOk: bool)
    | CompleteStep(outcome: Outcome)
    | DeactivateStep
    | FinishStep
    | TakeTopStep(top: Message)
    | ResendStep(sendOk: bool)
    | ResendDoneStep(outcome: Outcome)
    | ActivateStep
    | ReceiveStep(tag: nat)
    | ConnectStep(matches: bool)
    | BeginQueryStep(slot: Slot)
    | WakeStep(slot: Slot)
    | EndQueryStep(slot: Slot)

  /** An attempt ends in a transport error at any time, or with a reply the receiver sent for it. */
  predicate CanEnd(s: System, tag: nat, outcome: Outcome) {
    outcome.Replied? ==> Reply(tag, outcome.code) in s.replies
  }

  /** The loop that reopens the channel finds the heap empty a moment earlier and without holding the lock, so
      ActivateStep may find entries in it again. */
  ghost predicate Enabled(s: System, step: Step) {
    match step
    case EnqueueStep(_, _) => true
    case CompleteStep(outcome) =>
      s.sender.completing.None? && s.sender.inflight != [] && CanEnd(s, s.sender.inflight[0].tag, outcome)
    case DeactivateStep =>
      s.sender.completing.Some? && !Settles(s.sender.completing.value.outcome)
    case FinishStep =>
      s.sender.completing.Some? && (s.sender.completing.value.marked || Settles(s.sender.completing.value.outcome))
    case TakeTopStep(top) => s.sender.hand.None? && IsTop(s.sender.heap, top)
    case ResendStep(_) => s.sender.hand.Some? && s.sender.hand.value.attempt.None?
    case ResendDoneStep(outcome) =>
      s.sender.hand.Some? && s.sender.hand.value.attempt.Some? && CanEnd(s, s.sender.hand.value.attempt.value, outcome)
    case ActivateStep => s.sender.hand.None?
    case ReceiveStep(tag) => tag in s.requests
    case ConnectStep(_) => true
    case BeginQueryStep(slot) => slot !in s.readers
    case WakeStep(slot) => slot in s.readers && s.readers[slot].Waiting?
    case EndQueryStep(slot) => slot in s.readers && s.readers[slot].Woken?
  }

  function Delivered(s: System, slot: Slot): seq<Message> {
    if slot in s.delivered then s.delivered[slot] else []
  }

  function HandOut(s: System, slot: Slot, m: Option<Message>): System {
    if m.None? then s else s.(delivered := s.delivered[slot := Delivered(s, slot) + [m.value]])
  }

  function Apply(s: System, step: Step): (t: System)
    requires Enabled(s, step)
  {
    match step
    case EnqueueStep(body, sendOk) =>
      var m := Message(s.seqNum, body);
      var s' := s.(nextTag := s.nextTag + 1, sender := Enqueue(s.sender, Exchange(s.nextTag, m), sendOk));
      if Accepts(s.sender, sendOk) then
        s'.(seqNum := s.seqNum + 1, enqueued := s.enqueued + [m], requests := s.requests[s.nextTag := m])
      else s'
    case CompleteStep(outcome) => s.(sender := CompleteFront(s.sender, outcome))
    case DeactivateStep => s.(sender := Deactivate(s.sender))
    case FinishStep =>
      var c := s.sender.completing.value;
      s.(sender := FinishCompletion(s.sender),
         resolved := if Settles(c.outcome) then s.resolved + {c.msg.seqNum} else s.resolved)
    case TakeTopStep(top) => s.(sender := TakeTop(s.sender, top))
    case ResendStep(sendOk) =>
      var m := s.sender.hand.value.msg;
      s.(nextTag := s.nextTag + 1,
         sender := Resend(s.sender, s.nextTag, sendOk),
         requests := if sendOk then s.requests[s.nextTag := m] else s.requests)
    case ResendDoneStep(outcome) =>
      var m := s.sender.hand.value.msg;
      s.(sender := ResendDone(s.sender, outcome),
         resolved := if Settles(outcome) then s.resolved + {m.seqNum} else s.resolved)
    case ActivateStep => s.(sender := Activate(s.sender))
    case ReceiveStep(tag) =>
      var answer := Answer(s.receiver, s.requests[tag]);
      s.(receiver := Receive(s.receiver, s.requests[tag]),
         replies := if answer.Some? then s.replies + {Reply(tag, answer.value)} else s.replies)
    case ConnectStep(matches) => s.(receiver := Connect(s.receiver, matches))
    case BeginQueryStep(slot) =>
      var taken := TakenAtOnce(s.receiver.cache, slot);
      var s' := s.(nextNote := s.nextNote + 1,
                   receiver := s.receiver.(cache := BeginQuery(s.receiver.cache, slot, s.nextNote)));
      if taken.Some? then HandOut(s', slot, taken)
      else s'.(readers := s.readers[slot := Waiting(s.nextNote)])
    case WakeStep(slot) =>
      // The timed wait returns true when it was notified; otherwise this is its timeout.
      var n := s.readers[slot].n;
      s.(readers := s.readers[slot := Woken(n, n in s.receiver.cache.notified)])
    case EndQueryStep(slot) =>
      var taken := TakenAfterWait(s.receiver.cache, slot, s.readers[slot].ok);
      HandOut(s.(readers := s.readers - {slot},
              receiver := s.receiver.(cache := EndQuery(s.receiver.cache, slot))),
           slot, taken)
  }

  /** The tensors enqueued under one name, in order. */
  function DataOf(name: string, ms: seq<Message>): seq<Message> {
    if ms == [] then []
    else
      var rest := DataOf(name, ms[..|ms| - 1]);
      var last := ms[|ms| - 1];
      if last.body.Data? && last.body.name == name then rest + [last] else rest
  }

  lemma {:induction false} DataOfPrefix(name: string, ms: seq<Message>, k: nat)
    requires k <= |ms|
    ensures DataOf(name, ms[..k]) <= DataOf(name, ms)
    decreases |ms|
  {
    if k < |ms| {
      DataOfPrefix(name, ms[..|ms| - 1], k);
      assert ms[..|ms| - 1][..k] == ms[..k];
    } else {
      assert ms[..k] == ms;
    }
  }

  // ----- Invariant -----

  /** Everything from here on is in flight. */
  function InflightFrom(sent: seq<Message>, x: Sender): int {
    |sent| - |x.inflight|
  }

  /** Everything from here on is in flight or in a completion callback. */
  function Top(sent: seq<Message>, x: Sender): int {
    if x.completing.Some? then InflightFrom(sent, x) - 1 else InflightFrom(sent, x)
  }

  predicate Held(x: Sender, k: nat) {
    x.hand.Some? && x.hand.value.msg.seqNum == k
  }

  predicate Sent(sent: seq<Message>, m: Message) {
    m.seqNum < |sent| && sent[m.seqNum] == m
  }

  /** The k-th accepted message waits in the retry heap. */
  predicate Queued(sent: seq<Message>, x: Sender, k: nat)
    requires k < |sent|
  {
    sent[k] in x.heap
  }

  ghost predicate Numbered(sent: seq<Message>) {
    forall k :: 0 <= k < |sent| ==> sent[k].seqNum == k
  }

  /** The deque is the tail of what was accepted, the callback holds the message just before it. */
  ghost predicate InflightInv(sent: seq<Message>, x: Sender) {
    && 0 <= Top(sent, x) <= InflightFrom(sent, x)
    && (forall i :: 0 <= i < |x.inflight| ==> x.inflight[i].msg == sent[InflightFrom(sent, x) + i])
    && (x.completing.Some? ==> x.completing.value.msg == sent[Top(sent, x)])
  }

  /** Retries are older than anything in flight, each is queued once, and the held one is the oldest. */
  ghost predicate RetryInv(sent: seq<Message>, x: Sender) {
    && (forall m :: m in x.heap ==> m.seqNum < Top(sent, x) && Sent(sent, m) && x.heap[m] == 1)
    && (x.hand.Some? ==> x.hand.value.msg.seqNum < Top(sent, x) && Sent(sent, x.hand.value.msg))
    && (x.hand.Some? ==> forall m :: m in x.heap ==> x.hand.value.msg.seqNum < m.seqNum)
  }

  /** A number is freed exactly when it is neither in flight, in a callback, queued for retry nor held. */
  ghost predicate ResolvedInv(sent: seq<Message>, x: Sender, resolved: set<nat>) {
    && Top(sent, x) <= |sent|
    && (forall k :: k in resolved ==> k < Top(sent, x))
    && (forall k :: 0 <= k < Top(sent, x) ==> (k in resolved <==> !Queued(sent, x, k) && !Held(x, k)))
  }

  ghost predicate SenderInv(sent: seq<Message>, x: Sender, resolved: set<nat>) {
    Numbered(sent) && InflightInv(sent, x) && RetryInv(sent, x) && ResolvedInv(sent, x, resolved)
  }

  /** Requests on the wire carry accepted messages; a settling reply proves the receiver moved past its message. */
  ghost predicate WireInv(sent: seq<Message>, nextTag: nat, requests: map<nat, Message>, replies: set<Reply>, expected: nat) {
    && expected <= |sent|
    && (forall t :: t in requests ==> t < nextTag && Sent(sent, requests[t]))
    && (forall r :: r in replies ==> r.tag in requests)
    && (forall r :: r in replies && Settles(Replied(r.code)) ==> requests[r.tag].seqNum < expected)
  }

  /** Attempts of the sender are on the wire, and what it counts as settled the receiver has moved past. */
  ghost predicate LinkInv(x: Sender, resolved: set<nat>, requests: map<nat, Message>, replies: set<Reply>, expected: nat) {
    && (forall i :: 0 <= i < |x.inflight| ==>
          x.inflight[i].tag in requests && requests[x.inflight[i].tag] == x.inflight[i].msg)
    && (x.completing.Some? && Settles(x.completing.value.outcome) ==> x.completing.value.msg.seqNum < expected)
    && (forall k :: k in resolved ==> k < expected)
    && (x.hand.Some? && x.hand.value.attempt.Some? ==>
          && x.hand.value.attempt.value in requests
          && requests[x.hand.value.attempt.value] == x.hand.value.msg
          && Reply(x.hand.value.attempt.value, MESSAGE_MISSING) !in replies)
  }

  /** The contents of a full mailbox. */
  function Pending(c: Cache, slot: Slot): seq<Message> {
    if EntryAt(c, slot).state == ACTIVE then [EntryAt(c, slot).rdata] else []
  }

  /** The protocol between a mailbox and its one reader. */
  ghost predicate BoxInv(s: System, slot: Slot) {
    var e := EntryAt(s.receiver.cache, slot);
    if slot !in s.readers then e.state != WAIT && e.callback == None
    else
      var n := s.readers[slot].n;
      && e.state != IDLE && e.callback == Some(n)
      && (n in s.receiver.cache.notified <==> e.state == ACTIVE)
      && (s.readers[slot].Woken? && s.readers[slot].ok ==> e.state == ACTIVE)
  }

  ghost predicate ReaderInv(s: System) {
    && (forall n :: n in s.receiver.cache.notified ==> n < s.nextNote)
    && (forall slot :: slot in s.readers ==> s.readers[slot].n < s.nextNote)
    && (forall a, b :: a in s.readers && b in s.readers && a != b ==> s.readers[a].n != s.readers[b].n)
    && (forall slot :: BoxInv(s, slot))
  }

  ghost predicate NameInv(s: System, name: string)
    requires s.receiver.expected <= |s.enqueued|
  {
    Delivered(s, DataSlot(name)) + Pending(s.receiver.cache, DataSlot(name))
    == DataOf(name, s.enqueued[..s.receiver.expected])
  }

  /** What a name's reader was handed, followed by what waits in the mailbox, is what was accepted under the name. */
  ghost predicate FifoInv(s: System) {
    && s.receiver.expected <= |s.enqueued|
    && forall name :: NameInv(s, name)
  }

  ghost predicate EndsInv(s: System) {
    && s.seqNum == |s.enqueued|
    && SenderInv(s.enqueued, s.sender, s.resolved)
    && WireInv(s.enqueued, s.nextTag, s.requests, s.replies, s.receiver.expected)
    && LinkInv(s.sender, s.resolved, s.requests, s.replies, s.receiver.expected)
  }

  ghost predicate Inv(s: System) {
    EndsInv(s) && ReaderInv(s) && FifoInv(s)
  }

  /** The held message is the lowest unresolved one, so the receiver expects at least its number. */
  lemma HeldIsLowest(s: System)
    requires EndsInv(s) && s.sender.hand.Some?
    ensures forall k :: 0 <= k < s.sender.hand.value.msg.seqNum ==> k in s.resolved
    ensures s.sender.hand.value.msg.seqNum !in s.resolved
    ensures s.sender.hand.value.msg.seqNum <= s.receiver.expected
  {
    var h := s.sender.hand.value.msg.seqNum;
    forall k | 0 <= k < h
      ensures k in s.resolved
    {
      assert s.enqueued[k].seqNum == k;
      assert !Held(s.sender, k);
    }
    assert Held(s.sender, h);
    assert h > 0 ==> h - 1 in s.resolved;
  }

  // ----- The sender's steps -----

  lemma EnqueueKeeps(sent: seq<Message>, x: Sender, resolved: set<nat>, e: Exchange)
    requires SenderInv(sent, x, resolved) && e.msg.seqNum == |sent|
    ensures SenderInv(sent + [e.msg], x.(inflight := x.inflight + [e]), resolved)
  {
    var sent', y := sent + [e.msg], x.(inflight := x.inflight + [e]);
    assert InflightFrom(sent', y) == InflightFrom(sent, x);
    assert forall m :: Sent(sent, m) ==> Sent(sent', m);
  }

  lemma CompleteFrontKeeps(sent: seq<Message>, x: Sender, resolved: set<nat>, outcome: Outcome)
    requires SenderInv(sent, x, resolved) && x.inflight != [] && x.completing.None?
    ensures SenderInv(sent, CompleteFront(x, outcome), resolved)
  {
    assert Top(sent, CompleteFront(x, outcome)) == Top(sent, x);
    assert x.inflight[0].msg == sent[Top(sent, x)];
  }

  lemma FinishSettledKeeps(sent: seq<Message>, x: Sender, resolved: set<nat>)
    requires SenderInv(sent, x, resolved) && x.completing.Some? && Settles(x.completing.value.outcome)
    ensures SenderInv(sent, FinishCompletion(x), resolved + {x.completing.value.msg.seqNum})
  {
    var c, y := x.completing.value, FinishCompletion(x);
    assert Top(sent, y) == Top(sent, x) + 1;
    assert c.msg.seqNum == Top(sent, x) && c.msg !in x.heap && !Held(x, c.msg.seqNum);
  }

  lemma FinishRetriedKeeps(sent: seq<Message>, x: Sender, resolved: set<nat>)
    requires SenderInv(sent, x, resolved) && x.completing.Some? && !Settles(x.completing.value.outcome)
    ensures SenderInv(sent, FinishCompletion(x), resolved)
  {
    var c, y := x.completing.value, FinishCompletion(x);
    assert Top(sent, y) == Top(sent, x) + 1;
    assert c.msg.seqNum == Top(sent, x) && c.msg !in x.heap && !Held(x, c.msg.seqNum);
    assert forall k :: 0 <= k < Top(sent, x) ==> sent[k] != c.msg;
  }

  lemma FinishKeeps(sent: seq<Message>, x: Sender, resolved: set<nat>)
    requires SenderInv(sent, x, resolved) && x.completing.Some?
    ensures var c := x.completing.value;
            SenderInv(sent, FinishCompletion(x), if Settles(c.outcome) then resolved + {c.msg.seqNum} else resolved)
  {
    if Settles(x.completing.value.outcome) {
      FinishSettledKeeps(sent, x, resolved);
    } else {
      FinishRetriedKeeps(sent, x, resolved);
    }
  }

  lemma TakeTopKeeps(sent: seq<Message>, x: Sender, resolved: set<nat>, m: Message)
    requires SenderInv(sent, x, resolved) && x.hand.None? && IsTop(x.heap, m)
    ensures SenderInv(sent, TakeTop(x, m), resolved)
  {
    var y := TakeTop(x, m);
    assert Top(sent, y) == Top(sent, x);
    assert forall o :: o in y.heap ==> o in x.heap && o != m && y.heap[o] == x.heap[o];
    assert forall o :: o in x.heap && o != m ==> o in y.heap;
  }

  lemma ResendKeeps(sent: seq<Message>, x: Sender, resolved: set<nat>, tag: nat, sendOk: bool)
    requires SenderInv(sent, x, resolved) && x.hand.Some?
    ensures SenderInv(sent, Resend(x, tag, sendOk), resolved)
  {
    var y := Resend(x, tag, sendOk);
    assert Top(sent, y) == Top(sent, x);
    assert forall k: nat :: Held(y, k) <==> Held(x, k);
  }

  lemma ResendDoneKeeps(sent: seq<Message>, x: Sender, resolved: set<nat>, outcome: Outcome)
    requires SenderInv(sent, x, resolved) && x.hand.Some?
    ensures SenderInv(sent, ResendDone(x, outcome),
                      if Settles(outcome) then resolved + {x.hand.value.msg.seqNum} else resolved)
  {
    var y := ResendDone(x, outcome);
    var h := x.hand.value.msg;
    assert Top(sent, y) == Top(sent, x);
    assert sent[h.seqNum] == h && h !in x.heap;
    if !Settles(outcome) {
      assert forall k: nat :: Held(y, k) <==> Held(x, k);
    }
  }

  predicate SenderStep(step: Step) {
    step.EnqueueStep? || step.CompleteStep? || step.DeactivateStep? || step.FinishStep? || step.TakeTopStep?
    || step.ResendStep? || step.ResendDoneStep? || step.ActivateStep?
  }

  /** A fresh attempt on the wire. */
  lemma PutKeepsWire(sent: seq<Message>, more: seq<Message>, tag: nat, requests: map<nat, Message>, replies: set<Reply>,
                     expected: nat, m: Message)
    requires WireInv(sent, tag, requests, replies, expected) && sent <= more && Sent(more, m)
    ensures WireInv(more, tag + 1, requests[tag := m], replies, expected)
    ensures tag !in requests && forall r :: r in replies ==> r.tag != tag
  {
    assert forall m :: Sent(sent, m) ==> Sent(more, m);
  }

  lemma EnqueueKeepsLink(x: Sender, resolved: set<nat>, requests: map<nat, Message>, replies: set<Reply>,
                         expected: nat, e: Exchange)
    requires LinkInv(x, resolved, requests, replies, expected) && e.tag !in requests
    ensures LinkInv(x.(inflight := x.inflight + [e]), resolved, requests[e.tag := e.msg], replies, expected)
  {
  }

  lemma EnqueueKeepsEnds(s: System, step: Step)
    requires EndsInv(s) && step.EnqueueStep?
    ensures EndsInv(Apply(s, step))
  {
    var m := Message(s.seqNum, step.body);
    if Accepts(s.sender, step.sendOk) {
      EnqueueKeeps(s.enqueued, s.sender, s.resolved, Exchange(s.nextTag, m));
      PutKeepsWire(s.enqueued, s.enqueued + [m], s.nextTag, s.requests, s.replies, s.receiver.expected, m);
      EnqueueKeepsLink(s.sender, s.resolved, s.requests, s.replies, s.receiver.expected, Exchange(s.nextTag, m));
    }
  }

  lemma CompleteKeepsEnds(s: System, step: Step)
    requires EndsInv(s) && Enabled(s, step) && step.CompleteStep?
    ensures EndsInv(Apply(s, step))
  {
    CompleteFrontKeeps(s.enqueued, s.sender, s.resolved, step.outcome);
    assert s.sender.inflight[0].tag in s.requests;
  }

  lemma DeactivateKeepsEnds(s: System, step: Step)
    requires EndsInv(s) && Enabled(s, step) && step.DeactivateStep?
    ensures EndsInv(Apply(s, step))
  {
    assert Top(s.enqueued, Deactivate(s.sender)) == Top(s.enqueued, s.sender);
  }

  lemma FinishKeepsEnds(s: System, step: Step)
    requires EndsInv(s) && Enabled(s, step) && step.FinishStep?
    ensures EndsInv(Apply(s, step))
  {
    FinishKeeps(s.enqueued, s.sender, s.resolved);
  }

  lemma ResendKeepsEnds(s: System, step: Step)
    requires EndsInv(s) && Enabled(s, step) && step.ResendStep?
    ensures EndsInv(Apply(s, step))
  {
    var m := s.sender.hand.value.msg;
    ResendKeeps(s.enqueued, s.sender, s.resolved, s.nextTag, step.sendOk);
    PutKeepsWire(s.enqueued, s.enqueued, s.nextTag, s.requests, s.replies, s.receiver.expected, m);
  }

  lemma ResendDoneKeepsLink(x: Sender, resolved: set<nat>, requests: map<nat, Message>, replies: set<Reply>,
                            expected: nat, outcome: Outcome)
    requires LinkInv(x, resolved, requests, replies, expected) && x.hand.Some?
    requires Settles(outcome) ==> x.hand.value.msg.seqNum < expected
    ensures LinkInv(ResendDone(x, outcome),
                    if Settles(outcome) then resolved + {x.hand.value.msg.seqNum} else resolved,
                    requests, replies, expected)
  {
  }

  lemma ResendDoneKeepsEnds(s: System, step: Step)
    requires EndsInv(s) && Enabled(s, step) && step.ResendDoneStep?
    ensures EndsInv(Apply(s, step))
  {
    if Settles(step.outcome) {
      assert Reply(s.sender.hand.value.attempt.value, step.outcome.code) in s.replies;
    }
    ResendDoneKeeps(s.enqueued, s.sender, s.resolved, step.outcome);
    ResendDoneKeepsLink(s.sender, s.resolved, s.requests, s.replies, s.receiver.expected, step.outcome);
  }

  lemma RetryKeepsEnds(s: System, step: Step)
    requires EndsInv(s) && Enabled(s, step) && (step.TakeTopStep? || step.ActivateStep?)
    ensures EndsInv(Apply(s, step))
  {
    if step.TakeTopStep? {
      TakeTopKeeps(s.enqueued, s.sender, s.resolved, step.top);
    } else {
      assert Top(s.enqueued, Activate(s.sender)) == Top(s.enqueued, s.sender);
    }
  }

  /** Steps of the sending process touch neither the receiver nor the mailboxes. */
  lemma SenderStepFrame(s: System, step: Step)
    requires Enabled(s, step) && SenderStep(step)
    ensures var t := Apply(s, step);
            && t.receiver == s.receiver && t.readers == s.readers && t.delivered == s.delivered
            && t.nextNote == s.nextNote && s.enqueued <= t.enqueued
  {
  }

  lemma SenderStepKeeps(s: System, step: Step)
    requires Inv(s) && Enabled(s, step) && SenderStep(step)
    ensures Inv(Apply(s, step))
  {
    if step.EnqueueStep? {
      EnqueueKeepsEnds(s, step);
    } else if step.CompleteStep? {
      CompleteKeepsEnds(s, step);
    } else if step.DeactivateStep? {
      DeactivateKeepsEnds(s, step);
    } else if step.FinishStep? {
      FinishKeepsEnds(s, step);
    } else if step.ResendStep? {
      ResendKeepsEnds(s, step);
    } else if step.ResendDoneStep? {
      ResendDoneKeepsEnds(s, step);
    } else {
      RetryKeepsEnds(s, step);
    }
    SenderStepFrame(s, step);
    SameBoxes(s, Apply(s, step));
  }

  // ----- The receiver's steps -----

  lemma ReceiveKeepsEnds(s: System, tag: nat)
    requires EndsInv(s) && tag in s.requests
    ensures EndsInv(Apply(s, ReceiveStep(tag)))
  {
    if s.sender.hand.Some? {
      HeldIsLowest(s);
    }
    assert Sent(s.enqueued, s.requests[tag]);
  }

  lemma DataOfNext(name: string, ms: seq<Message>, k: nat)
    requires k < |ms|
    ensures DataOf(name, ms[..k + 1])
            == DataOf(name, ms[..k]) + if ms[k].body.Data? && ms[k].body.name == name then [ms[k]] else []
  {
    assert ms[..k + 1][..k] == ms[..k];
  }

  /** A stored message fills a free mailbox of its own and leaves the others alone. */
  lemma DepositPending(c: Cache, m: Message, slot: Slot)
    requires !Refuses(c, m)
    ensures SlotOf(m.body) == Some(slot) ==> Pending(Deposit(c, m), slot) == [m]
    ensures SlotOf(m.body) == Some(slot) && m.body.Data? ==> Pending(c, slot) == []
    ensures SlotOf(m.body) != Some(slot) ==> Pending(Deposit(c, m), slot) == Pending(c, slot)
  {
  }

  /** A message is accepted only at its own number, into a free mailbox; its reader then sees it exactly once more. */
  lemma AcceptKeepsFifo(s: System, tag: nat, name: string)
    requires FifoInv(s) && s.receiver.expected < |s.enqueued|
    requires tag in s.requests && Sent(s.enqueued, s.requests[tag])
    requires Answer(s.receiver, s.requests[tag]) == Some(SUCCESS)
    ensures NameInv(Apply(s, ReceiveStep(tag)), name)
  {
    var m, slot := s.requests[tag], DataSlot(name);
    DataOfNext(name, s.enqueued, s.receiver.expected);
    DepositPending(s.receiver.cache, m, slot);
    assert NameInv(s, name);
    assert SlotOf(m.body) == Some(slot) <==> m.body.Data? && m.body.name == name;
    assert Delivered(Apply(s, ReceiveStep(tag)), slot) == Delivered(s, slot);
  }

  lemma AcceptKeepsReaders(s: System, tag: nat)
    requires ReaderInv(s) && tag in s.requests && Answer(s.receiver, s.requests[tag]) == Some(SUCCESS)
    ensures ReaderInv(Apply(s, ReceiveStep(tag)))
  {
    var t := Apply(s, ReceiveStep(tag));
    var slot0 := SlotOf(s.requests[tag].body).value;
    assert BoxInv(s, slot0);
    forall slot
      ensures BoxInv(t, slot)
    {
      assert BoxInv(s, slot);
      if slot != slot0 {
        assert EntryAt(t.receiver.cache, slot) == EntryAt(s.receiver.cache, slot);
      }
    }
  }

  lemma ReceiveKeeps(s: System, tag: nat)
    requires Inv(s) && tag in s.requests
    ensures Inv(Apply(s, ReceiveStep(tag)))
  {
    var t := Apply(s, ReceiveStep(tag));
    ReceiveKeepsEnds(s, tag);
    if Answer(s.receiver, s.requests[tag]) == Some(SUCCESS) {
      assert Sent(s.enqueued, s.requests[tag]);
      forall name
        ensures NameInv(t, name)
      {
        AcceptKeepsFifo(s, tag, name);
      }
      AcceptKeepsReaders(s, tag);
    } else {
      SameBoxes(s, t);
    }
  }

  /** A step that leaves mailboxes, readers and counters alone keeps their invariants. */
  lemma SameBoxes(s: System, t: System)
    requires ReaderInv(s) && FifoInv(s)
    requires t.receiver.cache == s.receiver.cache && t.receiver.expected == s.receiver.expected
    requires t.readers == s.readers && t.delivered == s.delivered && t.nextNote == s.nextNote && s.enqueued <= t.enqueued
    ensures ReaderInv(t) && FifoInv(t)
  {
    assert forall slot :: BoxInv(s, slot) ==> BoxInv(t, slot);
    assert t.enqueued[..s.receiver.expected] == s.enqueued[..s.receiver.expected];
    forall name
      ensures NameInv(t, name)
    {
      assert NameInv(s, name);
    }
  }

  predicate QueryStep(step: Step) {
    step.BeginQueryStep? || step.WakeStep? || step.EndQueryStep?
  }

  lemma QueryKeepsBox(s: System, step: Step, slot: Slot)
    requires ReaderInv(s) && Enabled(s, step) && QueryStep(step)
    ensures BoxInv(Apply(s, step), slot)
  {
    assert BoxInv(s, slot);
    if slot != step.slot {
      assert EntryAt(Apply(s, step).receiver.cache, slot) == EntryAt(s.receiver.cache, slot);
    }
  }

  lemma QueryKeepsReaders(s: System, step: Step)
    requires ReaderInv(s) && Enabled(s, step) && QueryStep(step)
    ensures ReaderInv(Apply(s, step))
  {
    forall slot
      ensures BoxInv(Apply(s, step), slot)
    {
      QueryKeepsBox(s, step, slot);
    }
  }

  /** A query moves at most the mailbox's message into the reader's hands. */
  lemma QueryMovesPending(s: System, step: Step, slot: Slot)
    requires ReaderInv(s) && Enabled(s, step) && QueryStep(step)
    ensures Delivered(Apply(s, step), slot) + Pending(Apply(s, step).receiver.cache, slot)
            == Delivered(s, slot) + Pending(s.receiver.cache, slot)
  {
    var t := Apply(s, step);
    assert BoxInv(s, step.slot);
    if slot != step.slot {
      assert EntryAt(t.receiver.cache, slot) == EntryAt(s.receiver.cache, slot);
      assert Delivered(t, slot) == Delivered(s, slot);
    }
  }

  /** Everything the invariant of the two ends speaks of. */
  predicate SameEnds(s: System, t: System) {
    && t.seqNum == s.seqNum && t.enqueued == s.enqueued && t.sender == s.sender && t.resolved == s.resolved
    && t.nextTag == s.nextTag && t.requests == s.requests && t.replies == s.replies
    && t.receiver.expected == s.receiver.expected
  }

  lemma QueryKeepsEnds(s: System, step: Step)
    requires Enabled(s, step) && (QueryStep(step) || step.ConnectStep?)
    ensures SameEnds(s, Apply(s, step))
  {
  }

  lemma SameEndsInv(s: System, t: System)
    requires EndsInv(s) && SameEnds(s, t)
    ensures EndsInv(t)
  {
  }

  lemma QueryKeeps(s: System, step: Step)
    requires Inv(s) && Enabled(s, step) && QueryStep(step)
    ensures Inv(Apply(s, step))
  {
    var t := Apply(s, step);
    QueryKeepsEnds(s, step);
    SameEndsInv(s, t);
    QueryKeepsReaders(s, step);
    forall name
      ensures NameInv(t, name)
    {
      QueryMovesPending(s, step, DataSlot(name));
      assert NameInv(s, name);
    }
  }

  lemma StepKeepsInv(s: System, step: Step)
    requires Inv(s) && Enabled(s, step)
    ensures Inv(Apply(s, step))
  {
    if SenderStep(step) {
      SenderStepKeeps(s, step);
    } else if step.ReceiveStep? {
      ReceiveKeeps(s, step.tag);
    } else if step.ConnectStep? {
      QueryKeepsEnds(s, step);
      SameEndsInv(s, Apply(s, step));
      SameBoxes(s, Apply(s, step));
    } else {
      QueryKeeps(s, step);
    }
  }

  // ----- Whole runs -----

  ghost predicate IsRun(s: System, steps: seq<Step>, t: System)
    decreases |steps|
  {
    if steps == [] then s == t
    else Enabled(s, steps[0]) && IsRun(Apply(s, steps[0]), steps[1..], t)
  }

  ghost predicate Reachable(s: System) {
    exists steps :: IsRun(INITIAL, steps, s)
  }

  lemma {:induction false} RunKeepsInv(s: System, steps: seq<Step>, t: System)
    requires Inv(s) && IsRun(s, steps, t)
    ensures Inv(t)
    decreases |steps|
  {
    if steps != [] {
      StepKeepsInv(s, steps[0]);
      RunKeepsInv(Apply(s, steps[0]), steps[1..], t);
    }
  }

  lemma ReachableInv(s: System)
    requires Reachable(s)
    ensures Inv(s)
  {
    var steps :| IsRun(INITIAL, steps, s);
    assert Inv(INITIAL);
    RunKeepsInv(INITIAL, steps, s);
  }

  /** The mailbox loses and repeats nothing, across any race of timeout, notification and arrival: the messages
      accepted under a name are those handed out, in order, followed by the one that waits, if any. */
  lemma MailboxConservation(s: System, name: string)
    requires Reachable(s)
    ensures s.receiver.expected <= |s.enqueued|
    ensures Delivered(s, DataSlot(name)) + Pending(s.receiver.cache, DataSlot(name))
            == DataOf(name, s.enqueued[..s.receiver.expected])
  {
    ReachableInv(s);
    assert NameInv(s, name);
  }

  /** Once a link is down after training started, it stays down, and no message is accepted any more. */
  lemma {:induction false} LinkDownIsFinal(s: System, steps: seq<Step>, t: System)
    requires IsRun(s, steps, t) && s.receiver.state != NEW && !s.receiver.linkUp
    ensures t.receiver.state != NEW && !t.receiver.linkUp && t.receiver.expected == s.receiver.expected
    decreases |steps|
  {
    if steps != [] {
      var next := Apply(s, steps[0]);
      assert next.receiver.state == s.receiver.state && !next.receiver.linkUp;
      LinkDownIsFinal(next, steps[1..], t);
    }
  }

  /** In every run, what a name's reader has been handed is a prefix of what was enqueued under the name. */
  lemma DeliveryIsPrefix(s: System, name: string)
    requires Reachable(s)
    ensures Delivered(s, DataSlot(name)) <= DataOf(name, s.enqueued)
  {
    ReachableInv(s);
    assert NameInv(s, name);
    DataOfPrefix(name, s.enqueued, s.receiver.expected);
  }

  /** Once the sender has nothing left to do and a name's mailbox is empty, its reader has everything. */
  lemma NothingIsLost(s: System, name: string)
    requires Reachable(s)
    requires s.sender.inflight == [] && s.sender.completing.None? && s.sender.heap == multiset{} && s.sender.hand.None?
    requires EntryAt(s.receiver.cache, DataSlot(name)).state != ACTIVE
    ensures Delivered(s, DataSlot(name)) == DataOf(name, s.enqueued)
  {
    ReachableInv(s);
    var n := |s.enqueued|;
    if n > 0 {
      assert s.enqueued[n - 1] !in s.sender.heap;
      assert n - 1 in s.resolved;
    }
    assert s.enqueued[..s.receiver.expected] == s.enqueued;
    assert NameInv(s, name);
    assert Pending(s.receiver.cache, DataSlot(name)) == [];
  }

  /** Where the k-th accepted message can be. */
  predicate IsInFlight(s: System, k: nat) { exists i :: 0 <= i < |s.sender.inflight| && s.sender.inflight[i].msg.seqNum == k }
  predicate IsInCallback(s: System, k: nat) { s.sender.completing.Some? && s.sender.completing.value.msg.seqNum == k }
  predicate IsInHeap(s: System, k: nat) { exists m :: m in s.sender.heap && m.seqNum == k }

  function Count(b: bool): nat { if b then 1 else 0 }

  /** Conservation: every accepted message is in exactly one place, retries are numbered below everything
      in flight, and a freed number is below the number the receiver expects. */
  lemma SenderConservation(s: System, k: nat)
    requires Reachable(s) && k < |s.enqueued|
    ensures Count(IsInFlight(s, k)) + Count(IsInCallback(s, k)) + Count(IsInHeap(s, k)) + Count(Held(s.sender, k))
            + Count(k in s.resolved) == 1
    ensures IsInHeap(s, k) || Held(s.sender, k) ==> forall x :: x in s.sender.inflight ==> k < x.msg.seqNum
    ensures k in s.resolved ==> k < s.receiver.expected
  {
    ReachableInv(s);
    var lo := InflightFrom(s.enqueued, s.sender);
    if k >= lo {
      assert s.sender.inflight[k - lo].msg.seqNum == k;
    } else {
      assert !IsInFlight(s, k);
      assert IsInCallback(s, k) <==> k == Top(s.enqueued, s.sender);
    }
    assert IsInHeap(s, k) <==> s.enqueued[k] in s.sender.heap;
    if k < Top(s.enqueued, s.sender) && Held(s.sender, k) {
      assert s.enqueued[k] == s.sender.hand.value.msg;
      assert s.enqueued[k] !in s.sender.heap;
    }
  }

  /** A resend is never answered MESSAGE_MISSING: the held message is the lowest unresolved one, and the
      receiver expects at least its number. Only SUCCESS and MESSAGE_DUPLICATED end the loop, so it repeats
      only after a transport error or a refusal. */
  lemma ResendIsNeverMissing(s: System, outcome: Outcome)
    requires Reachable(s) && Enabled(s, ResendDoneStep(outcome))
    ensures outcome in {TransportError, Replied(SUCCESS), Replied(MESSAGE_DUPLICATED), Replied(UNKNOWN_ERROR)}
    ensures Apply(s, ResendDoneStep(outcome)).sender.hand.Some? <==>
            outcome == TransportError || outcome == Replied(UNKNOWN_ERROR)
    ensures s.sender.hand.value.msg.seqNum <= s.receiver.expected
    ensures forall k :: 0 <= k < s.sender.hand.value.msg.seqNum ==> k in s.resolved
  {
    ReachableInv(s);
    HeldIsLowest(s);
    if outcome.Replied? {
      assert Reply(s.sender.hand.value.attempt.value, outcome.code) in s.replies;
      assert outcome.code != MESSAGE_MISSING;
    }
  }

  // ----- Refinement -----

  /** The specification: one first-in first-out queue per tensor name. */
  datatype Op = Push(m: Message) | Pop(m: Message) | Stutter

  /** The queue of a name: enqueued and not yet handed out. */
  function QueueOf(s: System, name: string): seq<Message> {
    var all, done := DataOf(name, s.enqueued), |Delivered(s, DataSlot(name))|;
    if done <= |all| then all[done..] else []
  }

  predicate QueueStep(before: seq<Message>, op: Op, after: seq<Message>) {
    match op
    case Push(m) => after == before + [m]
    case Pop(m) => before == [m] + after
    case Stutter => after == before
  }

  /** What a step is to the queue of `name`. */
  function Meaning(s: System, step: Step, name: string): Op
    requires Enabled(s, step)
  {
    match step
    case EnqueueStep(body, sendOk) =>
      if Accepts(s.sender, sendOk) && body.Data? && body.name == name then Push(Message(s.seqNum, body)) else Stutter
    case BeginQueryStep(slot) =>
      var taken := TakenAtOnce(s.receiver.cache, slot);
      if slot == DataSlot(name) && taken.Some? then Pop(taken.value) else Stutter
    case EndQueryStep(slot) =>
      var taken := TakenAfterWait(s.receiver.cache, slot, s.readers[slot].ok);
      if slot == DataSlot(name) && taken.Some? then Pop(taken.value) else Stutter
    case _ => Stutter
  }

  lemma EnqueueIsPush(s: System, step: Step, name: string)
    requires step.EnqueueStep? && Delivered(s, DataSlot(name)) <= DataOf(name, s.enqueued)
    ensures QueueStep(QueueOf(s, name), Meaning(s, step, name), QueueOf(Apply(s, step), name))
  {
    var t := Apply(s, step);
    if Accepts(s.sender, step.sendOk) {
      assert t.enqueued[..|t.enqueued| - 1] == s.enqueued;
    }
    assert Delivered(t, DataSlot(name)) == Delivered(s, DataSlot(name));
  }

  lemma FrontOfRest(got: seq<Message>, m: Message, all: seq<Message>)
    requires got + [m] <= all
    ensures |got| < |all| && all[|got|..] == [m] + all[|got| + 1..]
  {
    assert (got + [m])[|got|] == m;
  }

  lemma TakingIsPop(s: System, step: Step, name: string)
    requires ReaderInv(s) && FifoInv(s) && Enabled(s, step) && QueryStep(step)
    requires Meaning(s, step, name).Pop?
    ensures QueueStep(QueueOf(s, name), Meaning(s, step, name), QueueOf(Apply(s, step), name))
  {
    var slot := DataSlot(name);
    var all, got := DataOf(name, s.enqueued), Delivered(s, slot);
    assert BoxInv(s, slot) && NameInv(s, name);
    var m := EntryAt(s.receiver.cache, slot).rdata;
    DataOfPrefix(name, s.enqueued, s.receiver.expected);
    assert Pending(s.receiver.cache, slot) == [m];
    FrontOfRest(got, m, all);
    assert Delivered(Apply(s, step), slot) == got + [m];
  }

  lemma OthersStutter(s: System, step: Step, name: string)
    requires ReaderInv(s) && Enabled(s, step) && !step.EnqueueStep? && Meaning(s, step, name).Stutter?
    ensures Apply(s, step).enqueued == s.enqueued
    ensures Delivered(Apply(s, step), DataSlot(name)) == Delivered(s, DataSlot(name))
  {
    if !SenderStep(step) && QueryStep(step) {
      assert BoxInv(s, step.slot);
    }
  }

  /** Every step of the bridge is, for each name, a push by the caller, a pop by the reader, or invisible. */
  lemma RefinesQueue(s: System, step: Step, name: string)
    requires Reachable(s) && Enabled(s, step)
    ensures QueueStep(QueueOf(s, name), Meaning(s, step, name), QueueOf(Apply(s, step), name))
  {
    ReachableInv(s);
    DeliveryIsPrefix(s, name);
    if step.EnqueueStep? {
      EnqueueIsPush(s, step, name);
    } else if Meaning(s, step, name).Pop? {
      TakingIsPop(s, step, name);
    } else {
      OthersStutter(s, step, name);
    }
  }
}

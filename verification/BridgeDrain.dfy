/** From every state of a run everything taken so far can still come through, unless the link is down for good or a
    message of unknown kind stands in the way. */
module BridgeDrain {
  import opened Wrappers
  import opened BridgeTypes
  import opened BridgeSender
  import opened BridgeReceiver
  import opened BridgeProtocol

  // ----- Continuations -----

  /** No use is made of attempts older than `from`: the network delivers neither them nor their replies. */
  predicate OwnStep(s: System, from: nat, step: Step) {
    match step
    case ReceiveStep(tag) => from <= tag
    case CompleteStep(outcome) => outcome.Replied? ==> s.sender.inflight != [] && from <= s.sender.inflight[0].tag
    case ResendDoneStep(outcome) =>
      outcome.Replied? ==>
        s.sender.hand.Some? && s.sender.hand.value.attempt.Some? && from <= s.sender.hand.value.attempt.value
    case _ => true
  }

  ghost predicate IsOwnRun(s: System, from: nat, steps: seq<Step>, t: System)
    decreases |steps|
  {
    if steps == [] then s == t
    else Enabled(s, steps[0]) && OwnStep(s, from, steps[0]) && IsOwnRun(Apply(s, steps[0]), from, steps[1..], t)
  }

  /** `t` can be reached from `s` like that. */
  ghost predicate Leads(s: System, from: nat, t: System) {
    exists steps :: IsOwnRun(s, from, steps, t)
  }

  lemma {:induction false} RunAppend(s: System, from: nat, a: seq<Step>, t: System, b: seq<Step>, u: System)
    requires IsOwnRun(s, from, a, t) && IsOwnRun(t, from, b, u)
    ensures IsOwnRun(s, from, a + b, u)
    decreases |a|
  {
    Rejoin(a, b);
    if a != [] {
      RunAppend(Apply(s, a[0]), from, a[1..], t, b, u);
      RunCons(s, from, a[0], a[1..] + b, u);
    }
  }

  lemma Rejoin(a: seq<Step>, b: seq<Step>)
    ensures a + b == if a == [] then b else [a[0]] + (a[1..] + b)
  {
  }

  lemma RunCons(s: System, from: nat, step: Step, rest: seq<Step>, t: System)
    requires Enabled(s, step) && OwnStep(s, from, step) && IsOwnRun(Apply(s, step), from, rest, t)
    ensures IsOwnRun(s, from, [step] + rest, t)
  {
    assert ([step] + rest)[0] == step && ([step] + rest)[1..] == rest;
  }

  lemma {:induction false} RunOn(s: System, steps: seq<Step>, t: System, step: Step)
    requires IsRun(s, steps, t) && Enabled(t, step)
    ensures IsRun(s, steps + [step], Apply(t, step))
    decreases |steps|
  {
    Rejoin(steps, [step]);
    if steps == [] {
      assert [step][1..] == [] && IsRun(Apply(t, step), [], Apply(t, step));
    } else {
      RunOn(Apply(s, steps[0]), steps[1..], t, step);
      assert (steps + [step])[0] == steps[0] && (steps + [step])[1..] == steps[1..] + [step];
    }
  }

  lemma ReachableStep(s: System, step: Step)
    requires Reachable(s) && Enabled(s, step)
    ensures Reachable(Apply(s, step))
  {
    var steps :| IsRun(INITIAL, steps, s);
    RunOn(INITIAL, steps, s, step);
  }

  /** `t` comes after `s`, with the same messages to bring through and the link up if it was. */
  ghost predicate GoesOn(s: System, from: nat, t: System) {
    // One value, so that proving it is one obligation and not one per conjunct.
    var holds :=
      && Leads(s, from, t) && Reachable(t) && t.enqueued == s.enqueued && (s.receiver.linkUp ==> t.receiver.linkUp)
      && s.nextTag <= t.nextTag && s.receiver.expected <= t.receiver.expected;
    holds
  }

  lemma Stays(s: System, from: nat)
    requires Reachable(s)
    ensures GoesOn(s, from, s)
  {
    assert IsOwnRun(s, from, [], s);
  }

  lemma GoesFurther(s: System, from: nat, t: System, u: System)
    requires GoesOn(s, from, t) && GoesOn(t, from, u)
    ensures GoesOn(s, from, u)
  {
    var a :| IsOwnRun(s, from, a, t);
    var b :| IsOwnRun(t, from, b, u);
    RunAppend(s, from, a, t, b, u);
  }

  /** Nothing new is taken, and no connect request takes the link down. */
  predicate Quiet(s: System, step: Step) {
    && (step.EnqueueStep? ==> !step.sendOk)
    && (step.ConnectStep? ==> s.receiver.state == NEW)
  }

  lemma QuietFrame(s: System, step: Step)
    requires Enabled(s, step) && Quiet(s, step)
    ensures var t := Apply(s, step);
            && t.enqueued == s.enqueued && (s.receiver.linkUp ==> t.receiver.linkUp)
            && s.nextTag <= t.nextTag && s.receiver.expected <= t.receiver.expected
  {
  }

  lemma OneStep(s: System, from: nat, step: Step) returns (t: System)
    requires Reachable(s) && Enabled(s, step) && OwnStep(s, from, step) && Quiet(s, step)
    ensures t == Apply(s, step) && GoesOn(s, from, t)
  {
    t := Apply(s, step);
    ReachableStep(s, step);
    QuietFrame(s, step);
    assert IsOwnRun(t, from, [], t);
    RunCons(s, from, step, [], t);
  }

  // ----- Emptying the mailboxes -----

  function Full(c: Cache): set<Slot> {
    set slot | slot in c.entries && c.entries[slot].state == ACTIVE
  }

  /** `t` differs from `s` only in that the mailbox of `slot` has been read. */
  predicate Emptied(s: System, slot: Slot, t: System) {
    // One value, so that proving it is one obligation and not one per conjunct.
    var holds :=
      && t.sender == s.sender && t.receiver.expected == s.receiver.expected
      && Full(t.receiver.cache) == Full(s.receiver.cache) - {slot};
    holds
  }

  lemma EndWait(s: System, from: nat, slot: Slot) returns (t: System)
    requires Reachable(s) && slot in s.readers && s.readers[slot].Woken?
    ensures GoesOn(s, from, t) && Emptied(s, slot, t)
  {
    t := OneStep(s, from, EndQueryStep(slot));
  }

  /** A reader takes it at once, or when its wait ends. */
  lemma EmptyOne(s: System, from: nat, slot: Slot) returns (t: System)
    requires Reachable(s) && slot in Full(s.receiver.cache)
    ensures GoesOn(s, from, t) && Emptied(s, slot, t)
  {
    if slot !in s.readers {
      t := OneStep(s, from, BeginQueryStep(slot));
    } else if s.readers[slot].Woken? {
      t := EndWait(s, from, slot);
    } else {
      var woken := OneStep(s, from, WakeStep(slot));
      t := EndWait(woken, from, slot);
      GoesFurther(s, from, woken, t);
    }
  }

  lemma {:induction false} EmptyAll(s: System, from: nat) returns (t: System)
    requires Reachable(s)
    ensures GoesOn(s, from, t) && t.sender == s.sender && t.receiver.expected == s.receiver.expected
    ensures Full(t.receiver.cache) == {}
    decreases |Full(s.receiver.cache)|
  {
    var full := Full(s.receiver.cache);
    if full == {} {
      Stays(s, from);
      t := s;
    } else {
      var slot :| slot in full;
      var one := EmptyOne(s, from, slot);
      t := EmptyAll(one, from);
      GoesFurther(s, from, one, t);
    }
  }

  // ----- Giving up what is under way -----

  /** Receiver and held message stay as they are. */
  predicate SenderOnly(s: System, t: System) {
    t.receiver == s.receiver && t.sender.hand == s.sender.hand
  }

  lemma EndCallback(s: System, from: nat) returns (t: System)
    requires Reachable(s)
    ensures GoesOn(s, from, t) && SenderOnly(s, t)
    ensures t.sender.completing.None? && t.sender.inflight == s.sender.inflight
  {
    Stays(s, from);
    t := s;
    if s.sender.completing.Some? {
      if !Settles(s.sender.completing.value.outcome) {
        t := OneStep(s, from, DeactivateStep);
      }
      var done := OneStep(t, from, FinishStep);
      GoesFurther(s, from, t, done);
      t := done;
    }
  }

  lemma FailFront(s: System, from: nat) returns (t: System)
    requires Reachable(s) && s.sender.completing.None? && s.sender.inflight != []
    ensures GoesOn(s, from, t) && SenderOnly(s, t)
    ensures t.sender.completing.None? && t.sender.inflight == s.sender.inflight[1..]
  {
    var failed := OneStep(s, from, CompleteStep(TransportError));
    t := EndCallback(failed, from);
    GoesFurther(s, from, failed, t);
  }

  lemma {:induction false} FailAll(s: System, from: nat) returns (t: System)
    requires Reachable(s) && s.sender.completing.None?
    ensures GoesOn(s, from, t) && SenderOnly(s, t)
    ensures t.sender.completing.None? && t.sender.inflight == []
    decreases |s.sender.inflight|
  {
    Stays(s, from);
    t := s;
    if s.sender.inflight != [] {
      var one := FailFront(s, from);
      t := FailAll(one, from);
      GoesFurther(s, from, one, t);
    }
  }

  /** Nothing in flight, and the resend loop between two attempts. */
  predicate OnlyRetries(x: Sender) {
    x.completing.None? && x.inflight == [] && (x.hand.Some? ==> x.hand.value.attempt.None?)
  }

  lemma GiveUp(s: System, from: nat) returns (t: System)
    requires Reachable(s)
    ensures GoesOn(s, from, t) && t.receiver == s.receiver && OnlyRetries(t.sender)
  {
    var settled := EndCallback(s, from);
    t := FailAll(settled, from);
    GoesFurther(s, from, settled, t);
    if t.sender.hand.Some? && t.sender.hand.value.attempt.Some? {
      var free := OneStep(t, from, ResendDoneStep(TransportError));
      GoesFurther(s, from, t, free);
      t := free;
    }
  }

  // ----- Sending it all again -----

  /** No message still to be received is of unknown kind. */
  predicate Known(s: System) {
    forall k :: s.receiver.expected <= k < |s.enqueued| ==> s.enqueued[k].body != NotSet
  }

  lemma {:induction false} Lowest(heap: multiset<Message>, m: Message) returns (top: Message)
    requires m in heap
    ensures IsTop(heap, top)
    decreases m.seqNum
  {
    if o :| o in heap && o.seqNum < m.seqNum {
      top := Lowest(heap, o);
    } else {
      top := m;
    }
  }

  lemma HeldIsAccepted(s: System)
    requires Reachable(s) && s.sender.hand.Some?
    ensures var m := s.sender.hand.value.msg; m.seqNum <= s.receiver.expected && Sent(s.enqueued, m)
  {
    ReachableInv(s);
    HeldIsLowest(s);
  }

  /** With every mailbox empty the receiver settles any message of known kind that is not ahead of it. */
  lemma AnswerSettles(r: Receiver, m: Message)
    requires r.linkUp && Full(r.cache) == {} && m.seqNum <= r.expected
    requires m.seqNum == r.expected ==> m.body != NotSet
    ensures Answer(r, m).Some? && Settles(Replied(Answer(r, m).value))
  {
    assert forall slot :: slot !in Full(r.cache) ==> EntryAt(r.cache, slot).state != ACTIVE;
  }

  lemma Attempt(s: System, from: nat) returns (t: System)
    requires Reachable(s) && s.sender.hand.Some? && s.sender.hand.value.attempt.None? && from <= s.nextTag
    ensures GoesOn(s, from, t) && t.receiver == s.receiver && s.nextTag in t.requests
    ensures t.sender == s.sender.(hand := Some(Hand(s.sender.hand.value.msg, Some(s.nextTag))))
    ensures t.requests[s.nextTag] == s.sender.hand.value.msg
  {
    t := OneStep(s, from, ResendStep(true));
  }

  lemma Answered(s: System, from: nat, tag: nat) returns (t: System)
    requires Reachable(s) && s.sender.hand.Some? && s.sender.hand.value.attempt == Some(tag) && from <= tag
    requires tag in s.requests && Answer(s.receiver, s.requests[tag]).Some?
    requires Settles(Replied(Answer(s.receiver, s.requests[tag]).value))
    ensures GoesOn(s, from, t) && t.sender == s.sender.(hand := None)
  {
    var received := OneStep(s, from, ReceiveStep(tag));
    t := OneStep(received, from, ResendDoneStep(Replied(Answer(s.receiver, s.requests[tag]).value)));
    GoesFurther(s, from, received, t);
  }

  lemma ResendHeld(s: System, from: nat) returns (t: System)
    requires Reachable(s) && s.sender.hand.Some? && s.sender.hand.value.attempt.None? && from <= s.nextTag
    requires s.receiver.linkUp && Known(s)
    ensures GoesOn(s, from, t) && t.sender == s.sender.(hand := None)
  {
    var emptied := EmptyAll(s, from);
    HeldIsAccepted(emptied);
    AnswerSettles(emptied.receiver, s.sender.hand.value.msg);
    var sent := Attempt(emptied, from);
    t := Answered(sent, from, emptied.nextTag);
    GoesFurther(s, from, emptied, sent);
    GoesFurther(s, from, sent, t);
  }

  lemma {:induction false} ResendAll(s: System, from: nat) returns (t: System)
    requires Reachable(s) && OnlyRetries(s.sender) && from <= s.nextTag && s.receiver.linkUp && Known(s)
    ensures GoesOn(s, from, t) && OnlyRetries(t.sender) && t.sender.heap == multiset{} && t.sender.hand.None?
    decreases |s.sender.heap|, if s.sender.hand.Some? then 1 else 0
  {
    Stays(s, from);
    t := s;
    if s.sender.hand.Some? || s.sender.heap != multiset{} {
      var next;
      if s.sender.hand.Some? {
        next := ResendHeld(s, from);
      } else {
        var m :| m in s.sender.heap;
        var top := Lowest(s.sender.heap, m);
        next := OneStep(s, from, TakeTopStep(top));
      }
      t := ResendAll(next, from);
      GoesFurther(s, from, next, t);
    }
  }

  /** The link is up or can still come up. */
  predicate CanLink(r: Receiver) {
    r.linkUp || r.state == NEW
  }

  lemma LinkUp(s: System, from: nat) returns (t: System)
    requires Reachable(s) && CanLink(s.receiver)
    ensures GoesOn(s, from, t) && t.receiver.linkUp && t.sender == s.sender
  {
    if s.receiver.linkUp {
      Stays(s, from);
      t := s;
    } else {
      t := OneStep(s, from, ConnectStep(true));
    }
  }

  // ----- Everything comes through -----

  /** The sender as it was made: nothing under way, nothing to retry, and the channel active. */
  ghost predicate AtRest(s: System) {
    // One value, so that proving it is one obligation and not one per conjunct.
    var holds :=
      && s.sender == INITIAL_SENDER && Full(s.receiver.cache) == {}
      && s.receiver.expected == |s.enqueued| && (forall k: nat :: k < |s.enqueued| ==> k in s.resolved);
    holds
  }

  lemma IdleIsResolved(s: System)
    requires Reachable(s) && s.sender == INITIAL_SENDER
    ensures s.receiver.expected == |s.enqueued| && forall k: nat :: k < |s.enqueued| ==> k in s.resolved
  {
    ReachableInv(s);
    forall k: nat | k < |s.enqueued|
      ensures k in s.resolved
    {
      assert !Queued(s.enqueued, s.sender, k) && !Held(s.sender, k);
    }
    assert |s.enqueued| > 0 ==> |s.enqueued| - 1 in s.resolved;
  }

  /** From every state with a usable link, and with no message of unknown kind on its way, the bridge can come to rest:
      all that was taken is received, read and freed, and the channel takes messages again. Nothing on the wire at the
      start is needed for that. */
  lemma CanComeToRest(s: System) returns (t: System)
    requires Reachable(s) && CanLink(s.receiver) && Known(s)
    ensures GoesOn(s, s.nextTag, t) && AtRest(t)
  {
    var from := s.nextTag;
    var linked := LinkUp(s, from);
    var retrying := GiveUp(linked, from);
    var sent := ResendAll(retrying, from);
    var open := OneStep(sent, from, ActivateStep);
    t := EmptyAll(open, from);
    GoesFurther(s, from, linked, retrying);
    GoesFurther(s, from, retrying, sent);
    GoesFurther(s, from, sent, open);
    GoesFurther(s, from, open, t);
    IdleIsResolved(t);
  }

  /** All messages taken by `s` have been received, and the readers have the tensors. */
  ghost predicate Arrived(s: System, t: System) {
    && |s.enqueued| <= t.receiver.expected
    && forall name :: DataOf(name, s.enqueued) <= Delivered(t, DataSlot(name))
  }

  ghost predicate CanArrive(s: System) {
    exists t :: Leads(s, s.nextTag, t) && Arrived(s, t)
  }

  lemma EmptiedHasArrived(s: System, t: System)
    requires GoesOn(s, s.nextTag, t) && Full(t.receiver.cache) == {} && t.receiver.expected == |s.enqueued|
    ensures Arrived(s, t)
  {
    forall name
      ensures DataOf(name, s.enqueued) <= Delivered(t, DataSlot(name))
    {
      MailboxConservation(t, name);
      assert t.enqueued[..t.receiver.expected] == s.enqueued;
      assert DataSlot(name) !in Full(t.receiver.cache);
    }
  }

  /** A message of unknown kind is never accepted, and nothing behind it is. */
  lemma {:induction false} UnknownBlocks(s: System, from: nat, steps: seq<Step>, t: System, k: nat)
    requires Inv(s) && IsOwnRun(s, from, steps, t)
    requires s.receiver.expected <= k < |s.enqueued| && s.enqueued[k].body == NotSet
    ensures t.receiver.expected <= k
    decreases |steps|
  {
    if steps != [] {
      StepKeepsInv(s, steps[0]);
      UnknownStep(s, steps[0], k);
      UnknownBlocks(Apply(s, steps[0]), from, steps[1..], t, k);
    }
  }

  lemma UnknownStep(s: System, step: Step, k: nat)
    requires EndsInv(s) && Enabled(s, step)
    requires s.receiver.expected <= k < |s.enqueued| && s.enqueued[k].body == NotSet
    ensures var t := Apply(s, step); t.receiver.expected <= k && s.enqueued <= t.enqueued
  {
    if step.ReceiveStep? {
      UnknownIsRefused(s, step.tag, k);
    }
  }

  lemma UnknownIsRefused(s: System, tag: nat, k: nat)
    requires EndsInv(s) && tag in s.requests
    requires s.receiver.expected <= k < |s.enqueued| && s.enqueued[k].body == NotSet
    ensures Receive(s.receiver, s.requests[tag]).expected <= k
  {
    assert Sent(s.enqueued, s.requests[tag]);
  }

  lemma {:induction false} NoLinkBlocks(s: System, from: nat, steps: seq<Step>, t: System)
    requires IsOwnRun(s, from, steps, t) && !CanLink(s.receiver)
    ensures t.receiver.expected == s.receiver.expected
    decreases |steps|
  {
    if steps != [] {
      assert !CanLink(Apply(s, steps[0]).receiver);
      NoLinkBlocks(Apply(s, steps[0]), from, steps[1..], t);
    }
  }

  /** Everything taken so far can still arrive if and only if it has been received already, or the link is usable and
      no message not yet received is of unknown kind. */
  lemma CanArriveIff(s: System)
    requires Reachable(s)
    ensures s.receiver.expected <= |s.enqueued|
    ensures CanArrive(s) <==>
            || s.receiver.expected == |s.enqueued|
            || (CanLink(s.receiver) && Known(s))
  {
    ReachableInv(s);
    if s.receiver.expected == |s.enqueued| {
      var t := EmptyAll(s, s.nextTag);
      EmptiedHasArrived(s, t);
    } else if CanLink(s.receiver) && Known(s) {
      var t := CanComeToRest(s);
      EmptiedHasArrived(s, t);
    } else {
      forall t | Leads(s, s.nextTag, t)
        ensures !Arrived(s, t)
      {
        Blocked(s, t);
      }
    }
  }

  lemma Blocked(s: System, t: System)
    requires Reachable(s) && Leads(s, s.nextTag, t) && s.receiver.expected < |s.enqueued|
    requires !CanLink(s.receiver) || !Known(s)
    ensures t.receiver.expected < |s.enqueued|
  {
    ReachableInv(s);
    var steps :| IsOwnRun(s, s.nextTag, steps, t);
    if !CanLink(s.receiver) {
      NoLinkBlocks(s, s.nextTag, steps, t);
    } else {
      var k :| s.receiver.expected <= k < |s.enqueued| && s.enqueued[k].body == NotSet;
      UnknownBlocks(s, s.nextTag, steps, t, k);
    }
  }
}

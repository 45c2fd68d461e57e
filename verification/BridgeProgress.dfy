/** What the bridge takes, when it repeats itself, and that it can always bring everything through. */
module BridgeProgress {
  import opened Wrappers
  import opened BridgeTypes
  import opened BridgeSender
  import opened BridgeReceiver
  import opened BridgeProtocol

  // ----- The channel flag -----

  /** A caller's message is taken, under the next number and as the newest in flight, exactly when the channel is
      active and the stream takes it; otherwise only an attempt number is used up. */
  lemma EnqueueTakesIff(s: System, body: Body, sendOk: bool)
    ensures var t, m := Apply(s, EnqueueStep(body, sendOk)), Message(s.seqNum, body);
            if s.sender.active && sendOk then
              && t.enqueued == s.enqueued + [m] && t.seqNum == s.seqNum + 1 && t.nextTag == s.nextTag + 1
              && t.requests == s.requests[s.nextTag := m]
              && t.sender == s.sender.(inflight := s.sender.inflight + [Exchange(s.nextTag, m)])
            else t == s.(nextTag := s.nextTag + 1)
  {
  }

  predicate NoActivate(steps: seq<Step>) {
    forall i :: 0 <= i < |steps| ==> steps[i] != ActivateStep
  }

  predicate IsTail(a: seq<Exchange>, b: seq<Exchange>) {
    |a| <= |b| && a == b[|b| - |a|..]
  }

  /** No first send: history, numbers and what is in flight do not grow, and the flag stays clear. */
  predicate TakesNothing(s: System, t: System) {
    // One value, so that proving it is one obligation and not one per conjunct.
    var holds :=
      && !t.sender.active && t.enqueued == s.enqueued && t.seqNum == s.seqNum
      && IsTail(t.sender.inflight, s.sender.inflight);
    holds
  }

  /** Attempts keep their messages, and later ones carry messages taken before. */
  ghost predicate OnlyResends(s: System, t: System) {
    && (forall tag :: tag in s.requests ==> tag in t.requests && t.requests[tag] == s.requests[tag])
    && (forall tag :: tag in t.requests && tag !in s.requests ==> t.requests[tag] in s.enqueued)
  }

  lemma TakesNothingStep(s: System, step: Step)
    requires !s.sender.active && Enabled(s, step) && step != ActivateStep
    ensures TakesNothing(s, Apply(s, step))
  {
  }

  lemma OnlyResendsStep(s: System, step: Step)
    requires EndsInv(s) && !s.sender.active && Enabled(s, step)
    ensures OnlyResends(s, Apply(s, step))
  {
    if step.ResendStep? {
      assert Sent(s.enqueued, s.sender.hand.value.msg);
    }
  }

  lemma TailOfTail(a: seq<Exchange>, b: seq<Exchange>, c: seq<Exchange>)
    requires IsTail(a, b) && IsTail(b, c)
    ensures IsTail(a, c)
  {
  }

  /** While the channel flag is clear no caller's message is taken, and every new attempt is a resend. */
  lemma {:induction false} InactiveTakesNothing(s: System, steps: seq<Step>, t: System)
    requires Inv(s) && !s.sender.active && IsRun(s, steps, t) && NoActivate(steps)
    ensures TakesNothing(s, t) && OnlyResends(s, t)
    decreases |steps|
  {
    if steps != [] {
      var next := Apply(s, steps[0]);
      assert forall i :: 0 <= i < |steps[1..]| ==> steps[1..][i] == steps[i + 1];
      TakesNothingStep(s, steps[0]);
      OnlyResendsStep(s, steps[0]);
      StepKeepsInv(s, steps[0]);
      InactiveTakesNothing(next, steps[1..], t);
      TailOfTail(t.sender.inflight, next.sender.inflight, s.sender.inflight);
    }
  }

  // ----- Repeated messages -----

  /** An attempt whose number the receiver has moved past is answered MESSAGE_DUPLICATED, now and ever after. */
  lemma {:induction false} OldNumbersAreDuplicated(s: System, steps: seq<Step>, t: System, tag: nat)
    requires IsRun(s, steps, t) && Inv(s) && tag in s.requests && s.requests[tag].seqNum < s.receiver.expected
    ensures forall code :: Reply(tag, code) in t.replies && Reply(tag, code) !in s.replies ==> code == MESSAGE_DUPLICATED
    decreases |steps|
  {
    if steps != [] {
      var next := Apply(s, steps[0]);
      OldStaysOld(s, steps[0], tag);
      StepKeepsInv(s, steps[0]);
      OldNumbersAreDuplicated(next, steps[1..], t, tag);
    }
  }

  lemma OldStaysOld(s: System, step: Step, tag: nat)
    requires tag < s.nextTag && Enabled(s, step) && tag in s.requests && s.requests[tag].seqNum < s.receiver.expected
    ensures var t := Apply(s, step);
            && tag in t.requests && t.requests[tag].seqNum < t.receiver.expected
            && forall code :: Reply(tag, code) in t.replies && Reply(tag, code) !in s.replies ==> code == MESSAGE_DUPLICATED
  {
  }

  /** So a resend whose first delivery the receiver already accepted is freed by the answer to it. */
  lemma RepeatIsSettled(s: System, tag: nat)
    requires Reachable(s) && s.receiver.linkUp && s.sender.hand.Some? && s.sender.hand.value.attempt == Some(tag)
    requires s.sender.hand.value.msg.seqNum < s.receiver.expected
    ensures Enabled(s, ReceiveStep(tag))
    ensures var t := Apply(s, ReceiveStep(tag));
            && Enabled(t, ResendDoneStep(Replied(MESSAGE_DUPLICATED)))
            && var u := Apply(t, ResendDoneStep(Replied(MESSAGE_DUPLICATED)));
               u.sender.hand.None? && u.resolved == s.resolved + {s.sender.hand.value.msg.seqNum}
  {
    ReachableInv(s);
  }
}

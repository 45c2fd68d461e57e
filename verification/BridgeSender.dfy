/** The sending end: in-flight deque and map, retry heap, the resend loop's hand and the channel flag. */
module BridgeSender {
  import opened Wrappers
  import opened BridgeTypes

  /** One transmission on the wire; `tag` identifies the attempt (for a first send, its response object). */
  datatype Exchange = Exchange(tag: nat, msg: Message)

  /** A completion callback between taking the entry out of the deque and deciding its fate.
      `marked` records that the channel flag was already cleared for it. */
  datatype Completion = Completion(msg: Message, outcome: Outcome, marked: bool)

  /** What the resend loop popped from the heap, and the attempt it is waiting for. */
  datatype Hand = Hand(msg: Message, attempt: Option<nat>)

  datatype Sender = Sender(
    active: bool,
    inflight: seq<Exchange>,
    completing: Option<Completion>,
    heap: multiset<Message>,
    hand: Option<Hand>)

  const INITIAL_SENDER := Sender(true, [], None, multiset{}, None)

  /** A caller's message goes in flight exactly when the channel is active and the stream takes it. */
  predicate Accepts(s: Sender, sendOk: bool) {
    s.active && sendOk
  }

  function Enqueue(s: Sender, x: Exchange, sendOk: bool): Sender {
    if Accepts(s, sendOk) then s.(inflight := s.inflight + [x]) else s
  }

  function CompleteFront(s: Sender, outcome: Outcome): Sender
    requires s.inflight != []
  {
    s.(inflight := s.inflight[1..], completing := Some(Completion(s.inflight[0].msg, outcome, false)))
  }

  function Deactivate(s: Sender): Sender
    requires s.completing.Some?
  {
    s.(active := false, completing := Some(s.completing.value.(marked := true)))
  }

  function FinishCompletion(s: Sender): Sender
    requires s.completing.Some?
  {
    var c := s.completing.value;
    if Settles(c.outcome) then s.(completing := None)
    else s.(completing := None, heap := s.heap + multiset{c.msg})
  }

  /** `m` is what the retry heap yields next: nothing in the heap has a lower number. */
  ghost predicate IsTop(heap: multiset<Message>, m: Message) {
    m in heap && forall o :: o in heap ==> m.seqNum <= o.seqNum
  }

  function TakeTop(s: Sender, m: Message): Sender
    requires m in s.heap
  {
    s.(heap := s.heap - multiset{m}, hand := Some(Hand(m, None)))
  }

  function Resend(s: Sender, tag: nat, sendOk: bool): Sender
    requires s.hand.Some?
  {
    if sendOk then s.(hand := Some(s.hand.value.(attempt := Some(tag)))) else s
  }

  function ResendDone(s: Sender, outcome: Outcome): Sender
    requires s.hand.Some?
  {
    if Settles(outcome) then s.(hand := None)
    else s.(hand := Some(s.hand.value.(attempt := None)))
  }

  function Activate(s: Sender): Sender {
    s.(active := true)
  }

  /** A retry-queue element. The source orders elements by descending number so that the
      standard priority queue, which yields a greatest element, yields the lowest number. */
  datatype ExchangeEntry = ExchangeEntry(seqNum: nat, request: Message) {
    predicate Less(rhs: ExchangeEntry) {
      this.seqNum > rhs.seqNum
    }
  }

  function Requests(q: seq<ExchangeEntry>): (r: multiset<Message>)
    ensures |r| == |q|
  {
    if q == [] then multiset{} else multiset{q[0].request} + Requests(q[1..])
  }

  lemma {:induction false} RequestsMember(q: seq<ExchangeEntry>, m: Message)
    ensures m in Requests(q) <==> exists i :: 0 <= i < |q| && q[i].request == m
  {
    if q != [] {
      RequestsMember(q[1..], m);
      if m in Requests(q[1..]) {
        var i :| 0 <= i < |q[1..]| && q[1..][i].request == m;
        assert q[i + 1].request == m;
      }
      forall i | 0 < i < |q| && q[i].request == m
        ensures m in Requests(q)
      {
        assert q[1..][i - 1].request == m;
      }
    }
  }

  lemma {:induction false} RequestsAppend(q: seq<ExchangeEntry>, e: ExchangeEntry)
    ensures Requests(q + [e]) == Requests(q) + multiset{e.request}
  {
    if q == [] {
      assert [e][1..] == [];
      assert q + [e] == [e];
    } else {
      assert (q + [e])[1..] == q[1..] + [e];
      RequestsAppend(q[1..], e);
    }
  }

  lemma {:induction false} RequestsRemove(q: seq<ExchangeEntry>, i: nat)
    requires i < |q|
    ensures Requests(q[..i] + q[i + 1..]) == Requests(q) - multiset{q[i].request}
  {
    if i == 0 {
      assert q[..0] + q[1..] == q[1..];
    } else {
      var r := q[..i] + q[i + 1..];
      assert r[1..] == q[1..][..i - 1] + q[1..][i..];
      RequestsRemove(q[1..], i - 1);
      assert q[1..][i - 1] == q[i];
      RequestsMember(q[1..], q[i].request);
    }
  }

  /** Where the priority queue's greatest element under `Less` sits. */
  function TopIndex(q: seq<ExchangeEntry>): (i: nat)
    requires q != []
    ensures i < |q| && forall j :: 0 <= j < |q| ==> !q[i].Less(q[j])
  {
    var last := |q| - 1;
    if last == 0 then 0
    else
      var t := TopIndex(q[..last]);
      assert forall j :: 0 <= j < last ==> q[..last][j] == q[j];
      if q[t].Less(q[last]) then last else t
  }

  /** The element at the top of the priority queue is a lowest-numbered one. */
  lemma TopIsLowest(q: seq<ExchangeEntry>)
    requires q != [] && forall e :: e in q ==> e.seqNum == e.request.seqNum
    ensures IsTop(Requests(q), q[TopIndex(q)].request)
  {
    var t := q[TopIndex(q)];
    RequestsMember(q, t.request);
    forall o | o in Requests(q)
      ensures t.request.seqNum <= o.seqNum
    {
      RequestsMember(q, o);
      var i :| 0 <= i < |q| && q[i].request == o;
      assert !t.Less(q[i]);
    }
  }

  lemma PopLeavesTheRest(q: seq<ExchangeEntry>, i: nat)
    requires i < |q|
    ensures Requests(q[..i] + q[i + 1..]) == Requests(q) - multiset{q[i].request}
    ensures forall e :: e in q[..i] + q[i + 1..] ==> e in q
    ensures q[i].request in Requests(q) && Requests(q) != multiset{}
  {
    RequestsRemove(q, i);
    RequestsMember(q, q[i].request);
  }

  /** The deque read through the map. */
  function InFlight(ptrs: seq<nat>, cache: map<nat, Message>): (r: seq<Exchange>)
    requires forall p :: p in ptrs ==> p in cache
    ensures |r| == |ptrs|
    ensures forall i :: 0 <= i < |ptrs| ==> r[i].tag == ptrs[i] && r[i].msg == cache[ptrs[i]]
  {
    seq(|ptrs|, i requires 0 <= i < |ptrs| => assert ptrs[i] in ptrs; Exchange(ptrs[i], cache[ptrs[i]]))
  }

  /** The deque holds each key of the map once. */
  ghost predicate InStep(ptrs: seq<nat>, cache: map<nat, Message>) {
    // One value, so that proving it is one obligation and not one per conjunct.
    var holds :=
      && (forall i, j :: 0 <= i < j < |ptrs| ==> ptrs[i] != ptrs[j])
      && (forall p :: p in ptrs <==> p in cache);
    holds
  }

  lemma PushInStep(ptrs: seq<nat>, cache: map<nat, Message>, p: nat, m: Message)
    requires InStep(ptrs, cache) && p !in cache
    ensures InStep(ptrs + [p], cache[p := m])
    ensures InFlight(ptrs + [p], cache[p := m]) == InFlight(ptrs, cache) + [Exchange(p, m)]
    ensures cache[p := m] - {p} == cache && (ptrs + [p])[..|ptrs|] == ptrs
  {
  }

  lemma PopFrontInStep(ptrs: seq<nat>, cache: map<nat, Message>)
    requires InStep(ptrs, cache) && ptrs != []
    ensures InStep(ptrs[1..], cache - {ptrs[0]})
    ensures InFlight(ptrs[1..], cache - {ptrs[0]}) == InFlight(ptrs, cache)[1..]
  {
    var rest, left := ptrs[1..], cache - {ptrs[0]};
    forall p
      ensures p in rest <==> p in left
    {
      assert p in ptrs <==> p == ptrs[0] || p in rest;
    }
  }

  /** Erasing one key and dropping the front element leaves deque and map out of step for any other key. */
  lemma PopOtherOutOfStep(ptrs: seq<nat>, cache: map<nat, Message>, p: nat)
    requires InStep(ptrs, cache) && p in cache && p != ptrs[0]
    ensures !InStep(ptrs[1..], cache - {p})
  {
    assert ptrs == [ptrs[0]] + ptrs[1..];
    assert p in ptrs[1..] && p !in cache - {p};
  }

  /** In step means in particular of equal size. */
  lemma {:induction false} InStepSizes(ptrs: seq<nat>, cache: map<nat, Message>)
    requires InStep(ptrs, cache)
    ensures |ptrs| == |cache|
  {
    if ptrs == [] {
      assert cache == map[];
    } else {
      PopFrontInStep(ptrs, cache);
      InStepSizes(ptrs[1..], cache - {ptrs[0]});
      assert (cache - {ptrs[0]}).Keys == cache.Keys - {ptrs[0]};
    }
  }

  /** The streaming agent. Each method is one critical section of the source. */
  class RpcBridgeAgent {
    var channelActive: bool
    var exchanges: seq<nat>
    var exchangesCache: map<nat, Message>
    var reexchanges: seq<ExchangeEntry>
    var completing: Option<Completion>
    var hand: Option<Hand>

    /** Deque and map are in step, and every retry element carries its message's number. */
    ghost predicate Valid()
      reads this
    {
      && InStep(exchanges, exchangesCache)
      && (forall e :: e in reexchanges ==> e.seqNum == e.request.seqNum)
    }

    ghost function View(): Sender
      reads this
      requires Valid()
    {
      Sender(channelActive,
             InFlight(exchanges, exchangesCache),
             completing,
             Requests(reexchanges),
             hand)
    }

    constructor ()
      ensures Valid() && View() == INITIAL_SENDER
    {
      channelActive := true;
      exchanges, exchangesCache, reexchanges := [], map[], [];
      completing, hand := None, None;
      new;
      assert View().inflight == [];
    }

    /** `responsePtr` is the freshly allocated response; `sendOk` is whether the live stream took the request. */
    method StreamingRequestEnqueue(request: Message, responsePtr: nat, sendOk: bool) returns (ok: bool)
      requires Valid() && responsePtr !in exchangesCache
      modifies this
      ensures Valid()
      ensures ok <==> old(channelActive) && sendOk
      ensures channelActive == old(channelActive) && reexchanges == old(reexchanges)
      ensures exchanges == if ok then old(exchanges) + [responsePtr] else old(exchanges)
      ensures exchangesCache == if ok then old(exchangesCache)[responsePtr := request] else old(exchangesCache)
      ensures View() == Enqueue(old(View()), Exchange(responsePtr, request), sendOk)
    {
      if !channelActive {
        return false;
      }
      PushInStep(exchanges, exchangesCache, responsePtr, request);
      exchanges := exchanges + [responsePtr];
      exchangesCache := exchangesCache[responsePtr := request];
      ok := sendOk;
      if !sendOk {
        exchangesCache := exchangesCache - {responsePtr};
        exchanges := exchanges[..|exchanges| - 1];
      }
    }

    /** The completion callback's first section: it erases the entry of its own response but pops
        whatever is at the front, so deque and map stay in step exactly when completions fire in send order. */
    method OnExchangeCompleted(responsePtr: nat, outcome: Outcome)
      requires Valid() && completing.None?
      modifies this
      ensures responsePtr !in old(exchangesCache) ==> Valid() && View() == old(View())
      ensures responsePtr in old(exchangesCache) ==>
        && old(exchanges) != [] && exchanges == old(exchanges)[1..]
        && exchangesCache == old(exchangesCache) - {responsePtr}
      ensures responsePtr in old(exchangesCache) && responsePtr == old(exchanges)[0] ==>
        Valid() && View() == CompleteFront(old(View()), outcome)
      ensures responsePtr in old(exchangesCache) && responsePtr != old(exchanges)[0] ==> !InStep(exchanges, exchangesCache)
    {
      if responsePtr !in exchangesCache {
        return;
      }
      assert responsePtr in exchanges;
      if responsePtr == exchanges[0] {
        PopFrontInStep(exchanges, exchangesCache);
      } else {
        PopOtherOutOfStep(exchanges, exchangesCache, responsePtr);
      }
      var request := exchangesCache[responsePtr];
      exchangesCache := exchangesCache - {responsePtr};
      exchanges := exchanges[1..];
      completing := Some(Completion(request, outcome, false));
    }

    /** A completion that will be retried clears the channel flag before it touches the heap. */
    method DeactivateForRetry()
      requires Valid() && completing.Some?
      modifies this
      ensures !channelActive && reexchanges == old(reexchanges)
      ensures Valid() && View() == Deactivate(old(View()))
    {
      channelActive := false;
      completing := Some(completing.value.(marked := true));
    }

    /** The callback's last section: drop a settled message, or hand it to the retry heap. */
    method FinishExchange()
      requires Valid() && completing.Some?
      modifies this
      ensures Valid() && View() == FinishCompletion(old(View()))
      ensures completing.None? && channelActive == old(channelActive)
      ensures var c := old(completing).value;
              reexchanges == if c.outcome == Replied(SUCCESS) || c.outcome == Replied(MESSAGE_DUPLICATED)
                             then old(reexchanges) else old(reexchanges) + [ExchangeEntry(c.msg.seqNum, c.msg)]
    {
      var c := completing.value;
      completing := None;
      if !Settles(c.outcome) {
        RequestsAppend(reexchanges, ExchangeEntry(c.msg.seqNum, c.msg));
        reexchanges := reexchanges + [ExchangeEntry(c.msg.seqNum, c.msg)];
      }
    }

    /** The resend loop's pop. */
    method PopReexchange() returns (popped: bool)
      requires Valid() && hand.None?
      modifies this
      ensures Valid()
      ensures popped <==> old(reexchanges) != []
      ensures popped ==> forall e :: e in old(reexchanges) ==> hand.Some? && hand.value.msg.seqNum <= e.request.seqNum
      ensures !popped ==> View() == old(View())
      ensures popped ==> hand.Some? && IsTop(old(View()).heap, hand.value.msg)
      ensures popped ==> View() == TakeTop(old(View()), hand.value.msg)
    {
      if reexchanges == [] {
        return false;
      }
      var i := TopIndex(reexchanges);
      var elem := reexchanges[i];
      PopLeavesTheRest(reexchanges, i);
      TopIsLowest(reexchanges);
      reexchanges := reexchanges[..i] + reexchanges[i + 1..];
      hand := Some(Hand(elem.request, None));
      popped := true;
    }

    method SendHeld(tag: nat, sendOk: bool)
      requires Valid() && hand.Some?
      modifies this
      ensures hand == if sendOk then Some(Hand(old(hand).value.msg, Some(tag))) else old(hand)
      ensures Valid() && View() == Resend(old(View()), tag, sendOk)
    {
      if sendOk {
        hand := Some(hand.value.(attempt := Some(tag)));
      }
    }

    method OnHeldCompleted(outcome: Outcome)
      requires Valid() && hand.Some?
      modifies this
      ensures hand == if outcome == Replied(SUCCESS) || outcome == Replied(MESSAGE_DUPLICATED) then None
                      else Some(Hand(old(hand).value.msg, None))
      ensures Valid() && View() == ResendDone(old(View()), outcome)
    {
      hand := if Settles(outcome) then None else Some(hand.value.(attempt := None));
    }

    method ReopenChannel()
      requires Valid()
      modifies this
      ensures channelActive
      ensures Valid() && View() == Activate(old(View()))
    {
      channelActive := true;
    }
  }
}

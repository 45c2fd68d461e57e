/** The receiving end: the sequence check, the link guard and the one-slot mailboxes with their readers. */
module BridgeReceiver {
  import opened Wrappers
  import opened BridgeTypes

  datatype Slot = Slot(slotKey: string, contentKey: string)

  datatype BoxState = IDLE | WAIT | ACTIVE

  /** A cache entry. `callback` names the Notification object the entry would notify. */
  datatype Entry = Entry(state: BoxState, rdata: Message, callback: Option<nat>)

  const EMPTY_ENTRY := Entry(IDLE, Message(0, NotSet), None)

  /** `notified` holds the Notification objects whose Notify has been called. */
  datatype Cache = Cache(entries: map<Slot, Entry>, notified: set<nat>)

  function DataSlot(name: string): Slot {
    Slot("/FlDataMessage", name)
  }

  /** The mailbox a message goes to, if its kind has one. */
  function SlotOf(body: Body): Option<Slot> {
    match body
    case Prefetch => Some(Slot("/FlPrefetch", "/FlPrefetch"))
    case Start => Some(Slot("/FlTrainStart", "/FlTrainStart"))
    case Commit => Some(Slot("/FlStepCommit", "/FlStepCommit"))
    case Data(name, _) => Some(DataSlot(name))
    case NotSet => None
  }

  function EntryAt(c: Cache, slot: Slot): Entry {
    if slot in c.entries then c.entries[slot] else EMPTY_ENTRY
  }

  /** A message of unknown kind is refused, and a data message is refused while its mailbox is full. */
  predicate Refuses(c: Cache, m: Message) {
    match SlotOf(m.body)
    case None => true
    case Some(slot) => m.body.Data? && EntryAt(c, slot).state == ACTIVE
  }

  /** The mailbox of a tensor's name is full. */
  predicate HoldsTensor(entries: map<Slot, Entry>, body: Body) {
    body.Data? && Slot("/FlDataMessage", body.name) in entries
    && entries[Slot("/FlDataMessage", body.name)].state == ACTIVE
  }

  function Deposit(c: Cache, m: Message): Cache
    requires !Refuses(c, m)
  {
    var slot := SlotOf(m.body).value;
    var e := EntryAt(c, slot);
    Cache(c.entries[slot := e.(state := ACTIVE, rdata := m)],
          if e.state == WAIT && e.callback.Some? then c.notified + {e.callback.value} else c.notified)
  }

  /** What a starting query takes at once, if anything. */
  function TakenAtOnce(c: Cache, slot: Slot): Option<Message> {
    if EntryAt(c, slot).state == ACTIVE then Some(EntryAt(c, slot).rdata) else None
  }

  function BeginQuery(c: Cache, slot: Slot, n: nat): Cache {
    var e := EntryAt(c, slot);
    if e.state == ACTIVE then c.(entries := c.entries[slot := e.(state := IDLE)])
    else c.(entries := c.entries[slot := e.(state := WAIT, callback := Some(n))])
  }

  /** What a query returns after its wait ended with `ok`. */
  function TakenAfterWait(c: Cache, slot: Slot, ok: bool): Option<Message> {
    var e := EntryAt(c, slot);
    if ok || e.state == ACTIVE then Some(e.rdata) else None
  }

  function EndQuery(c: Cache, slot: Slot): Cache {
    c.(entries := c.entries[slot := EntryAt(c, slot).(state := IDLE, callback := None)])
  }

  class RpcBridgeRecvCache {
    var recvCache: map<Slot, Entry>
    var notified: set<nat>

    ghost function View(): Cache
      reads this
    {
      Cache(recvCache, notified)
    }

    constructor ()
      ensures View() == Cache(map[], {})
    {
      recvCache, notified := map[], {};
    }

    /** Looks the entry up, creating it on first use. */
    method LookUp(slot: Slot) returns (entry: Entry)
      modifies this
      ensures slot in recvCache && entry == recvCache[slot] == EntryAt(old(View()), slot)
      ensures recvCache == old(recvCache)[slot := entry] && notified == old(notified)
    {
      if slot !in recvCache {
        recvCache := recvCache[slot := EMPTY_ENTRY];
      }
      entry := recvCache[slot];
    }

    method OnReceived(recvdata: Message) returns (ok: bool)
      modifies this
      ensures ok <==> recvdata.body != NotSet && !HoldsTensor(old(recvCache), recvdata.body)
      ensures ok && recvdata.body.Data? ==>
        var slot := Slot("/FlDataMessage", recvdata.body.name);
        && slot in recvCache && recvCache[slot].state == ACTIVE && recvCache[slot].rdata == recvdata
        && forall s :: s != slot ==> EntryAt(View(), s) == EntryAt(old(View()), s)
      ensures ok ==> View() == Deposit(old(View()), recvdata)
      ensures !ok ==> forall s :: EntryAt(View(), s) == EntryAt(old(View()), s)
      ensures !ok ==> notified == old(notified)
    {
      var slot, waitConsumer;
      match recvdata.body {
        case Prefetch => slot, waitConsumer := Slot("/FlPrefetch", "/FlPrefetch"), false;
        case Start => slot, waitConsumer := Slot("/FlTrainStart", "/FlTrainStart"), false;
        case Commit => slot, waitConsumer := Slot("/FlStepCommit", "/FlStepCommit"), false;
        case Data(name, _) => slot, waitConsumer := Slot("/FlDataMessage", name), true;
        case NotSet => return false;
      }
      var entry := LookUp(slot);
      if waitConsumer && entry.state == ACTIVE {
        return false;
      }
      var cb := entry.state == WAIT;
      recvCache := recvCache[slot := entry.(rdata := recvdata, state := ACTIVE)];
      if cb && entry.callback.Some? {
        notified := notified + {entry.callback.value};
      }
      ok := true;
    }

    /** The first locked section of QueryResult; `n` is the Notification on the reader's stack. */
    method BeginQueryResult(slot: Slot, n: nat) returns (result: Option<Message>)
      modifies this
      ensures result == TakenAtOnce(old(View()), slot)
      ensures View() == BeginQuery(old(View()), slot, n)
    {
      var entry := LookUp(slot);
      if entry.state == ACTIVE {
        result := Some(entry.rdata);
        recvCache := recvCache[slot := entry.(state := IDLE)];
      } else {
        result := None;
        recvCache := recvCache[slot := entry.(state := WAIT, callback := Some(n))];
      }
    }

    /** The second locked section, after the wait returned `ok` (notified) or timed out. */
    method EndQueryResult(slot: Slot, ok: bool) returns (result: Option<Message>)
      modifies this
      ensures result == TakenAfterWait(old(View()), slot, ok)
      ensures View() == EndQuery(old(View()), slot)
    {
      var entry := LookUp(slot);
      if ok || entry.state == ACTIVE {
        result := Some(entry.rdata);
      } else {
        result := None;
      }
      recvCache := recvCache[slot := entry.(state := IDLE, callback := None)];
    }
  }

  /** The counters of one training run. */
  class RunStepStats {
    var seqNum: nat
    var nextSeqNum: nat
    var nextRecvSeqNum: nat

    constructor ()
      ensures seqNum == 0 && nextSeqNum == 1 && nextRecvSeqNum == 0
    {
      seqNum, nextSeqNum, nextRecvSeqNum := 0, 1, 0;
    }

    method CommitToNextSeqNum() returns (r: nat)
      modifies this
      ensures r == seqNum == old(nextSeqNum) && nextSeqNum == old(nextSeqNum) + 1
      ensures nextRecvSeqNum == old(nextRecvSeqNum)
    {
      seqNum := nextSeqNum;
      nextSeqNum := nextSeqNum + 1;
      r := seqNum;
    }

    method NextRecvSeqNum() returns (r: nat)
      modifies this`nextRecvSeqNum
      ensures r == nextRecvSeqNum == old(nextRecvSeqNum) + 1
    {
      nextRecvSeqNum := nextRecvSeqNum + 1;
      r := nextRecvSeqNum;
    }
  }

  datatype BrState = NEW | STARTED | STOPPED

  datatype Receiver = Receiver(expected: nat, linkUp: bool, state: BrState, cache: Cache)

  const INITIAL_RECEIVER := Receiver(0, false, NEW, Cache(map[], {}))

  /** The answer to a message: none while the link is down, otherwise a result code. */
  function Answer(r: Receiver, m: Message): Option<ResultCode> {
    if !r.linkUp then None
    else if m.seqNum > r.expected then Some(MESSAGE_MISSING)
    else if m.seqNum < r.expected then Some(MESSAGE_DUPLICATED)
    else if Refuses(r.cache, m) then Some(UNKNOWN_ERROR)
    else Some(SUCCESS)
  }

  /** Only a message answered SUCCESS changes the counter and the mailboxes. */
  function Receive(r: Receiver, m: Message): Receiver {
    if !r.linkUp then r
    else if Answer(r, m) == Some(SUCCESS) then
      r.(state := STARTED, expected := r.expected + 1, cache := Deposit(r.cache, m))
    else r.(state := STARTED)
  }

  /** A connect request brings the link up only before training started and only for the right peer;
      after that it takes the link down for good (the process then exits). */
  function Connect(r: Receiver, matches: bool): Receiver {
    if r.state == NEW then r.(linkUp := r.linkUp || matches) else r.(linkUp := false)
  }

  class RpcBridgeAgentService {
    const cache: RpcBridgeRecvCache
    const stats: RunStepStats
    var linkUp: bool
    var state: BrState

    ghost function View(): Receiver
      reads this, cache, stats
    {
      Receiver(stats.nextRecvSeqNum, linkUp, state, cache.View())
    }

    constructor (c: RpcBridgeRecvCache, s: RunStepStats)
      requires c.View() == Cache(map[], {}) && s.nextRecvSeqNum == 0
      ensures cache == c && stats == s && View() == INITIAL_RECEIVER
    {
      cache, stats := c, s;
      linkUp, state := false, NEW;
    }

    /** Handles one request of the stream. `answer` is the result code with the announced next number,
        or None when the stream is finished with CANCELLED. */
    method StreamTransmitHandler(request: Message) returns (answer: Option<(ResultCode, nat)>)
      modifies this, cache, stats
      ensures stats.seqNum == old(stats.seqNum) && stats.nextSeqNum == old(stats.nextSeqNum)
      ensures answer.Some? <==> old(linkUp)
      ensures linkUp == old(linkUp) && state == if old(linkUp) then STARTED else old(state)
      ensures old(linkUp) ==>
        var expected := old(stats.nextRecvSeqNum);
        if request.seqNum < expected then answer == Some((MESSAGE_DUPLICATED, expected))
        else if request.seqNum > expected then answer == Some((MESSAGE_MISSING, expected))
        else if request.body == NotSet || HoldsTensor(old(cache.recvCache), request.body)
        then answer == Some((UNKNOWN_ERROR, expected))
        else answer == Some((SUCCESS, expected + 1))
      ensures answer.Some? ==>
        Answer(old(View()), request) == Some(answer.value.0) && answer.value.1 == stats.nextRecvSeqNum
      ensures Same(View(), Receive(old(View()), request))
    {
      if !linkUp {
        return None;
      }
      state := STARTED;
      if request.seqNum == stats.nextRecvSeqNum {
        var ok := cache.OnReceived(request);
        if ok {
          var next := stats.NextRecvSeqNum();
          answer := Some((SUCCESS, next));
        } else {
          answer := Some((UNKNOWN_ERROR, stats.nextRecvSeqNum));
        }
      } else {
        var code := if request.seqNum > stats.nextRecvSeqNum then MESSAGE_MISSING else MESSAGE_DUPLICATED;
        answer := Some((code, stats.nextRecvSeqNum));
      }
    }

    method ConnectHandler(matches: bool)
      modifies this
      ensures linkUp == if old(state) == NEW then old(linkUp) || matches else false
      ensures state == old(state) && View() == Connect(old(View()), matches)
    {
      if state == NEW {
        if matches {
          linkUp := true;
        }
      } else {
        linkUp := false;
      }
    }
  }

  /** Equal receivers, up to entries that exist but still hold their initial value. */
  ghost predicate Same(a: Receiver, b: Receiver) {
    && a.(cache := b.cache) == b
    && a.cache.notified == b.cache.notified
    && forall s :: EntryAt(a.cache, s) == EntryAt(b.cache, s)
  }
}

/** The relay's handlers over its tables: route, send, signal, connect, fetch, acknowledge, disconnect. */
module RelayServer {
  import opened Wrappers
  import opened Table
  import opened Relay
  import Dedup

  const MAX_ID: nat := 128
  const MAX_PAYLOAD: nat := 20 * 1024 * 1024

  predicate HexDigit(b: Byte) { 0x30 <= b <= 0x39 || 0x41 <= b <= 0x46 || 0x61 <= b <= 0x66 }

  type Message = c: Content | c.Envelope? witness Envelope([], [], [])
  type CallSignal = c: Content | c.Signal? witness Signal([], [], [])

  /** The checks made before anything is written. */
  predicate WellFormed(e: Message) {
    && 0 < |e.id| <= MAX_ID
    && |e.recipient| == ID_LENGTH && (forall i :: 0 <= i < |e.recipient| ==> HexDigit(e.recipient[i]))
    && |e.payload| <= MAX_PAYLOAD
  }

  /** The pushes of a delivery, in key order. */
  function PushesFor(items: seq<Entry<Item>>, conn: Conn, now: int): seq<Push> {
    if items == [] then []
    else
      var front, last := PushesFor(items[..|items| - 1], conn, now), items[|items| - 1].value;
      if now > last.expires then front else front + [Push(conn, last.content)]
  }

  /** What a delivery deletes: entries past their time, and signals once sent. */
  predicate Dropped(item: Item, now: int) { now > item.expires || item.content.Signal? }

  function DroppedKeys(items: seq<Entry<Item>>, now: int): seq<Bytes> {
    if items == [] then []
    else
      var front, last := DroppedKeys(items[..|items| - 1], now), items[|items| - 1];
      if Dropped(last.value, now) then front + [last.key] else front
  }

  /** The answer of a fetch, in key order: each message in time, and an empty place for each signal in time. */
  function Answers(items: seq<Entry<Item>>, now: int): seq<Option<Content>> {
    if items == [] then []
    else
      var front, last := Answers(items[..|items| - 1], now), items[|items| - 1].value;
      if now > last.expires then front
      else front + [if last.content.Envelope? then Some(last.content) else None]
  }

  function KeysOf(items: seq<Entry<Item>>): seq<Bytes> { seq(|items|, i requires 0 <= i < |items| => items[i].key) }

  lemma {:induction false} PushMember(items: seq<Entry<Item>>, conn: Conn, now: int, p: Push)
    ensures p in PushesFor(items, conn, now) <==>
              exists i :: 0 <= i < |items| && now <= items[i].value.expires && p == Push(conn, items[i].value.content)
    decreases |items|
  {
    if items != [] {
      PushMember(items[..|items| - 1], conn, now, p);
    }
  }

  lemma {:induction false} AnswerMember(items: seq<Entry<Item>>, now: int, c: Content)
    ensures Some(c) in Answers(items, now) <==>
              exists i :: 0 <= i < |items| && now <= items[i].value.expires && items[i].value.content == c && c.Envelope?
    decreases |items|
  {
    if items != [] {
      AnswerMember(items[..|items| - 1], now, c);
    }
  }

  lemma {:induction false} DroppedMember(items: seq<Entry<Item>>, now: int, k: Bytes)
    ensures k in DroppedKeys(items, now) <==>
              exists i :: 0 <= i < |items| && Dropped(items[i].value, now) && items[i].key == k
    decreases |items|
  {
    if items != [] {
      DroppedMember(items[..|items| - 1], now, k);
    }
  }

  /** `items` are exactly the queue's entries under the identity's prefix. */
  ghost predicate Scanned(queue: map<Bytes, Item>, id: Identity, items: seq<Entry<Item>>) {
    forall e :: e in items <==> e.key in queue && queue[e.key] == e.value && StartsWith(e.key, QueuePrefix(id))
  }

  lemma PushesAreScan(queue: map<Bytes, Item>, items: seq<Entry<Item>>, conn: Conn, id: Identity, now: int)
    requires Scanned(queue, id, items)
    ensures (set p | p in PushesFor(items, conn, now)) == ScanPushes(queue, conn, id, now)
  {
    forall p ensures p in PushesFor(items, conn, now) <==> p in ScanPushes(queue, conn, id, now) {
      PushMember(items, conn, now, p);
      if p in PushesFor(items, conn, now) {
        var i :| 0 <= i < |items| && now <= items[i].value.expires && p == Push(conn, items[i].value.content);
        assert items[i] in items;
        assert items[i].key in Live(queue, id, now);
      }
      if p in ScanPushes(queue, conn, id, now) {
        var k :| k in Live(queue, id, now) && p == Push(conn, queue[k].content);
        assert Entry(k, queue[k]) in items;
      }
    }
  }

  lemma DroppedAreCollected(queue: map<Bytes, Item>, items: seq<Entry<Item>>, id: Identity, now: int)
    requires Scanned(queue, id, items)
    ensures (set k | k in DroppedKeys(items, now)) == ScanCollects(queue, id, now)
  {
    forall k ensures k in DroppedKeys(items, now) <==> k in ScanCollects(queue, id, now) {
      DroppedMember(items, now, k);
      if k in DroppedKeys(items, now) {
        var i :| 0 <= i < |items| && Dropped(items[i].value, now) && items[i].key == k;
        assert items[i] in items;
      }
      if k in ScanCollects(queue, id, now) {
        assert Entry(k, queue[k]) in items;
      }
    }
  }

  lemma KeysAreMine(queue: map<Bytes, Item>, items: seq<Entry<Item>>, id: Identity)
    requires Scanned(queue, id, items)
    ensures (set k | k in KeysOf(items)) == Mine(queue, id)
  {
    forall k ensures k in KeysOf(items) <==> k in Mine(queue, id) {
      if k in KeysOf(items) {
        var i :| 0 <= i < |items| && KeysOf(items)[i] == k;
        assert items[i] in items;
      }
      if k in Mine(queue, id) {
        var i :| 0 <= i < |items| && items[i] == Entry(k, queue[k]);
        assert KeysOf(items)[i] == k;
      }
    }
  }

  /** A fetch answers with exactly the messages a connecting client would be pushed. */
  lemma AnswersExactly(queue: map<Bytes, Item>, items: seq<Entry<Item>>, conn: Conn, id: Identity, now: int, e: Message)
    requires Scanned(queue, id, items)
    ensures Some(e) in Answers(items, now) <==> Push(conn, e) in ScanPushes(queue, conn, id, now)
  {
    AnswerMember(items, now, e);
    PushMember(items, conn, now, Push(conn, e));
    PushesAreScan(queue, items, conn, id, now);
    assert Push(conn, e) in PushesFor(items, conn, now) <==> Push(conn, e) in (set p | p in PushesFor(items, conn, now));
  }

  lemma PushSetGrows(a: seq<Push>, b: seq<Push>)
    ensures (set p | p in a + b) == (set p | p in a) + (set p | p in b)
  {
  }

  lemma StepsJoin(a: seq<Event>, ev: Event, b: seq<Event>)
    ensures a + [ev] + b == a + ([ev] + b)
  {
  }

  /** What a delivery of these items makes of the state. */
  lemma DeliveredIs(st: Relay.State, items: seq<Entry<Item>>, conn: Conn, id: Identity, now: int)
    requires Scanned(st.queue, id, items)
    ensures Delivered(st, conn, id, now).queue == st.queue - set k | k in DroppedKeys(items, now)
    ensures Delivered(st, conn, id, now).pushes == st.pushes + set p | p in PushesFor(items, conn, now)
  {
    PushesAreScan(st.queue, items, conn, id, now);
    DroppedAreCollected(st.queue, items, id, now);
  }

  /** A delivery as events: one scan, then a cleanup per dropped entry in key order. */
  function DeliverySteps(entries: seq<Entry<Item>>, conn: Conn, id: Identity, now: int): seq<Event> {
    [Event.Scan(conn, id, now)] + Cleanups(conn, DroppedKeys(Matching(entries, QueuePrefix(id)), now))
  }

  class Server {
    const queue: Tree<Item>
    const dedup: Dedup.DedupTable
    var clients: map<Identity, Conn>
    var pushes: seq<Push>
    /** The single table and client-map operations made so far, in order. */
    ghost var steps: seq<Event>

    ghost predicate Valid()
      reads this, queue, dedup, dedup.tree
    {
      queue.Valid() && dedup.Valid()
    }

    /** The state machine's view; a handler that runs to its end leaves nothing pending. */
    function State(): Relay.State
      reads this, queue
    {
      Relay.State(View(queue.entries), clients, map[], set p | p in pushes)
    }

    constructor ()
      ensures Valid() && fresh(queue) && fresh(dedup) && fresh(dedup.tree)
      ensures State() == EMPTY && dedup.State() == map[] && steps == []
    {
      queue := new Tree();
      dedup := new Dedup.DedupTable();
      clients := map[];
      pushes := [];
      steps := [];
    }

    method Enqueue(c: Content, now: int)
      requires Valid()
      modifies this`steps, queue
      ensures Valid() && State() == Step(old(State()), Store(c, now)) && steps == old(steps) + [Store(c, now)]
    {
      queue.Insert(KeyOf(c), Item(c, now + Ttl(c)));
      steps := steps + [Store(c, now)];
    }

    method LookupAndPush(c: Content) returns (online: bool)
      modifies this`pushes, this`steps
      ensures State() == Step(old(State()), Lookup(c)) && online == (c.recipient in clients)
      ensures steps == old(steps) + [Lookup(c)]
    {
      steps := steps + [Lookup(c)];
      online := c.recipient in clients;
      if online {
        pushes := pushes + [Push(clients[c.recipient], c)];
      }
    }

    /** The dedup stamp is written before the signature is looked at; the queue is written before the lookup. */
    method RouteMessage(e: Message, signed: bool, now: int, later: int, stored: int) returns (accepted: bool)
      requires Valid()
      modifies this`pushes, this`steps, queue, dedup.tree
      ensures Valid()
      ensures accepted <==> WellFormed(e) && Dedup.Passes(old(dedup.State()), Dedup.DedupKey(e.id), now) && signed
      ensures dedup.State() == if WellFormed(e) then Dedup.Checked(old(dedup.State()), Dedup.DedupKey(e.id), now, later)
                               else old(dedup.State())
      ensures State() == if accepted then Step(Step(old(State()), Store(e, stored)), Lookup(e)) else old(State())
      ensures steps == if accepted then old(steps) + [Store(e, stored), Lookup(e)] else old(steps)
    {
      if |e.id| == 0 || |e.id| > MAX_ID || |e.recipient| != ID_LENGTH || |e.payload| > MAX_PAYLOAD {
        return false;
      }
      if !forall i :: 0 <= i < |e.recipient| ==> HexDigit(e.recipient[i]) {
        return false;
      }
      var pass := dedup.CheckAndInsert(e.id, now, later);
      if !pass || !signed {
        return false;
      }
      Enqueue(e, stored);
      var _ := LookupAndPush(e);
      accepted := true;
    }

    /** The REST path: nothing about the message is checked, and only an offline recipient's is queued. */
    method SendMessage(e: Message, now: int) returns (online: bool)
      requires Valid()
      modifies this`pushes, this`steps, queue
      ensures Valid() && online == (e.recipient in clients)
      ensures State() == if online then Step(old(State()), Lookup(e)) else Step(old(State()), Store(e, now))
      ensures steps == old(steps) + if online then [Lookup(e)] else [Lookup(e), Store(e, now)]
    {
      online := LookupAndPush(e);
      if !online {
        Enqueue(e, now);
      }
    }

    /** A call signal: pushed to an online recipient, else queued for a minute. */
    method RouteSignal(c: CallSignal, signed: bool, now: int) returns (accepted: bool)
      requires Valid()
      modifies this`pushes, this`steps, queue
      ensures Valid() && accepted == (|c.recipient| == ID_LENGTH && signed)
      ensures State() == if !accepted then old(State())
                         else if c.recipient in clients then Step(old(State()), Lookup(c))
                         else Step(old(State()), Store(c, now))
      ensures steps == old(steps) + if !accepted then [] else if c.recipient in clients then [Lookup(c)]
                                    else [Lookup(c), Store(c, now)]
    {
      if |c.recipient| != ID_LENGTH || !signed {
        return false;
      }
      var online := LookupAndPush(c);
      if !online {
        Enqueue(c, now);
      }
      accepted := true;
    }

    /** Sends what is in time; collects what is not, and every signal. */
    method SendQueued(items: seq<Entry<Item>>, conn: Conn, now: int) returns (toDelete: seq<Bytes>)
      modifies this`pushes
      ensures pushes == old(pushes) + PushesFor(items, conn, now)
      ensures toDelete == DroppedKeys(items, now)
    {
      toDelete := [];
      for i := 0 to |items|
        invariant pushes == old(pushes) + PushesFor(items[..i], conn, now)
        invariant toDelete == DroppedKeys(items[..i], now)
      {
        assert items[..i + 1][..i] == items[..i];
        var item := items[i].value;
        if now > item.expires {
          toDelete := toDelete + [items[i].key];
        } else {
          pushes := pushes + [Push(conn, item.content)];
          if item.content.Signal? {
            toDelete := toDelete + [items[i].key];
          }
        }
      }
      assert items[..|items|] == items;
    }

    method RemoveAll(conn: Conn, keys: seq<Bytes>)
      requires Valid()
      modifies this`steps, queue
      ensures Valid() && View(queue.entries) == old(View(queue.entries)) - set k | k in keys
      ensures steps == old(steps) + Cleanups(conn, keys)
    {
      ghost var gone: set<Bytes> := {};
      for i := 0 to |keys|
        invariant Valid() && gone == set k | k in keys[..i]
        invariant View(queue.entries) == old(View(queue.entries)) - gone
        invariant steps == old(steps) + Cleanups(conn, keys[..i])
      {
        var _ := queue.Remove(keys[i]);
        steps := steps + [Cleanup(conn, keys[i])];
        assert keys[..i + 1] == keys[..i] + [keys[i]];
        gone := gone + {keys[i]};
      }
      assert keys[..|keys|] == keys;
    }

    /** Both loops of a delivery. */
    method SendAndRemove(items: seq<Entry<Item>>, conn: Conn, now: int)
      requires Valid()
      modifies this`pushes, this`steps, queue
      ensures Valid() && pushes == old(pushes) + PushesFor(items, conn, now)
      ensures View(queue.entries) == old(View(queue.entries)) - set k | k in DroppedKeys(items, now)
      ensures steps == old(steps) + Cleanups(conn, DroppedKeys(items, now))
    {
      var toDelete := SendQueued(items, conn, now);
      RemoveAll(conn, toDelete);
    }

    method DeliverQueuedMessages(conn: Conn, id: Identity, now: int)
      requires Valid()
      modifies this`pushes, this`steps, queue
      ensures Valid() && State() == Delivered(old(State()), conn, id, now).(pending := map[])
      ensures pushes == old(pushes) + PushesFor(Matching(old(queue.entries), QueuePrefix(id)), conn, now)
      ensures steps == old(steps) + DeliverySteps(old(queue.entries), conn, id, now)
    {
      var items := queue.Scan(QueuePrefix(id));
      steps := steps + [Event.Scan(conn, id, now)];
      assert Scanned(View(queue.entries), id, items);
      DeliveredIs(old(State()), items, conn, id, now);
      PushSetGrows(pushes, PushesFor(items, conn, now));
      StepsJoin(old(steps), Event.Scan(conn, id, now), Cleanups(conn, DroppedKeys(items, now)));
      SendAndRemove(items, conn, now);
    }

    /** Registers before scanning. */
    method Connect(conn: Conn, id: Identity, now: int)
      requires Valid()
      modifies this, queue
      ensures Valid()
      ensures State() == Delivered(Step(old(State()), Register(conn, id)), conn, id, now).(pending := map[])
      ensures steps == old(steps) + [Register(conn, id)] + DeliverySteps(old(queue.entries), conn, id, now)
    {
      clients := clients[id := conn];
      steps := steps + [Register(conn, id)];
      DeliverQueuedMessages(conn, id, now);
    }

    method ReadInbox(items: seq<Entry<Item>>, now: int) returns (messages: seq<Option<Content>>, toDelete: seq<Bytes>)
      ensures messages == Answers(items, now)
      ensures toDelete == KeysOf(items)
    {
      messages, toDelete := [], [];
      for i := 0 to |items|
        invariant messages == Answers(items[..i], now)
        invariant toDelete == KeysOf(items[..i])
      {
        assert items[..i + 1][..i] == items[..i];
        var item := items[i].value;
        if now <= item.expires {
          messages := messages + [if item.content.Envelope? then Some(item.content) else None];
        }
        toDelete := toDelete + [items[i].key];
      }
      assert items[..|items|] == items;
    }

    /** Answers with the caller's messages and deletes everything it read, acked or not. */
    method FetchInbox(conn: Conn, id: Identity, now: int) returns (messages: seq<Option<Content>>)
      requires Valid()
      modifies this`steps, queue
      ensures Valid() && State() == Fetched(old(State()), conn, id).(pending := map[])
      ensures steps == old(steps) + [Fetch(conn, id, now)]
                       + Cleanups(conn, KeysOf(Matching(old(queue.entries), QueuePrefix(id))))
      ensures messages == Answers(Matching(old(queue.entries), QueuePrefix(id)), now)
      ensures forall e: Message :: Some(e) in messages <==> Push(conn, e) in ScanPushes(old(State()).queue, conn, id, now)
    {
      var items := queue.Scan(QueuePrefix(id));
      assert Scanned(View(queue.entries), id, items);
      steps := steps + [Fetch(conn, id, now)];
      KeysAreMine(View(queue.entries), items, id);
      var toDelete;
      messages, toDelete := ReadInbox(items, now);
      forall e: Message ensures Some(e) in messages <==> Push(conn, e) in ScanPushes(old(State()).queue, conn, id, now) {
        AnswersExactly(old(State()).queue, items, conn, id, now, e);
      }
      RemoveAll(conn, toDelete);
    }

    method HandleAck(id: Identity, message: Bytes) returns (removed: bool)
      requires Valid()
      modifies this`steps, queue
      ensures Valid() && State() == Step(old(State()), Ack(id, message)) && steps == old(steps) + [Ack(id, message)]
      ensures removed <==> QueueKey(id, message) in old(View(queue.entries))
    {
      steps := steps + [Ack(id, message)];
      var item := queue.Remove(QueueKey(id, message));
      removed := item.Some?;
    }

    method Unregister(conn: Conn, id: Identity)
      modifies this`clients, this`steps
      ensures State() == Step(old(State()), Disconnect(conn, id)) && steps == old(steps) + [Disconnect(conn, id)]
    {
      steps := steps + [Disconnect(conn, id)];
      clients := clients - {id};
    }
  }
}

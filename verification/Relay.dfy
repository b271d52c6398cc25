/**
  The relay's offline queue and its hand-off to live connections, as a state machine whose
  steps are the single table or client-map operations of the handlers. Routing over a
  socket is Store then Lookup; the REST path and call signals look up first and store only
  for an offline recipient. Connecting is Register, then Scan, then one Cleanup per
  collected key; fetching the inbox over REST is Fetch and its Cleanups. Steps of other
  handlers may fall anywhere in between.
  */
module Relay {
  import opened Wrappers
  import opened Table

  const MESSAGE_TTL: int := 7 * 86400
  const SIGNAL_TTL: int := 60
  const ID_LENGTH: nat := 64

  type Identity = Bytes

  /** A socket or REST handler: the receiver of pushes and the owner of collected keys. */
  type Conn = nat

  /** What the queue holds: a sealed message with its id, or a call signal with its random tag. */
  datatype Content =
    | Envelope(recipient: Identity, id: Bytes, payload: Bytes)
    | Signal(recipient: Identity, tag: Bytes, payload: Bytes)

  datatype Item = Item(content: Content, expires: int)
  datatype Push = Push(conn: Conn, content: Content)

  function Ttl(c: Content): int { if c.Envelope? then MESSAGE_TTL else SIGNAL_TTL }

  // ---------------------------------------------------------------- keys

  const QUEUE: Bytes := [0x71, 0x75, 0x65, 0x75, 0x65, 0x3A]
  const COLON: Bytes := [0x3A]
  const WEBRTC: Bytes := [0x77, 0x65, 0x62, 0x72, 0x74, 0x63, 0x5F]

  function QueuePrefix(id: Identity): Bytes { QUEUE + id + COLON }
  function QueueKey(id: Identity, message: Bytes): Bytes { QueuePrefix(id) + message }

  function KeyOf(c: Content): Bytes {
    QueueKey(c.recipient, if c.Envelope? then c.id else WEBRTC + c.tag)
  }

  lemma KeyParts(id: Identity, message: Bytes)
    ensures var key := QueueKey(id, message);
            |key| >= |id| + 7 && key[6..6 + |id|] == id && key[7 + |id|..] == message && key[..7 + |id|] == QueuePrefix(id)
  {
  }

  lemma OwnPrefix(c: Content)
    ensures StartsWith(KeyOf(c), QueuePrefix(c.recipient))
  {
    assert KeyOf(c)[..|QueuePrefix(c.recipient)|] == QueuePrefix(c.recipient);
  }

  /** For identities of one length the key determines identity and message id, colons in the id or not. */
  lemma QueueKeyInjective(id: Identity, message: Bytes, id': Identity, message': Bytes)
    requires |id| == |id'|
    ensures QueueKey(id, message) == QueueKey(id', message') <==> id == id' && message == message'
  {
    KeyParts(id, message);
    KeyParts(id', message');
  }

  /** A connection's prefix selects its own entries and no other identity's. */
  lemma PrefixSelects(id: Identity, message: Bytes, mine: Identity)
    requires |id| == |mine|
    ensures StartsWith(QueueKey(id, message), QueuePrefix(mine)) <==> id == mine
  {
    KeyParts(id, message);
    KeyParts(mine, []);
    var key := QueueKey(id, message);
    if StartsWith(key, QueuePrefix(mine)) {
      assert key[..7 + |mine|] == QueuePrefix(mine);
      assert QueuePrefix(id)[6..6 + |id|] == id && QueuePrefix(mine)[6..6 + |mine|] == mine;
    }
  }

  // ---------------------------------------------------------------- state and steps

  /** `pending` holds the keys each handler has collected and has still to delete. */
  datatype State = State(queue: map<Bytes, Item>, clients: map<Identity, Conn>,
                         pending: map<Conn, set<Bytes>>, pushes: set<Push>)

  const EMPTY := State(map[], map[], map[], {})

  datatype Event =
    | Store(c: Content, now: int)
    | Lookup(c: Content)
    | Register(conn: Conn, id: Identity)
    | Scan(conn: Conn, id: Identity, now: int)
    | Fetch(conn: Conn, id: Identity, now: int)
    | Cleanup(conn: Conn, key: Bytes)
    | Ack(id: Identity, message: Bytes)
    | Disconnect(conn: Conn, id: Identity)

  function Mine(queue: map<Bytes, Item>, id: Identity): set<Bytes> { set k | k in queue && StartsWith(k, QueuePrefix(id)) }

  function Live(queue: map<Bytes, Item>, id: Identity, now: int): set<Bytes> {
    set k | k in Mine(queue, id) && now <= queue[k].expires
  }

  /** A scan deletes what is past its time and, once sent, call signals. */
  function ScanCollects(queue: map<Bytes, Item>, id: Identity, now: int): set<Bytes> {
    set k | k in Mine(queue, id) && (now > queue[k].expires || queue[k].content.Signal?)
  }

  function ScanPushes(queue: map<Bytes, Item>, conn: Conn, id: Identity, now: int): set<Push> {
    set k | k in Live(queue, id, now) :: Push(conn, queue[k].content)
  }

  predicate Collected(st: State, conn: Conn, key: Bytes) { conn in st.pending && key in st.pending[conn] }

  function Step(st: State, ev: Event): State {
    match ev
    case Store(c, now) => st.(queue := st.queue[KeyOf(c) := Item(c, now + Ttl(c))])
    case Lookup(c) =>
      if c.recipient in st.clients then st.(pushes := st.pushes + {Push(st.clients[c.recipient], c)}) else st
    case Register(conn, id) => st.(clients := st.clients[id := conn])
    case Scan(conn, id, now) =>
      st.(pushes := st.pushes + ScanPushes(st.queue, conn, id, now),
          pending := st.pending[conn := ScanCollects(st.queue, id, now)])
    // The answer of a fetch goes to its caller; every entry it read is to be deleted.
    case Fetch(conn, id, _) => st.(pending := st.pending[conn := Mine(st.queue, id)])
    case Cleanup(conn, key) =>
      if Collected(st, conn, key)
      then st.(queue := st.queue - {key}, pending := st.pending[conn := st.pending[conn] - {key}])
      else st
    case Ack(id, message) => st.(queue := st.queue - {QueueKey(id, message)})
    // Whoever disconnects, the identity's entry goes.
    case Disconnect(_, id) => st.(clients := st.clients - {id})
  }

  function Run(st: State, evs: seq<Event>): State
    decreases |evs|
  {
    if evs == [] then st else Step(Run(st, evs[..|evs| - 1]), evs[|evs| - 1])
  }

  lemma RunUnfolds(st: State, evs: seq<Event>, k: nat)
    requires 0 < k <= |evs|
    ensures Run(st, evs[..k]) == Step(Run(st, evs[..k - 1]), evs[k - 1])
  {
    assert evs[..k][..k - 1] == evs[..k - 1];
  }

  lemma FourSteps(st: State, evs: seq<Event>)
    requires |evs| == 4
    ensures Run(st, evs) == Step(Step(Step(Step(st, evs[0]), evs[1]), evs[2]), evs[3])
  {
    assert evs[..4] == evs && evs[..0] == [];
    RunUnfolds(st, evs, 1);
    RunUnfolds(st, evs, 2);
    RunUnfolds(st, evs, 3);
    RunUnfolds(st, evs, 4);
  }

  // ---------------------------------------------------------------- the queue

  predicate Writes(ev: Event, key: Bytes) {
    (ev.Store? && KeyOf(ev.c) == key) || (ev.Ack? && QueueKey(ev.id, ev.message) == key)
  }

  /** The events that change the entry at `key`. */
  predicate Touches(st: State, ev: Event, key: Bytes) {
    Writes(ev, key) || (ev.Cleanup? && ev.key == key && Collected(st, ev.conn, key))
  }

  ghost predicate Untouched(st: State, evs: seq<Event>, i: nat, k: nat, key: Bytes)
    requires k <= |evs|
  {
    forall j :: i <= j < k ==> !Touches(Run(st, evs[..j]), evs[j], key)
  }

  predicate SameAt(q: map<Bytes, Item>, q': map<Bytes, Item>, key: Bytes) {
    (key in q <==> key in q') && (key in q ==> q[key] == q'[key])
  }

  lemma UntouchedStep(st: State, ev: Event, key: Bytes)
    requires !Touches(st, ev, key)
    ensures SameAt(st.queue, Step(st, ev).queue, key)
  {
  }

  lemma {:induction false} UntouchedStays(st: State, evs: seq<Event>, i: nat, k: nat, key: Bytes)
    requires i <= k <= |evs| && Untouched(st, evs, i, k, key)
    ensures SameAt(Run(st, evs[..i]).queue, Run(st, evs[..k]).queue, key)
    decreases k
  {
    if i < k {
      UntouchedStays(st, evs, i, k - 1, key);
      RunUnfolds(st, evs, k);
      UntouchedStep(Run(st, evs[..k - 1]), evs[k - 1], key);
    }
  }

  /** An ack by one 64-character identity never removes another identity's entry. */
  lemma AckOwnOnly(st: State, id: Identity, message: Bytes, id': Identity, message': Bytes)
    requires |id| == ID_LENGTH && |id'| == ID_LENGTH
    ensures SameAt(st.queue, Step(st, Ack(id, message)).queue, QueueKey(id', message'))
         || (id == id' && message == message')
  {
    QueueKeyInjective(id, message, id', message');
  }

  // ---------------------------------------------------------------- what a handler will delete

  predicate Collects(st: State, ev: Event, key: Bytes) {
    match ev
    case Scan(_, id, now) => key in ScanCollects(st.queue, id, now)
    case Fetch(_, id, _) => key in Mine(st.queue, id)
    case _ => false
  }

  predicate Reads(ev: Event, conn: Conn) { (ev.Scan? || ev.Fetch?) && ev.conn == conn }

  /** Handler `conn` collected `key` at `s` and has neither read again nor deleted it up to `j`. */
  predicate HoldsSince(st: State, evs: seq<Event>, s: nat, j: nat, conn: Conn, key: Bytes)
    requires s < j <= |evs|
  {
    && Reads(evs[s], conn) && Collects(Run(st, evs[..s]), evs[s], key)
    && forall m :: s < m < j ==> !Reads(evs[m], conn) && evs[m] != Cleanup(conn, key)
  }

  lemma CollectedStep(st: State, ev: Event, conn: Conn, key: Bytes)
    ensures Collected(Step(st, ev), conn, key) <==>
              if Reads(ev, conn) then Collects(st, ev, key)
              else Collected(st, conn, key) && ev != Cleanup(conn, key)
  {
  }

  lemma {:induction false} CollectedHeld(st: State, evs: seq<Event>, j: nat, conn: Conn, key: Bytes) returns (s: nat)
    requires j <= |evs| && st.pending == map[] && Collected(Run(st, evs[..j]), conn, key)
    ensures s < j && HoldsSince(st, evs, s, j, conn, key)
    decreases j
  {
    if j > 0 {
      RunUnfolds(st, evs, j);
      CollectedStep(Run(st, evs[..j - 1]), evs[j - 1], conn, key);
      if Reads(evs[j - 1], conn) {
        s := j - 1;
      } else {
        s := CollectedHeld(st, evs, j - 1, conn, key);
      }
    }
  }

  lemma {:induction false} HeldCollected(st: State, evs: seq<Event>, s: nat, j: nat, conn: Conn, key: Bytes)
    requires s < j <= |evs| && HoldsSince(st, evs, s, j, conn, key)
    ensures Collected(Run(st, evs[..j]), conn, key)
    decreases j
  {
    RunUnfolds(st, evs, j);
    CollectedStep(Run(st, evs[..j - 1]), evs[j - 1], conn, key);
    if s < j - 1 {
      HeldCollected(st, evs, s, j - 1, conn, key);
    }
  }

  // ---------------------------------------------------------------- durability

  /** Event `j` deletes what its handler collected at `s`. */
  predicate DeletesAt(st: State, evs: seq<Event>, s: nat, j: nat, key: Bytes)
    requires s < j < |evs|
  {
    evs[j].Cleanup? && evs[j].key == key && HoldsSince(st, evs, s, j, evs[j].conn, key)
  }

  predicate Deleted(st: State, evs: seq<Event>, i: nat, k: nat, key: Bytes)
    requires k <= |evs|
  {
    exists s: nat, j: nat :: s < j && i <= j < k && DeletesAt(st, evs, s, j, key)
  }

  /** No ack of the key and no new copy under it. */
  predicate Unwritten(evs: seq<Event>, i: nat, k: nat, key: Bytes)
    requires k <= |evs|
  {
    forall j :: i <= j < k ==> !Writes(evs[j], key)
  }

  lemma AbsentStep(st: State, ev: Event, key: Bytes)
    requires key !in st.queue && !Writes(ev, key)
    ensures key !in Step(st, ev).queue
  {
  }

  lemma {:induction false} AbsentStays(st: State, evs: seq<Event>, i: nat, k: nat, key: Bytes)
    requires i <= k <= |evs| && Unwritten(evs, i, k, key) && key !in Run(st, evs[..i]).queue
    ensures key !in Run(st, evs[..k]).queue
    decreases k
  {
    if i < k {
      AbsentStays(st, evs, i, k - 1, key);
      RunUnfolds(st, evs, k);
      AbsentStep(Run(st, evs[..k - 1]), evs[k - 1], key);
    }
  }

  lemma DeletionRemoves(st: State, evs: seq<Event>, s: nat, j: nat, k: nat, key: Bytes)
    requires s < j < k <= |evs| && DeletesAt(st, evs, s, j, key) && Unwritten(evs, j + 1, k, key)
    ensures key !in Run(st, evs[..k]).queue
  {
    HeldCollected(st, evs, s, j, evs[j].conn, key);
    RunUnfolds(st, evs, j + 1);
    AbsentStays(st, evs, j + 1, k, key);
  }

  lemma UndeletedUntouched(st: State, evs: seq<Event>, i: nat, k: nat, key: Bytes)
    requires i <= k <= |evs| && st.pending == map[] && Unwritten(evs, i, k, key) && !Deleted(st, evs, i, k, key)
    ensures Untouched(st, evs, i, k, key)
  {
    forall j | i <= j < k ensures !Touches(Run(st, evs[..j]), evs[j], key) {
      if Touches(Run(st, evs[..j]), evs[j], key) {
        var s := CollectedHeld(st, evs, j, evs[j].conn, key);
        assert DeletesAt(st, evs, s, j, key);
      }
    }
  }

  lemma StoredAt(st: State, evs: seq<Event>, i: nat)
    requires i < |evs| && evs[i].Store?
    ensures var queue, c := Run(st, evs[..i + 1]).queue, evs[i].c;
            KeyOf(c) in queue && queue[KeyOf(c)] == Item(c, evs[i].now + Ttl(c))
  {
    RunUnfolds(st, evs, i + 1);
  }

  lemma DeletedIsGone(st: State, evs: seq<Event>, i: nat, k: nat, key: Bytes)
    requires i <= k <= |evs| && Unwritten(evs, i, k, key) && Deleted(st, evs, i, k, key)
    ensures key !in Run(st, evs[..k]).queue
  {
    var s: nat, j: nat :| s < j && i <= j < k && DeletesAt(st, evs, s, j, key);
    DeletionRemoves(st, evs, s, j, k, key);
  }

  lemma UndeletedStays(st: State, evs: seq<Event>, i: nat, k: nat, key: Bytes)
    requires i <= k <= |evs| && st.pending == map[] && Unwritten(evs, i, k, key) && !Deleted(st, evs, i, k, key)
    ensures SameAt(Run(st, evs[..i]).queue, Run(st, evs[..k]).queue, key)
  {
    UndeletedUntouched(st, evs, i, k, key);
    UntouchedStays(st, evs, i, k, key);
  }

  /**
    Durability, exactly: while its key is neither acked nor stored again, content stored at
    `i` is still queued, with its own expiry, if and only if no handler deleted a key it
    had collected.
    */
  lemma DurableExactly(st: State, evs: seq<Event>, i: nat, k: nat)
    requires st.pending == map[] && i < k <= |evs| && evs[i].Store? && Unwritten(evs, i + 1, k, KeyOf(evs[i].c))
    ensures var key, queue := KeyOf(evs[i].c), Run(st, evs[..k]).queue;
            && (key in queue <==> !Deleted(st, evs, i + 1, k, key))
            && (key in queue ==> queue[key] == Item(evs[i].c, evs[i].now + Ttl(evs[i].c)))
  {
    StoredAt(st, evs, i);
    if Deleted(st, evs, i + 1, k, KeyOf(evs[i].c)) {
      DeletedIsGone(st, evs, i + 1, k, KeyOf(evs[i].c));
    } else {
      UndeletedStays(st, evs, i + 1, k, KeyOf(evs[i].c));
    }
  }

  lemma {:induction false} FirstTouch(st: State, evs: seq<Event>, i: nat, k: nat, key: Bytes) returns (j: nat)
    requires i <= k <= |evs| && !Untouched(st, evs, i, k, key)
    ensures i <= j < k && Touches(Run(st, evs[..j]), evs[j], key) && Untouched(st, evs, i, j, key)
    decreases k
  {
    if Untouched(st, evs, i, k - 1, key) {
      j := k - 1;
    } else {
      j := FirstTouch(st, evs, i, k - 1, key);
    }
  }

  lemma CollectedBecause(st: State, evs: seq<Event>, i: nat, s: nat)
    requires i < s < |evs| && evs[i].Store? && evs[i].c.Envelope? && Untouched(st, evs, i + 1, s, KeyOf(evs[i].c))
    requires Collects(Run(st, evs[..s]), evs[s], KeyOf(evs[i].c))
    ensures StartsWith(KeyOf(evs[i].c), QueuePrefix(evs[s].id))
    ensures evs[s].Fetch? || (evs[s].Scan? && evs[s].now > evs[i].now + 604_800)
  {
    StoredAt(st, evs, i);
    UntouchedStays(st, evs, i + 1, s, KeyOf(evs[i].c));
  }

  /**
    Why a message is lost: its deletion at `j` follows from a collection at `s` that came
    before the message was stored, or was a fetch under its prefix, or a scan under its
    prefix that found it over 7 days old.
    */
  lemma LostBecause(st: State, evs: seq<Event>, i: nat, k: nat) returns (s: nat, j: nat)
    requires st.pending == map[] && i < k <= |evs| && evs[i].Store? && evs[i].c.Envelope?
    requires Unwritten(evs, i + 1, k, KeyOf(evs[i].c)) && KeyOf(evs[i].c) !in Run(st, evs[..k]).queue
    ensures s < j && i < j < k && s != i && DeletesAt(st, evs, s, j, KeyOf(evs[i].c))
    ensures s > i ==>
              && StartsWith(KeyOf(evs[i].c), QueuePrefix(evs[s].id))
              && (evs[s].Fetch? || (evs[s].Scan? && evs[s].now > evs[i].now + 604_800))
  {
    var key := KeyOf(evs[i].c);
    StoredAt(st, evs, i);
    if Untouched(st, evs, i + 1, k, key) {
      UntouchedStays(st, evs, i + 1, k, key);
    }
    j := FirstTouch(st, evs, i + 1, k, key);
    s := CollectedHeld(st, evs, j, evs[j].conn, key);
    if s > i {
      CollectedBecause(st, evs, i, s);
    }
  }

  // ---------------------------------------------------------------- acks

  /** No copy stored under the key. */
  predicate Unstored(evs: seq<Event>, i: nat, k: nat, key: Bytes)
    requires k <= |evs|
  {
    forall j :: i <= j < k && evs[j].Store? ==> KeyOf(evs[j].c) != key
  }

  lemma {:induction false} GoneStays(st: State, evs: seq<Event>, i: nat, k: nat, key: Bytes)
    requires i <= k <= |evs| && Unstored(evs, i, k, key) && key !in Run(st, evs[..i]).queue
    ensures key !in Run(st, evs[..k]).queue
    decreases k
  {
    if i < k {
      GoneStays(st, evs, i, k - 1, key);
      RunUnfolds(st, evs, k);
    }
  }

  /**
    An ack is final: once a message is acked and until a copy is stored under its key again,
    it is not in the queue, no scan pushes anything filed under that key and no fetch reads it.
    */
  lemma AckIsFinal(st: State, evs: seq<Event>, j: nat, k: nat)
    requires WellFiled(st.queue) && j < k <= |evs| && evs[j].Ack?
    requires Unstored(evs, j + 1, k, QueueKey(evs[j].id, evs[j].message))
    ensures var key, queue := QueueKey(evs[j].id, evs[j].message), Run(st, evs[..k]).queue;
            && key !in queue
            && (forall id :: key !in Mine(queue, id))
            && (forall conn, id, now, c :: KeyOf(c) == key ==> Push(conn, c) !in ScanPushes(queue, conn, id, now))
  {
    var key := QueueKey(evs[j].id, evs[j].message);
    RunUnfolds(st, evs, j + 1);
    GoneStays(st, evs, j + 1, k, key);
    WellFiledRun(st, evs[..k]);
    forall conn, id, now, c | KeyOf(c) == key ensures Push(conn, c) !in ScanPushes(Run(st, evs[..k]).queue, conn, id, now) {
      ScanSendsExactly(Run(st, evs[..k]).queue, conn, id, now, c);
    }
  }

  // ---------------------------------------------------------------- durability against others

  /** No handler still holds `key` for deletion. */
  ghost predicate NonePending(st: State, key: Bytes) { forall c :: c in st.pending ==> key !in st.pending[c] }

  /** What may happen to a message without ending its stay: no ack, new copy, fetch or late scan of its key. */
  predicate Harmless(ev: Event, key: Bytes, expires: int) {
    && !Writes(ev, key)
    && (ev.Scan? && ev.now > expires ==> !StartsWith(key, QueuePrefix(ev.id)))
    && (ev.Fetch? ==> !StartsWith(key, QueuePrefix(ev.id)))
  }

  ghost predicate AllHarmless(evs: seq<Event>, i: nat, k: nat, key: Bytes, expires: int)
    requires k <= |evs|
  {
    forall j :: i <= j < k ==> Harmless(evs[j], key, expires)
  }

  ghost predicate Kept(st: State, key: Bytes, item: Item) {
    key in st.queue && st.queue[key] == item && NonePending(st, key)
  }

  lemma KeptStep(st: State, ev: Event, key: Bytes, item: Item)
    requires Kept(st, key, item) && item.content.Envelope? && Harmless(ev, key, item.expires)
    ensures Kept(Step(st, ev), key, item)
  {
  }

  lemma {:induction false} KeptRun(st: State, evs: seq<Event>, i: nat, k: nat, key: Bytes, item: Item)
    requires i <= k <= |evs| && Kept(Run(st, evs[..i]), key, item) && item.content.Envelope?
    requires AllHarmless(evs, i, k, key, item.expires)
    ensures Kept(Run(st, evs[..k]), key, item)
    decreases k
  {
    if i < k {
      KeptRun(st, evs, i, k - 1, key, item);
      RunUnfolds(st, evs, k);
      KeptStep(Run(st, evs[..k - 1]), evs[k - 1], key, item);
    }
  }

  lemma PushAtScan(st: State, conn: Conn, c: Content, item: Item, now: int)
    requires KeyOf(c) in st.queue && st.queue[KeyOf(c)] == item && now <= item.expires
    ensures Push(conn, item.content) in Step(st, Scan(conn, c.recipient, now)).pushes
  {
    OwnPrefix(c);
    assert KeyOf(c) in Live(st.queue, c.recipient, now);
  }

  /**
    Durability in terms of what others do: an accepted message stays queued, and every scan
    by its recipient pushes it again, until it is acked, accepted again, fetched, or scanned
    more than 7 days later; provided no handler was about to delete an older entry under
    its key.
    */
  lemma Durable(st: State, evs: seq<Event>, i: nat, k: nat)
    requires i < k <= |evs| && evs[i].Store? && evs[i].c.Envelope?
    requires NonePending(Run(st, evs[..i]), KeyOf(evs[i].c))
    requires AllHarmless(evs, i + 1, k, KeyOf(evs[i].c), evs[i].now + 604_800)
    ensures Kept(Run(st, evs[..k]), KeyOf(evs[i].c), Item(evs[i].c, evs[i].now + 604_800))
    ensures forall conn, now :: now <= evs[i].now + 604_800 ==>
              Push(conn, evs[i].c) in Step(Run(st, evs[..k]), Scan(conn, evs[i].c.recipient, now)).pushes
  {
    var c, item := evs[i].c, Item(evs[i].c, evs[i].now + 604_800);
    RunUnfolds(st, evs, i + 1);
    KeptRun(st, evs, i + 1, k, KeyOf(c), item);
    forall conn, now | now <= item.expires
      ensures Push(conn, c) in Step(Run(st, evs[..k]), Scan(conn, c.recipient, now)).pushes
    {
      PushAtScan(Run(st, evs[..k]), conn, c, item, now);
    }
  }

  /** A reader collects the key of a message it finds. */
  lemma ReaderCollects(st: State, ev: Event, c: Content)
    requires KeyOf(c) in st.queue && (ev.Scan? || ev.Fetch?) && ev.id == c.recipient
    requires ev.Scan? ==> ev.now > st.queue[KeyOf(c)].expires
    ensures Collected(Step(st, ev), ev.conn, KeyOf(c))
  {
    OwnPrefix(c);
  }

  /**
    A message accepted again while a scan that found its predecessor overdue has not
    finished deleting is lost at once: unacked, in time and never pushed.
    */
  lemma StoredAgainLost(c: Content, conn: Conn, t: int)
    requires c.Envelope?
    ensures var again := t + 604_800 + 1;
            var st := Run(EMPTY, [Store(c, t), Scan(conn, c.recipient, again), Store(c, again), Cleanup(conn, KeyOf(c))]);
            KeyOf(c) !in st.queue && st.pushes == {}
  {
    var again := t + 604_800 + 1;
    var evs := [Store(c, t), Scan(conn, c.recipient, again), Store(c, again), Cleanup(conn, KeyOf(c))];
    var st1 := Step(EMPTY, evs[0]);
    FourSteps(EMPTY, evs);
    ReaderCollects(st1, evs[1], c);
    assert ScanPushes(st1.queue, conn, c.recipient, again) == {};
  }

  /** A message fetched over REST is gone without an ack: a later connection gets nothing. */
  lemma FetchedIsGone(c: Content, handler: Conn, conn: Conn, t: int)
    requires c.Envelope?
    ensures var evs := [Store(c, t), Fetch(handler, c.recipient, t), Cleanup(handler, KeyOf(c)), Scan(conn, c.recipient, t)];
            KeyOf(c) !in Run(EMPTY, evs).queue && Run(EMPTY, evs).pushes == {}
  {
    var evs := [Store(c, t), Fetch(handler, c.recipient, t), Cleanup(handler, KeyOf(c)), Scan(conn, c.recipient, t)];
    FourSteps(EMPTY, evs);
    ReaderCollects(Step(EMPTY, evs[0]), evs[1], c);
  }

  // ---------------------------------------------------------------- what a scan resends

  /** Every entry is filed under its own key. */
  ghost predicate WellFiled(queue: map<Bytes, Item>) { forall k :: k in queue ==> k == KeyOf(queue[k].content) }

  lemma {:induction false} WellFiledRun(st: State, evs: seq<Event>)
    requires WellFiled(st.queue)
    ensures WellFiled(Run(st, evs).queue)
    decreases |evs|
  {
    if evs != [] {
      WellFiledRun(st, evs[..|evs| - 1]);
    }
  }

  /**
    A reconnecting identity is sent exactly what is queued under its prefix and in time;
    among recipients of its own length that is exactly what was sent to it.
    */
  lemma ScanSendsExactly(queue: map<Bytes, Item>, conn: Conn, id: Identity, now: int, c: Content)
    requires WellFiled(queue)
    ensures Push(conn, c) in ScanPushes(queue, conn, id, now) <==>
              && StartsWith(KeyOf(c), QueuePrefix(id)) && KeyOf(c) in queue && queue[KeyOf(c)].content == c
              && now <= queue[KeyOf(c)].expires
    ensures |c.recipient| == |id| ==> (StartsWith(KeyOf(c), QueuePrefix(id)) <==> c.recipient == id)
  {
    if Push(conn, c) in ScanPushes(queue, conn, id, now) {
      var k :| k in Live(queue, id, now) && Push(conn, queue[k].content) == Push(conn, c);
    }
    if StartsWith(KeyOf(c), QueuePrefix(id)) && KeyOf(c) in queue && now <= queue[KeyOf(c)].expires {
      assert KeyOf(c) in Live(queue, id, now);
    }
    if |c.recipient| == |id| {
      PrefixSelects(c.recipient, if c.Envelope? then c.id else WEBRTC + c.tag, id);
    }
  }

  /** The REST path does not check the recipient: one that continues an identity's prefix is read by that identity. */
  lemma PrefixExtends(id: Identity, rest: Bytes, message: Bytes)
    ensures StartsWith(QueueKey(id + COLON + rest, message), QueuePrefix(id))
  {
    var key := QueueKey(id + COLON + rest, message);
    assert key == QueuePrefix(id) + rest + COLON + message;
  }

  // ---------------------------------------------------------------- an uninterrupted delivery

  /** A reader's step followed by all its cleanups, with nothing in between. */
  function Delivered(st: State, conn: Conn, id: Identity, now: int): State {
    st.(pushes := st.pushes + ScanPushes(st.queue, conn, id, now),
        queue := st.queue - ScanCollects(st.queue, id, now),
        pending := st.pending[conn := {}])
  }

  function Fetched(st: State, conn: Conn, id: Identity): State {
    st.(queue := st.queue - Mine(st.queue, id), pending := st.pending[conn := {}])
  }

  function Cleanups(conn: Conn, keys: seq<Bytes>): seq<Event>
    ensures |Cleanups(conn, keys)| == |keys|
  {
    if keys == [] then [] else Cleanups(conn, keys[..|keys| - 1]) + [Cleanup(conn, keys[|keys| - 1])]
  }

  /** The state once `conn` has deleted the keys in `gone`. */
  function Cleaned(st: State, conn: Conn, gone: set<Bytes>): State
    requires conn in st.pending
  {
    st.(queue := st.queue - gone, pending := st.pending[conn := st.pending[conn] - gone])
  }

  lemma CleanOneMore(st: State, conn: Conn, gone: set<Bytes>, key: Bytes)
    requires Collected(st, conn, key)
    ensures Step(Cleaned(st, conn, gone), Cleanup(conn, key)) == Cleaned(st, conn, gone + {key})
  {
    var pending := st.pending[conn];
    assert (st.queue - gone) - {key} == st.queue - (gone + {key});
    assert (pending - gone) - {key} == pending - (gone + {key});
    if key in gone {
      assert gone + {key} == gone;
    }
  }

  lemma SetOfSeq(keys: seq<Bytes>, front: seq<Bytes>, last: Bytes)
    requires keys == front + [last]
    ensures (set k | k in keys) == (set k | k in front) + {last}
  {
  }

  lemma {:induction false} CleanupsRemove(st: State, conn: Conn, keys: seq<Bytes>)
    requires conn in st.pending && forall k :: k in keys ==> Collected(st, conn, k)
    ensures Run(st, Cleanups(conn, keys)) == Cleaned(st, conn, set k | k in keys)
    decreases |keys|
  {
    if keys == [] {
      assert (set k | k in keys) == {};
      assert st.queue - {} == st.queue && st.pending[conn] - {} == st.pending[conn];
      assert st.pending[conn := st.pending[conn]] == st.pending;
    } else {
      var front, last := keys[..|keys| - 1], keys[|keys| - 1];
      CleanupsRemove(st, conn, front);
      assert Cleanups(conn, keys)[..|keys| - 1] == Cleanups(conn, front);
      SetOfSeq(keys, front, last);
      CleanOneMore(st, conn, (set k | k in front), last);
    }
  }

  /** A delivery that nothing interrupts is its scan and its cleanups, in any order of the keys, and leaves nothing pending. */
  lemma DeliveredIsSteps(st: State, conn: Conn, id: Identity, now: int, keys: seq<Bytes>)
    requires (set k | k in keys) == ScanCollects(st.queue, id, now)
    ensures Run(Step(st, Scan(conn, id, now)), Cleanups(conn, keys)) == Delivered(st, conn, id, now)
  {
    var mid, gone := Step(st, Scan(conn, id, now)), ScanCollects(st.queue, id, now);
    CleanupsRemove(mid, conn, keys);
    assert gone - gone == {} && mid.pending[conn := {}] == st.pending[conn := {}];
  }

  lemma FetchedIsSteps(st: State, conn: Conn, id: Identity, now: int, keys: seq<Bytes>)
    requires (set k | k in keys) == Mine(st.queue, id)
    ensures Run(Step(st, Fetch(conn, id, now)), Cleanups(conn, keys)) == Fetched(st, conn, id)
  {
    var mid, gone := Step(st, Fetch(conn, id, now)), Mine(st.queue, id);
    CleanupsRemove(mid, conn, keys);
    assert gone - gone == {} && mid.pending[conn := {}] == st.pending[conn := {}];
  }

  /** What an uninterrupted delivery leaves under the identity's prefix: the messages in time, and nothing else. */
  lemma DeliveryLeaves(st: State, conn: Conn, id: Identity, now: int, key: Bytes)
    ensures key in Delivered(st, conn, id, now).queue <==>
              key in st.queue
              && (StartsWith(key, QueuePrefix(id)) ==> now <= st.queue[key].expires && st.queue[key].content.Envelope?)
  {
  }

  // ---------------------------------------------------------------- the hand-off

  predicate Changes(ev: Event, id: Identity) { (ev.Register? && ev.id == id) || (ev.Disconnect? && ev.id == id) }

  /** Since its registration at `r` nobody registered or disconnected under the same identity. */
  predicate Undisturbed(evs: seq<Event>, r: nat, k: nat, id: Identity)
    requires k <= |evs|
  {
    forall j :: r < j < k ==> !Changes(evs[j], id)
  }

  predicate RegistersOnce(evs: seq<Event>, r: nat, conn: Conn)
    requires r < |evs|
  {
    forall j :: 0 <= j < |evs| && j != r && evs[j].Register? ==> evs[j].conn != conn
  }

  lemma {:induction false} StaysRegistered(st: State, evs: seq<Event>, r: nat, k: nat)
    requires r < k <= |evs| && evs[r].Register? && Undisturbed(evs, r, k, evs[r].id)
    ensures var clients := Run(st, evs[..k]).clients; evs[r].id in clients && clients[evs[r].id] == evs[r].conn
    decreases k
  {
    RunUnfolds(st, evs, k);
    if r < k - 1 {
      StaysRegistered(st, evs, r, k - 1);
    }
  }

  lemma {:induction false} LosesRegistration(st: State, evs: seq<Event>, r: nat, k: nat)
    requires r < k <= |evs| && evs[r].Register? && RegistersOnce(evs, r, evs[r].conn)
    requires !Undisturbed(evs, r, k, evs[r].id)
    ensures var clients := Run(st, evs[..k]).clients; evs[r].id in clients ==> clients[evs[r].id] != evs[r].conn
    decreases k
  {
    RunUnfolds(st, evs, k);
    if !Changes(evs[k - 1], evs[r].id) {
      LosesRegistration(st, evs, r, k - 1);
    }
  }

  /** Event `k` pushes `c` to connection `conn`. */
  predicate PushedAt(st: State, evs: seq<Event>, k: nat, conn: Conn, c: Content)
    requires k < |evs|
  {
    match evs[k]
    case Lookup(c') =>
      c' == c && c.recipient in Run(st, evs[..k]).clients && Run(st, evs[..k]).clients[c.recipient] == conn
    case Scan(conn', id, now) => conn' == conn && Push(conn, c) in ScanPushes(Run(st, evs[..k]).queue, conn, id, now)
    case _ => false
  }

  lemma PushedIsRecorded(st: State, evs: seq<Event>, k: nat, conn: Conn, c: Content)
    requires k < |evs| && PushedAt(st, evs, k, conn, c)
    ensures Push(conn, c) in Run(st, evs[..k + 1]).pushes
  {
    RunUnfolds(st, evs, k + 1);
  }

  predicate PushedBefore(st: State, evs: seq<Event>, k: nat, p: Push)
    requires k <= |evs|
  {
    exists i: nat :: i < k && PushedAt(st, evs, i, p.conn, p.content)
  }

  lemma PushStep(st: State, evs: seq<Event>, k: nat, p: Push)
    requires k < |evs|
    ensures p in Run(st, evs[..k + 1]).pushes <==> p in Run(st, evs[..k]).pushes || PushedAt(st, evs, k, p.conn, p.content)
  {
    RunUnfolds(st, evs, k + 1);
  }

  /** The pushes of a run are exactly those that some event of it made. */
  lemma {:induction false} PushesExactly(st: State, evs: seq<Event>, k: nat, p: Push)
    requires k <= |evs|
    ensures p in Run(st, evs[..k]).pushes <==> p in st.pushes || PushedBefore(st, evs, k, p)
    decreases k
  {
    if k > 0 {
      PushesExactly(st, evs, k - 1, p);
      PushStep(st, evs, k - 1, p);
    }
  }

  /** A message looked up after the connection registered reaches it exactly when it is undisturbed. */
  lemma LookupReachesExactly(st: State, evs: seq<Event>, r: nat, l: nat)
    requires r < l < |evs| && evs[r].Register? && RegistersOnce(evs, r, evs[r].conn)
    requires evs[l].Lookup? && evs[l].c.recipient == evs[r].id
    ensures PushedAt(st, evs, l, evs[r].conn, evs[l].c) <==> Undisturbed(evs, r, l, evs[r].id)
  {
    if Undisturbed(evs, r, l, evs[r].id) {
      StaysRegistered(st, evs, r, l);
    } else {
      LosesRegistration(st, evs, r, l);
    }
  }

  lemma ScanReaches(st: State, evs: seq<Event>, a: nat, s: nat)
    requires a < s < |evs| && evs[a].Store? && evs[s].Scan? && evs[s].id == evs[a].c.recipient
    requires Untouched(st, evs, a + 1, s, KeyOf(evs[a].c)) && evs[s].now <= evs[a].now + Ttl(evs[a].c)
    ensures PushedAt(st, evs, s, evs[s].conn, evs[a].c)
  {
    var c := evs[a].c;
    RunUnfolds(st, evs, a + 1);
    UntouchedStays(st, evs, a + 1, s, KeyOf(c));
    OwnPrefix(c);
    assert KeyOf(c) in Live(Run(st, evs[..s]).queue, c.recipient, evs[s].now);
  }

  /**
    No missed hand-off: in every interleaving of a routing (Store at `a`, Lookup at `l`)
    with a connecting client (Register at `r`, Scan at `s`), whatever else runs between,
    the content is pushed to the connection, unless before the scan its entry was
    touched or had run out, or before the lookup the registration was disturbed.
    */
  lemma NoMissedHandOff(st: State, evs: seq<Event>, a: nat, l: nat, r: nat, s: nat)
    requires a < l < |evs| && r < s < |evs|
    requires evs[a].Store? && evs[l] == Lookup(evs[a].c)
    requires evs[r].Register? && evs[s].Scan? && evs[s].conn == evs[r].conn
    requires evs[r].id == evs[s].id == evs[a].c.recipient
    requires a < s ==> Untouched(st, evs, a + 1, s, KeyOf(evs[a].c)) && evs[s].now <= evs[a].now + Ttl(evs[a].c)
    requires s < a ==> Undisturbed(evs, r, l, evs[r].id)
    ensures PushedAt(st, evs, if a < s then s else l, evs[r].conn, evs[a].c)
  {
    if a < s {
      ScanReaches(st, evs, a, s);
    } else {
      StaysRegistered(st, evs, r, l);
    }
  }

  /**
    The REST path and call signals look up first and store, under a key not used before,
    only when the recipient is offline. Then, against a client that connects, the content
    is pushed exactly when the store comes before the client's scan.
    */
  lemma LookupFirstExactly(st: State, evs: seq<Event>, l: nat, a: nat, r: nat, s: nat)
    requires l < a < |evs| && r < s < |evs| && a != s
    requires evs[a].Store? && evs[l] == Lookup(evs[a].c) && evs[a].c.recipient !in Run(st, evs[..l]).clients
    requires evs[r].Register? && evs[s].Scan? && evs[s].conn == evs[r].conn
    requires evs[r].id == evs[s].id == evs[a].c.recipient && Undisturbed(evs, r, |evs|, evs[r].id)
    requires WellFiled(st.queue) && KeyOf(evs[a].c) !in st.queue && Unwritten(evs, 0, a, KeyOf(evs[a].c))
    requires a < s ==> Untouched(st, evs, a + 1, s, KeyOf(evs[a].c)) && evs[s].now <= evs[a].now + Ttl(evs[a].c)
    ensures l < r
    ensures !PushedAt(st, evs, l, evs[r].conn, evs[a].c)
    ensures PushedAt(st, evs, s, evs[r].conn, evs[a].c) <==> a < s
  {
    if r < l {
      StaysRegistered(st, evs, r, l);
    }
    if a < s {
      ScanReaches(st, evs, a, s);
    } else {
      AbsentStays(st, evs, 0, s, KeyOf(evs[a].c));
      assert st == Run(st, evs[..0]);
      WellFiledRun(st, evs[..s]);
      ScanSendsExactly(Run(st, evs[..s]).queue, evs[s].conn, evs[s].id, evs[s].now, evs[a].c);
    }
  }

  /** A client that registers and scans between the lookup and the store stays connected and is pushed nothing. */
  lemma LookupFirstMisses(c: Content, conn: Conn, now: int)
    ensures var st := Run(EMPTY, [Lookup(c), Register(conn, c.recipient), Scan(conn, c.recipient, now), Store(c, now)]);
            st.pushes == {} && c.recipient in st.clients && KeyOf(c) in st.queue
  {
    var evs := [Lookup(c), Register(conn, c.recipient), Scan(conn, c.recipient, now), Store(c, now)];
    FourSteps(EMPTY, evs);
    assert ScanPushes(map[], conn, c.recipient, now) == {};
  }

  /** An older connection's late disconnect hides a newer one: it stays connected and misses the message. */
  lemma StaleDisconnect(id: Identity, c: Content, now: int)
    requires c.recipient == id
    ensures var evs := [Register(0, id), Register(1, id), Scan(1, id, now), Disconnect(0, id), Store(c, now), Lookup(c)];
            Run(EMPTY, evs).pushes == {}
  {
    var evs := [Register(0, id), Register(1, id), Scan(1, id, now), Disconnect(0, id), Store(c, now), Lookup(c)];
    assert evs[..6] == evs;
    FourSteps(EMPTY, evs[..4]);
    assert evs[..4][..4] == evs[..4];
    RunUnfolds(EMPTY, evs, 5);
    RunUnfolds(EMPTY, evs, 6);
    assert ScanPushes(map[], 1, id, now) == {};
  }
}

/**
  Group sender keys: a hash chain per sender, rotated by count, age or member removal, and
  a receiver that runs the chain forward. Each call reads the clock once; a freshly drawn
  chain key is named by its argument `random`.
  */
module Group {
  import opened Wrappers
  import opened Crypto
  import opened Secrecy

  const EXPIRATION: nat := 7 * 86400
  const ROTATE_AFTER: nat := 1000
  const MAX_SKIP: nat := 500
  const MAX_MESSAGE: nat := 10 * 1024 * 1024
  const MAX_CIPHERTEXT: nat := MAX_MESSAGE + 1024
  const MAX_GROUP_SIZE: nat := 1000

  type Member = nat

  datatype SenderKey = SenderKey(chain: Key, number: nat, expiration: Option<nat>, keyId: nat)

  /** An AEAD box under a message key, with the group id as associated data. */
  datatype Box = Box(key: Key, group: nat, plaintext: Bytes)

  /** What a signature covers: everything but itself. */
  datatype Content = Content(group: nat, keyId: nat, number: nat, box: Box, epoch: nat, timestamp: nat)

  /** A member is named by their Ed25519 key, so a signature names its signer. */
  datatype Signature = Missing | Signed(signer: Member, content: Content)

  datatype Message = Message(content: Content, signature: Signature)
  {
    const group := content.group
    const keyId := content.keyId
    const number := content.number
    const box := content.box
  }

  // ---------------------------------------------------------------- one sender key

  function NewKey(keyId: nat, random: nat, now: nat): SenderKey {
    SenderKey(RandomKey(random), 0, Some(now + EXPIRATION), keyId)
  }

  predicate IsExpired(k: SenderKey, now: nat) { k.expiration.Some? && now > k.expiration.value }

  datatype Stepped = Stepped(sender: SenderKey, result: Result<Key>)

  /** On overflow the chain has already moved on; the number has not. */
  function NextMessageKey(k: SenderKey, now: nat): Stepped {
    if IsExpired(k, now) then Stepped(k, Err(Expired))
    else
      var next := k.(chain := GroupChain(k.chain));
      if k.number + 1 >= U32 then Stepped(next, Err(MessageNumberOverflow))
      else Stepped(next.(number := k.number + 1), Ok(GroupMessageKey(k.chain)))
  }

  function Rotate(k: SenderKey, random: nat, now: nat): SenderKey { NewKey((k.keyId + 1) % U32, random, now) }

  // ---------------------------------------------------------------- sending

  predicate NeedsRotation(k: SenderKey, now: nat) { k.number > ROTATE_AFTER || IsExpired(k, now) }

  function Ready(k: SenderKey, random: nat, now: nat): SenderKey {
    if NeedsRotation(k, now) then Rotate(k, random, now) else k
  }

  /** What a sender does with its key: send a message, or rotate because a member left. */
  datatype SenderEvent = Send(random: nat, now: nat) | Removed(random: nat, now: nat)

  function SenderStep(k: SenderKey, ev: SenderEvent): SenderKey {
    match ev
    case Send(random, now) => NextMessageKey(Ready(k, random, now), now).sender
    case Removed(random, now) => Rotate(k, random, now)
  }

  function SenderRun(k: SenderKey, evs: seq<SenderEvent>): SenderKey
    decreases |evs|
  {
    if evs == [] then k else SenderStep(SenderRun(k, evs[..|evs| - 1]), evs[|evs| - 1])
  }

  /** A message as its sender labels it, with the key it is sealed under. */
  datatype Label = Label(keyId: nat, number: nat, key: Key)

  /** The label of the message sent at `i`. */
  function LabelAt(k: SenderKey, evs: seq<SenderEvent>, i: nat): Label
    requires i < |evs| && evs[i].Send?
  {
    var ready := Ready(SenderRun(k, evs[..i]), evs[i].random, evs[i].now);
    Label(ready.keyId, ready.number, GroupMessageKey(ready.chain))
  }

  predicate Before(a: Label, b: Label) { a.keyId < b.keyId || (a.keyId == b.keyId && a.number < b.number) }

  predicate NotPast(keyId: nat, number: nat, k: SenderKey) {
    keyId < k.keyId || (keyId == k.keyId && number <= k.number)
  }

  predicate Rotates(k: SenderKey, ev: SenderEvent) { ev.Removed? || NeedsRotation(k, ev.now) }

  /** No rotation of the run wraps the 32-bit key id. */
  ghost predicate NoWrap(k: SenderKey, evs: seq<SenderEvent>) {
    forall i :: 0 <= i < |evs| && Rotates(SenderRun(k, evs[..i]), evs[i]) ==> SenderRun(k, evs[..i]).keyId + 1 < U32
  }

  lemma SenderUnfolds(k: SenderKey, evs: seq<SenderEvent>, i: nat)
    requires 0 < i <= |evs|
    ensures SenderRun(k, evs[..i]) == SenderStep(SenderRun(k, evs[..i - 1]), evs[i - 1])
  {
    assert evs[..i][..i - 1] == evs[..i - 1];
  }

  lemma StepMovesOn(k: SenderKey, ev: SenderEvent, keyId: nat, number: nat)
    requires NotPast(keyId, number, k) && (Rotates(k, ev) ==> k.keyId + 1 < U32)
    ensures NotPast(keyId, number, SenderStep(k, ev))
  {
  }

  lemma SendMovesOn(k: SenderKey, ev: SenderEvent)
    requires ev.Send? && (Rotates(k, ev) ==> k.keyId + 1 < U32)
    ensures var ready := Ready(k, ev.random, ev.now);
            ready.number <= ROTATE_AFTER && NotPast(ready.keyId, ready.number + 1, SenderStep(k, ev))
  {
  }

  lemma {:induction false} LabelBehind(k: SenderKey, evs: seq<SenderEvent>, i: nat, j: nat)
    requires i < j <= |evs| && evs[i].Send? && NoWrap(k, evs)
    ensures NotPast(LabelAt(k, evs, i).keyId, LabelAt(k, evs, i).number + 1, SenderRun(k, evs[..j]))
    decreases j
  {
    SenderUnfolds(k, evs, j);
    if i < j - 1 {
      LabelBehind(k, evs, i, j - 1);
      StepMovesOn(SenderRun(k, evs[..j - 1]), evs[j - 1], LabelAt(k, evs, i).keyId, LabelAt(k, evs, i).number + 1);
    } else {
      SendMovesOn(SenderRun(k, evs[..i]), evs[i]);
    }
  }

  /** Labels strictly increase over a sender key's life, and numbers stay at or below 1000. */
  lemma LabelsIncrease(k: SenderKey, evs: seq<SenderEvent>, i: nat, j: nat)
    requires i < j < |evs| && evs[i].Send? && evs[j].Send? && NoWrap(k, evs)
    ensures Before(LabelAt(k, evs, i), LabelAt(k, evs, j))
    ensures LabelAt(k, evs, i).number <= ROTATE_AFTER && LabelAt(k, evs, j).number <= ROTATE_AFTER
  {
    LabelBehind(k, evs, i, j);
    SendMovesOn(SenderRun(k, evs[..i]), evs[i]);
    StepMovesOn(SenderRun(k, evs[..j]), evs[j], LabelAt(k, evs, i).keyId, LabelAt(k, evs, i).number + 1);
  }

  // ---------------------------------------------------------------- how long a key serves

  /** Sends within 7 days of `made`. */
  ghost predicate WithinWeek(evs: seq<SenderEvent>, made: nat) {
    forall i :: 0 <= i < |evs| ==> evs[i].Send? && evs[i].now <= made + 604_800
  }

  lemma {:induction false} KeyServes(keyId: nat, random: nat, made: nat, evs: seq<SenderEvent>)
    requires WithinWeek(evs, made) && |evs| <= 1001
    ensures var k := SenderRun(NewKey(keyId, random, made), evs);
            k.keyId == keyId && k.number == |evs| && k.expiration == Some(made + 604_800)
    decreases |evs|
  {
    if evs != [] {
      KeyServes(keyId, random, made, evs[..|evs| - 1]);
    }
  }

  /** A key serves 1001 messages and 7 days: the next send stays on it exactly up to both limits. */
  lemma KeyServesExactly(keyId: nat, random: nat, made: nat, evs: seq<SenderEvent>, ev: SenderEvent)
    requires WithinWeek(evs, made) && |evs| <= 1001 && ev.Send? && keyId + 1 < U32
    ensures var k := SenderStep(SenderRun(NewKey(keyId, random, made), evs), ev);
            && (k.keyId == keyId <==> |evs| <= 1000 && ev.now <= made + 604_800)
            && (k.keyId != keyId ==> k.keyId == keyId + 1 && k.number == 1)
  {
    KeyServes(keyId, random, made, evs);
  }

  // ---------------------------------------------------------------- what a chain key gives away

  function Origin(k: Key): Option<nat> {
    match k
    case RandomKey(id) => Some(id)
    case GroupChain(c) => Origin(c)
    case GroupMessageKey(c) => Origin(c)
    case _ => None
  }

  lemma {:induction false} DerivableOrigin(k: Knowledge, key: Key) returns (from: Key)
    requires Derivable(k, key) && Origin(key).Some?
    ensures from in k.keys && Origin(from) == Origin(key)
    decreases key
  {
    if key in k.keys {
      from := key;
    } else {
      from := DerivableOrigin(k, key.chain);
    }
  }

  lemma OriginStep(k: SenderKey, ev: SenderEvent)
    ensures Origin(SenderStep(k, ev).chain) == Origin(k.chain) || Origin(SenderStep(k, ev).chain) == Some(ev.random)
    ensures ev.Removed? ==> Origin(SenderStep(k, ev).chain) == Some(ev.random)
  {
  }

  /** After a rotation the chain comes from a key drawn at or after it. */
  lemma {:induction false} OriginAfterRemoval(k: SenderKey, evs: seq<SenderEvent>, r: nat, j: nat) returns (m: nat)
    requires r < j <= |evs| && evs[r].Removed?
    ensures r <= m < j && Origin(SenderRun(k, evs[..j]).chain) == Some(evs[m].random)
    decreases j
  {
    SenderUnfolds(k, evs, j);
    OriginStep(SenderRun(k, evs[..j - 1]), evs[j - 1]);
    if r < j - 1 && Origin(SenderRun(k, evs[..j]).chain) != Some(evs[j - 1].random) {
      m := OriginAfterRemoval(k, evs, r, j - 1);
    } else {
      m := j - 1;
    }
  }

  /**
    Removal locks out: no key used after `remove_member` can be computed from keys held
    before it, whatever else is known, if the random values drawn since are new to them.
    */
  lemma RemovalLocksOut(sk: SenderKey, evs: seq<SenderEvent>, r: nat, j: nat, k: Knowledge)
    requires r < j < |evs| && evs[r].Removed? && evs[j].Send?
    requires forall key, m :: key in k.keys && r <= m <= j ==> Origin(key) != Some(evs[m].random)
    ensures !Computable(k, LabelAt(sk, evs, j).key)
  {
    var m := OriginAfterRemoval(sk, evs, r, j);
    var key := LabelAt(sk, evs, j).key;
    if Computable(k, key) {
      ComputableOnly(k, key);
      var from := DerivableOrigin(k, key);
    }
  }

  // ---------------------------------------------------------------- receiving

  function GroupChainAt(base: Key, n: nat): Key { if n == 0 then base else GroupChain(GroupChainAt(base, n - 1)) }

  /** The loop that runs the chain forward to `target`. */
  function AdvanceTo(k: SenderKey, target: nat, now: nat): Stepped
    decreases target - k.number
  {
    if k.number >= target then Stepped(k, Ok(k.chain))
    else
      match NextMessageKey(k, now)
      case Stepped(k', Err(error)) => Stepped(k', Err(error))
      case Stepped(k', Ok(_)) => AdvanceTo(k', target, now)
  }

  /** Nonce, plaintext and tag. */
  function CiphertextLength(m: Message): nat { 12 + |m.box.plaintext| + 16 }

  function Validate(m: Message, now: nat): Option<ProtocolError> {
    if m.signature.Missing? then Some(AuthenticationFailed)
    else if m.content.timestamp > now + 300 then Some(InvalidMessage)
    else if now > m.content.timestamp + 86400 then Some(ProtocolError.Expired)
    else if CiphertextLength(m) > MAX_CIPHERTEXT then Some(InvalidMessage)
    else None
  }

  datatype Received = Received(sender: SenderKey, result: Result<Bytes>)

  /** The part of a decrypt that works on the sender's key; it keeps every step it took. */
  function Receive(k: SenderKey, m: Message, group: nat, now: nat): Received {
    if k.keyId != m.keyId then Received(k, Err(InvalidMessage))
    else if m.number > (k.number + MAX_SKIP) % U32 then Received(k, Err(MaxSkippedMessagesExceeded))
    else
      match AdvanceTo(k, m.number, now)
      case Stepped(k', Err(error)) => Received(k', Err(error))
      case Stepped(k', Ok(_)) =>
        match NextMessageKey(k', now)
        case Stepped(k'', Err(error)) => Received(k'', Err(error))
        case Stepped(k'', Ok(key)) =>
          Received(k'', if m.box.key == key && m.box.group == group then Ok(m.box.plaintext) else Err(AuthenticationFailed))
  }

  /** The receiver's copy is the sender's chain `base` at its own number. */
  predicate InSync(k: SenderKey, base: Key, keyId: nat) {
    k.keyId == keyId && k.chain == GroupChainAt(base, k.number) && k.number + MAX_SKIP + 1 < U32
  }

  /** Message `n` of the sender's chain. */
  predicate Genuine(m: Message, base: Key, keyId: nat, group: nat) {
    m.keyId == keyId && m.box.key == GroupMessageKey(GroupChainAt(base, m.number)) && m.box.group == group
  }

  lemma {:induction false} AdvanceReaches(k: SenderKey, base: Key, target: nat, now: nat)
    requires k.chain == GroupChainAt(base, k.number) && k.number <= target < U32 && !IsExpired(k, now)
    ensures var r := AdvanceTo(k, target, now);
            r.result.Ok? && r.sender == k.(chain := GroupChainAt(base, target), number := target)
    decreases target - k.number
  {
    if k.number < target {
      AdvanceReaches(NextMessageKey(k, now).sender, base, target, now);
    }
  }

  lemma {:induction false} GroupChainInjective(base: Key, n: nat, m: nat)
    requires GroupChainAt(base, n) == GroupChainAt(base, m)
    ensures n == m
    decreases n
  {
    if n > 0 && m > 0 {
      GroupChainInjective(base, n - 1, m - 1);
    } else if n != m {
      ChainDeeper(base, if n > 0 then n else m);
    }
  }

  /** A chain never comes back to where it started. */
  lemma {:induction false} ChainDeeper(base: Key, n: nat)
    requires n > 0
    ensures Depth(GroupChainAt(base, n)) == Depth(base) + n
  {
    if n > 1 {
      ChainDeeper(base, n - 1);
    }
  }

  function Depth(k: Key): nat { if k.GroupChain? then Depth(k.chain) + 1 else 0 }

  /**
    One attempt, exactly: a genuine message opens if and only if its number is not behind
    the receiver and at most 500 ahead; and whether it opens or not, any message up to 500
    ahead moves the receiver past it.
    */
  lemma ReceiveExact(k: SenderKey, base: Key, m: Message, group: nat, now: nat)
    requires InSync(k, base, m.keyId) && Genuine(m, base, m.keyId, group) && !IsExpired(k, now)
    ensures var r := Receive(k, m, group, now);
            && (r.result.Ok? <==> k.number <= m.number <= k.number + MAX_SKIP)
            && (r.result.Ok? ==> r.result == Ok(m.box.plaintext))
            && r.sender.number == (if m.number <= k.number + MAX_SKIP then Max(k.number, m.number) + 1 else k.number)
            && r.sender.chain == GroupChainAt(base, r.sender.number)
            && r.sender.keyId == k.keyId && r.sender.expiration == k.expiration
  {
    if m.number <= k.number + MAX_SKIP {
      var reach := Max(k.number, m.number);
      AdvanceReaches(k, base, reach, now);
      assert AdvanceTo(k, m.number, now).sender == k.(chain := GroupChainAt(base, reach), number := reach);
      if GroupChainAt(base, reach) == GroupChainAt(base, m.number) {
        GroupChainInjective(base, reach, m.number);
      }
    }
  }

  /** Nothing opens under an expired copy, and nothing moves it. */
  lemma ExpiredRefuses(k: SenderKey, m: Message, group: nat, now: nat)
    requires IsExpired(k, now)
    ensures Receive(k, m, group, now).result.Err? && Receive(k, m, group, now).sender == k
  {
  }

  // ---------------------------------------------------------------- delivery sequences

  /** A message and the receiver's clock when it arrives. */
  datatype Arrival = Arrival(m: Message, now: nat)

  function Results(k: SenderKey, arrivals: seq<Arrival>, group: nat): seq<Result<Bytes>>
    decreases |arrivals|
  {
    if arrivals == [] then []
    else
      var r := Receive(k, arrivals[0].m, group, arrivals[0].now);
      [r.result] + Results(r.sender, arrivals[1..], group)
  }

  predicate AllOpen(results: seq<Result<Bytes>>, arrivals: seq<Arrival>) {
    |results| == |arrivals| && forall i :: 0 <= i < |results| ==> results[i] == Ok(arrivals[i].m.box.plaintext)
  }

  lemma AllOpenCons(result: Result<Bytes>, results: seq<Result<Bytes>>, arrivals: seq<Arrival>)
    requires arrivals != []
    ensures AllOpen([result] + results, arrivals) <==>
              result == Ok(arrivals[0].m.box.plaintext) && AllOpen(results, arrivals[1..])
  {
    if AllOpen([result] + results, arrivals) {
      forall i | 0 <= i < |results| ensures results[i] == Ok(arrivals[1..][i].m.box.plaintext) {
        assert ([result] + results)[i + 1] == results[i];
      }
      assert ([result] + results)[0] == result;
    }
  }

  /** In time, and strictly increasing from `from` on with at most 500 numbers left out at a time. */
  predicate Steady(k: SenderKey, from: nat, arrivals: seq<Arrival>)
    decreases |arrivals|
  {
    arrivals == [] ||
    (&& from <= arrivals[0].m.number <= from + MAX_SKIP && !IsExpired(k, arrivals[0].now)
     && Steady(k, arrivals[0].m.number + 1, arrivals[1..]))
  }

  /** Only the expiration of the receiver's copy matters. */
  lemma {:induction false} SteadyOf(k: SenderKey, k': SenderKey, from: nat, arrivals: seq<Arrival>)
    requires k.expiration == k'.expiration
    ensures Steady(k, from, arrivals) == Steady(k', from, arrivals)
    decreases |arrivals|
  {
    if arrivals != [] {
      SteadyOf(k, k', arrivals[0].m.number + 1, arrivals[1..]);
    }
  }

  /** Genuine messages, with the numbers a sender hands out. */
  predicate Emitted(arrivals: seq<Arrival>, base: Key, keyId: nat, group: nat) {
    forall i :: 0 <= i < |arrivals| ==> Genuine(arrivals[i].m, base, keyId, group) && arrivals[i].m.number <= ROTATE_AFTER
  }

  /** Every message of a delivery order opens to its plaintext if and only if the order is steady. */
  lemma {:induction false} AllOpenExactly(k: SenderKey, base: Key, arrivals: seq<Arrival>, group: nat)
    requires InSync(k, base, k.keyId) && Emitted(arrivals, base, k.keyId, group) && k.number <= ROTATE_AFTER + 1
    ensures AllOpen(Results(k, arrivals, group), arrivals) <==> Steady(k, k.number, arrivals)
    decreases |arrivals|
  {
    if arrivals != [] {
      var m, now := arrivals[0].m, arrivals[0].now;
      var r := Receive(k, m, group, now);
      AllOpenCons(r.result, Results(r.sender, arrivals[1..], group), arrivals);
      if IsExpired(k, now) {
        ExpiredRefuses(k, m, group, now);
      } else {
        ReceiveExact(k, base, m, group, now);
        if r.result.Ok? {
          AllOpenExactly(r.sender, base, arrivals[1..], group);
          SteadyOf(k, r.sender, m.number + 1, arrivals[1..]);
        }
      }
    }
  }

  lemma ReplayRefused(k: SenderKey, base: Key, m: Message, group: nat, now: nat, again: nat)
    requires InSync(k, base, m.keyId) && Genuine(m, base, m.keyId, group) && !IsExpired(k, now) && !IsExpired(k, again)
    requires k.number <= m.number <= ROTATE_AFTER && m.number <= k.number + MAX_SKIP
    ensures var r1 := Receive(k, m, group, now);
            var r2 := Receive(r1.sender, m, group, again);
            && r1.result == Ok(m.box.plaintext) && r2.result.Err?
            && InSync(r2.sender, base, m.keyId) && r2.sender.expiration == k.expiration && r2.sender.number == m.number + 2
  {
    ReceiveExact(k, base, m, group, now);
    ReceiveExact(Receive(k, m, group, now).sender, base, m, group, again);
  }

  /** A replayed message is refused, and the next one is then lost. */
  lemma ReplayLosesNext(k: SenderKey, base: Key, m: Message, next: Message, group: nat, now: nat, again: nat, later: nat)
    requires InSync(k, base, m.keyId) && Genuine(m, base, m.keyId, group) && Genuine(next, base, m.keyId, group)
    requires !IsExpired(k, now) && !IsExpired(k, again) && !IsExpired(k, later)
    requires k.number <= m.number < ROTATE_AFTER && m.number <= k.number + MAX_SKIP && next.number == m.number + 1
    ensures var r1 := Receive(k, m, group, now);
            var r2 := Receive(r1.sender, m, group, again);
            && r1.result.Ok? && r2.result.Err? && Receive(r2.sender, next, group, later).result.Err?
  {
    ReplayRefused(k, base, m, group, now, again);
    ReceiveExact(Receive(Receive(k, m, group, now).sender, m, group, again).sender, base, next, group, later);
  }

  // ---------------------------------------------------------------- one sender as a receiver sees it

  datatype ReceiverEvent = Attempt(m: Message, now: nat) | Import(key: SenderKey, now: nat)

  function Imported(k: Option<SenderKey>, key: SenderKey, now: nat): Option<SenderKey> {
    if IsExpired(key, now) || (k.Some? && key.keyId <= k.value.keyId) then k else Some(key)
  }

  function ReceiverStep(k: Option<SenderKey>, ev: ReceiverEvent, group: nat): Option<SenderKey> {
    match ev
    case Attempt(m, now) => if k.None? then None else Some(Receive(k.value, m, group, now).sender)
    case Import(key, now) => Imported(k, key, now)
  }

  function ReceiverRun(k: Option<SenderKey>, evs: seq<ReceiverEvent>, group: nat): Option<SenderKey>
    decreases |evs|
  {
    if evs == [] then k else ReceiverStep(ReceiverRun(k, evs[..|evs| - 1], group), evs[|evs| - 1], group)
  }

  predicate AcceptedAt(k: Option<SenderKey>, evs: seq<ReceiverEvent>, group: nat, i: nat)
    requires i < |evs|
  {
    var at := ReceiverRun(k, evs[..i], group);
    evs[i].Attempt? && at.Some? && Receive(at.value, evs[i].m, group, evs[i].now).result.Ok?
  }

  /** On the sender's chain, or past the last 32-bit number, where nothing opens any more. */
  predicate OnChain(k: SenderKey, bases: nat -> Key) {
    k.number < U32 && (k.chain == GroupChainAt(bases(k.keyId), k.number) || k.number == U32 - 1)
  }

  /** Imports are copies of the sender's keys and messages are what the sender sealed under them. */
  predicate HonestEvent(ev: ReceiverEvent, bases: nat -> Key, group: nat) {
    match ev
    case Attempt(m, _) => m.number < U32 && Genuine(m, bases(m.keyId), m.keyId, group)
    case Import(key, _) => OnChain(key, bases)
  }

  ghost predicate Honest(evs: seq<ReceiverEvent>, bases: nat -> Key, group: nat) {
    forall i :: 0 <= i < |evs| ==> HonestEvent(evs[i], bases, group)
  }

  lemma {:induction false} AdvanceKeeps(k: SenderKey, bases: nat -> Key, target: nat, now: nat)
    requires OnChain(k, bases) && target < U32
    ensures var r := AdvanceTo(k, target, now);
            && OnChain(r.sender, bases) && r.sender.keyId == k.keyId && k.number <= r.sender.number
            && (r.result.Ok? ==> r.sender.number == Max(k.number, target))
    decreases target - k.number
  {
    if k.number < target && NextMessageKey(k, now).result.Ok? {
      AdvanceKeeps(NextMessageKey(k, now).sender, bases, target, now);
    }
  }

  lemma OpensAt(k: SenderKey, bases: nat -> Key, m: Message, now: nat)
    requires OnChain(k, bases) && NextMessageKey(k, now).result == Ok(m.box.key)
    requires m.box.key == GroupMessageKey(GroupChainAt(bases(k.keyId), m.number))
    ensures m.number == k.number
  {
    GroupChainInjective(bases(k.keyId), k.number, m.number);
  }

  lemma ReceiveKeeps(k: SenderKey, bases: nat -> Key, m: Message, group: nat, now: nat)
    requires OnChain(k, bases) && m.number < U32 && Genuine(m, bases(m.keyId), m.keyId, group)
    ensures var r := Receive(k, m, group, now);
            && OnChain(r.sender, bases) && r.sender.keyId == k.keyId && k.number <= r.sender.number
            && (r.result.Ok? ==> m.keyId == k.keyId && k.number <= m.number && r.sender.number == m.number + 1)
  {
    AdvanceKeeps(k, bases, m.number, now);
    var reached := AdvanceTo(k, m.number, now);
    if reached.result.Ok? && Receive(k, m, group, now).result.Ok? {
      OpensAt(reached.sender, bases, m, now);
    }
  }

  lemma ReceiverUnfolds(k: Option<SenderKey>, evs: seq<ReceiverEvent>, group: nat, i: nat)
    requires 0 < i <= |evs|
    ensures ReceiverRun(k, evs[..i], group) == ReceiverStep(ReceiverRun(k, evs[..i - 1], group), evs[i - 1], group)
  {
    assert evs[..i][..i - 1] == evs[..i - 1];
  }

  lemma {:induction false} RunOnChain(evs: seq<ReceiverEvent>, bases: nat -> Key, group: nat, i: nat)
    requires Honest(evs, bases, group) && i <= |evs|
    ensures var k := ReceiverRun(None, evs[..i], group); k.Some? ==> OnChain(k.value, bases)
    decreases i
  {
    if i > 0 {
      RunOnChain(evs, bases, group, i - 1);
      ReceiverUnfolds(None, evs, group, i);
      var k := ReceiverRun(None, evs[..i - 1], group);
      if evs[i - 1].Attempt? && k.Some? {
        ReceiveKeeps(k.value, bases, evs[i - 1].m, group, evs[i - 1].now);
      }
    }
  }

  lemma StepNotPast(k: SenderKey, bases: nat -> Key, ev: ReceiverEvent, group: nat, keyId: nat, number: nat)
    requires OnChain(k, bases) && NotPast(keyId, number, k) && HonestEvent(ev, bases, group)
    ensures var k' := ReceiverStep(Some(k), ev, group); k'.Some? && NotPast(keyId, number, k'.value)
  {
    if ev.Attempt? {
      ReceiveKeeps(k, bases, ev.m, group, ev.now);
    }
  }

  lemma AcceptedMoves(k: SenderKey, bases: nat -> Key, ev: ReceiverEvent, group: nat)
    requires OnChain(k, bases) && ev.Attempt? && HonestEvent(ev, bases, group)
    requires Receive(k, ev.m, group, ev.now).result.Ok?
    ensures var k' := ReceiverStep(Some(k), ev, group); k'.Some? && NotPast(ev.m.keyId, ev.m.number + 1, k'.value)
  {
    ReceiveKeeps(k, bases, ev.m, group, ev.now);
  }

  lemma AcceptedNext(evs: seq<ReceiverEvent>, bases: nat -> Key, group: nat, i: nat)
    requires Honest(evs, bases, group) && i < |evs| && AcceptedAt(None, evs, group, i)
    ensures var k := ReceiverRun(None, evs[..i + 1], group);
            k.Some? && NotPast(evs[i].m.keyId, evs[i].m.number + 1, k.value)
  {
    ReceiverUnfolds(None, evs, group, i + 1);
    RunOnChain(evs, bases, group, i);
    AcceptedMoves(ReceiverRun(None, evs[..i], group).value, bases, evs[i], group);
  }

  lemma {:induction false} StaysBehind(evs: seq<ReceiverEvent>, bases: nat -> Key, group: nat, i: nat, j: nat, keyId: nat, number: nat)
    requires Honest(evs, bases, group) && i <= j <= |evs|
    requires var k := ReceiverRun(None, evs[..i], group); k.Some? && NotPast(keyId, number, k.value)
    ensures var k := ReceiverRun(None, evs[..j], group); k.Some? && NotPast(keyId, number, k.value)
    decreases j
  {
    if i < j {
      StaysBehind(evs, bases, group, i, j - 1, keyId, number);
      RunOnChain(evs, bases, group, j - 1);
      var k := ReceiverRun(None, evs[..j - 1], group);
      StepNotPast(k.value, bases, evs[j - 1], group, keyId, number);
      var k' := ReceiverStep(k, evs[j - 1], group);
      assert ReceiverRun(None, evs[..j], group) == k' by {
        ReceiverUnfolds(None, evs, group, j);
      }
    }
  }

  /**
    Over every run of attempts and key imports, in any order and with any replays, the
    accepted (key id, number) pairs of a sender strictly increase.
    */
  lemma AcceptedIncrease(evs: seq<ReceiverEvent>, bases: nat -> Key, group: nat, i: nat, j: nat)
    requires Honest(evs, bases, group) && i < j < |evs|
    requires AcceptedAt(None, evs, group, i) && AcceptedAt(None, evs, group, j)
    ensures var a, b := evs[i].m, evs[j].m; a.keyId < b.keyId || (a.keyId == b.keyId && a.number < b.number)
  {
    AcceptedNext(evs, bases, group, i);
    StaysBehind(evs, bases, group, i + 1, j, evs[i].m.keyId, evs[i].m.number + 1);
    RunOnChain(evs, bases, group, j);
    ReceiveKeeps(ReceiverRun(None, evs[..j], group).value, bases, evs[j].m, group, evs[j].now);
  }

  // ---------------------------------------------------------------- end to end

  /** The message a session sends with its ready key; without a signing key it goes unsigned. */
  function Sealed(k: SenderKey, signer: Option<Member>, group: nat, epoch: nat, plaintext: Bytes, now: nat): Message {
    var content := Content(group, k.keyId, k.number, Box(GroupMessageKey(k.chain), group, plaintext), epoch, now);
    Message(content, if signer.Some? then Signed(signer.value, content) else Missing)
  }

  datatype Opened = Opened(keys: map<Member, SenderKey>, result: Result<Bytes>)

  /** What a session with these keys makes of a message that claims to be from `sender`. */
  function Open(keys: map<Member, SenderKey>, group: nat, epoch: nat, sender: Member, m: Message, now: nat): Opened {
    match Validate(m, now)
    case Some(error) => Opened(keys, Err(error))
    case None =>
      if m.group != group || m.content.epoch < epoch then Opened(keys, Err(InvalidMessage))
      else if m.signature != Signed(sender, m.content) then Opened(keys, Err(AuthenticationFailed))
      else if sender !in keys then Opened(keys, Err(KeyNotFound))
      else
        var Received(k, result) := Receive(keys[sender], m, group, now);
        Opened(keys[sender := k], result)
  }

  /**
    End to end: what a signing member sends is read as its plaintext by a session of the
    same group if and only if that session has the member's key of the same id, not expired
    and 0 to 500 messages behind, is in no later epoch, and its clock is at most 300 seconds
    behind and a day ahead of the sender's.
    */
  lemma SentIsReadExactly(k: SenderKey, base: Key, me: Member, group: nat, epoch: nat, plaintext: Bytes, now: nat,
                          keys: map<Member, SenderKey>, epoch': nat, later: nat)
    requires k.chain == GroupChainAt(base, k.number) && |plaintext| <= MAX_MESSAGE
    requires me in keys && keys[me].keyId == k.keyId ==> InSync(keys[me], base, k.keyId)
    ensures var r := Open(keys, group, epoch', me, Sealed(k, Some(me), group, epoch, plaintext, now), later).result;
            && (r == Ok(plaintext) <==> r.Ok?)
            && (r.Ok? <==>
                  && epoch' <= epoch && now <= later + 300 && later <= now + 86400
                  && me in keys && keys[me].keyId == k.keyId
                  && (keys[me].expiration.Some? ==> later <= keys[me].expiration.value)
                  && keys[me].number <= k.number <= keys[me].number + 500)
  {
    var m := Sealed(k, Some(me), group, epoch, plaintext, now);
    assert Validate(m, later).None? <==> now <= later + 300 && later <= now + 86400;
    if me in keys && keys[me].keyId == k.keyId {
      if IsExpired(keys[me], later) {
        ExpiredRefuses(keys[me], m, group, later);
      } else {
        ReceiveExact(keys[me], base, m, group, later);
      }
    }
  }

  /** Only what the member signed is read from them: any change to a signed message, and any unsigned one, is refused. */
  lemma OnlySignedIsRead(keys: map<Member, SenderKey>, group: nat, epoch: nat, sender: Member, m: Message, now: nat)
    requires m.signature.Missing? || m.signature.content != m.content || m.signature.signer != sender
    ensures Open(keys, group, epoch, sender, m, now).result.Err? && Open(keys, group, epoch, sender, m, now).keys == keys
  {
  }

  // ---------------------------------------------------------------- the session

  class GroupSession {
    const groupId: nat
    const maxSize: nat
    const signer: Option<Member>
    var ourSenderKey: Option<SenderKey>
    var senderKeys: map<Member, SenderKey>
    var members: seq<Member>
    var epoch: nat

    /** No member twice, and no more than the group may hold. */
    ghost predicate Valid()
      reads this
    {
      |members| <= maxSize && forall i, j :: 0 <= i < j < |members| ==> members[i] != members[j]
    }

    constructor (groupId: nat, maxSize: nat, signer: Option<Member>)
      ensures Valid() && ourSenderKey == None && senderKeys == map[] && members == [] && epoch == 0
      ensures this.groupId == groupId && this.signer == signer && this.maxSize == if maxSize < MAX_GROUP_SIZE then maxSize else MAX_GROUP_SIZE
    {
      this.groupId := groupId;
      this.maxSize := if maxSize < MAX_GROUP_SIZE then maxSize else MAX_GROUP_SIZE;
      this.signer := signer;
      ourSenderKey := None;
      senderKeys := map[];
      members := [];
      epoch := 0;
    }

    method InitializeSenderKey(random: nat, now: nat)
      modifies this`ourSenderKey
      ensures ourSenderKey == Some(NewKey(1, random, now))
    {
      ourSenderKey := Some(NewKey(1, random, now));
    }

    method AddMember(member: Member) returns (r: Option<ProtocolError>)
      requires Valid()
      modifies this`members, this`epoch
      ensures Valid()
      ensures r.None? <==> |old(members)| < maxSize && member !in old(members)
      ensures if r.None? then members == old(members) + [member] && epoch == old(epoch) + 1
              else r == Some(InvalidArgument) && members == old(members) && epoch == old(epoch)
    {
      if |members| >= maxSize || member in members {
        return Some(InvalidArgument);
      }
      members := members + [member];
      epoch := epoch + 1;
      r := None;
    }

    /** The member, their key and our old chain all go; the epoch moves on even if they were not in it. */
    method RemoveMember(member: Member, random: nat, now: nat)
      requires Valid()
      modifies this
      ensures Valid() && member !in members && member !in senderKeys && epoch == old(epoch) + 1
      ensures forall x :: x in members <==> x in old(members) && x != member
      ensures senderKeys == old(senderKeys) - {member}
      ensures old(ourSenderKey).Some? ==> ourSenderKey == Some(SenderStep(old(ourSenderKey).value, Removed(random, now)))
      ensures old(ourSenderKey).None? ==> ourSenderKey == None
    {
      var kept: seq<Member> := [];
      for i := 0 to |members|
        invariant members == old(members) && |kept| <= i
        invariant forall x :: x in kept <==> x in members[..i] && x != member
        invariant forall a, b :: 0 <= a < b < |kept| ==> kept[a] != kept[b]
      {
        if members[i] != member {
          assert members[i] !in members[..i];
          kept := kept + [members[i]];
        }
      }
      members := kept;
      senderKeys := senderKeys - {member};
      epoch := epoch + 1;
      if ourSenderKey.Some? {
        ourSenderKey := Some(Rotate(ourSenderKey.value, random, now));
      }
    }

    method Encrypt(plaintext: Bytes, random: nat, now: nat) returns (r: Result<Message>)
      modifies this`ourSenderKey
      ensures |plaintext| > MAX_MESSAGE ==> r == Err(InvalidArgument) && ourSenderKey == old(ourSenderKey)
      ensures |plaintext| <= MAX_MESSAGE && old(ourSenderKey).None? ==> r == Err(InvalidState) && ourSenderKey == None
      ensures |plaintext| <= MAX_MESSAGE && old(ourSenderKey).Some? ==>
                && ourSenderKey == Some(SenderStep(old(ourSenderKey).value, Send(random, now)))
                && r == Ok(Sealed(old(Ready(ourSenderKey.value, random, now)), signer, groupId, epoch, plaintext, now))
                && r.value.number <= ROTATE_AFTER
    {
      if |plaintext| > MAX_MESSAGE {
        return Err(InvalidArgument);
      }
      if ourSenderKey.None? {
        return Err(InvalidState);
      }
      var key := ourSenderKey.value;
      if key.number > ROTATE_AFTER || IsExpired(key, now) {
        key := Rotate(key, random, now);
      }
      var step := NextMessageKey(key, now);
      ourSenderKey := Some(step.sender);
      assert step.result.Ok?;
      var content := Content(groupId, step.sender.keyId, step.sender.number - 1, Box(step.result.value, groupId, plaintext),
                             epoch, now);
      r := Ok(Message(content, if signer.Some? then Signed(signer.value, content) else Missing));
    }

    /** The chain is run forward in place: also a failed decrypt leaves the sender's key where it got to. */
    method DecryptWith(sender: Member, m: Message, now: nat) returns (r: Result<Bytes>)
      requires sender in senderKeys
      modifies this`senderKeys
      ensures var x := Receive(old(senderKeys)[sender], m, groupId, now);
              r == x.result && senderKeys == old(senderKeys)[sender := x.sender]
    {
      var key := senderKeys[sender];
      if key.keyId != m.keyId {
        return Err(InvalidMessage);
      }
      if m.number > (key.number + MAX_SKIP) % U32 {
        return Err(MaxSkippedMessagesExceeded);
      }
      while key.number < m.number
        invariant AdvanceTo(key, m.number, now) == AdvanceTo(old(senderKeys)[sender], m.number, now)
        decreases m.number - key.number
      {
        var step := NextMessageKey(key, now);
        key := step.sender;
        if step.result.Err? {
          senderKeys := senderKeys[sender := key];
          return Err(step.result.error);
        }
      }
      var last := NextMessageKey(key, now);
      senderKeys := senderKeys[sender := last.sender];
      if last.result.Err? {
        return Err(last.result.error);
      }
      r := if m.box.key == last.result.value && m.box.group == groupId then Ok(m.box.plaintext) else Err(AuthenticationFailed);
    }

    /** Nothing is touched before the message is valid, for this group and epoch, signed and from a known sender. */
    method Decrypt(sender: Member, m: Message, now: nat) returns (r: Result<Bytes>)
      modifies this`senderKeys
      ensures Opened(senderKeys, r) == Open(old(senderKeys), groupId, epoch, sender, m, now)
    {
      var error := Validate(m, now);
      if error.Some? {
        return Err(error.value);
      }
      if m.group != groupId || m.content.epoch < epoch {
        return Err(InvalidMessage);
      }
      if m.signature != Signed(sender, m.content) {
        return Err(AuthenticationFailed);
      }
      if sender !in senderKeys {
        return Err(KeyNotFound);
      }
      r := DecryptWith(sender, m, now);
    }

    method ImportSenderKey(sender: Member, key: SenderKey, now: nat) returns (r: Option<ProtocolError>)
      modifies this`senderKeys
      ensures var was := if sender in old(senderKeys) then Some(old(senderKeys)[sender]) else None;
              && (sender in senderKeys <==> Imported(was, key, now).Some?)
              && (sender in senderKeys ==> senderKeys[sender] == Imported(was, key, now).value)
              && (r.None? <==> !IsExpired(key, now) && (was.Some? ==> key.keyId > was.value.keyId))
      ensures senderKeys - {sender} == old(senderKeys) - {sender}
    {
      if IsExpired(key, now) {
        return Some(ProtocolError.Expired);
      }
      if sender in senderKeys && key.keyId <= senderKeys[sender].keyId {
        return Some(InvalidArgument);
      }
      senderKeys := senderKeys[sender := key];
      r := None;
    }
  }
}

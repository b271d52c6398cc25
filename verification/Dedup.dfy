/**
  Message-id deduplication: a table of insertion stamps, checked and refreshed when a
  message is routed and pruned in the background. A check reads the clock twice. The runs
  below take it as one step; module `DedupRaces` opens it into its transactions.
  */
module Dedup {
  import opened Wrappers
  import opened Table

  const WINDOW: int := 48 * 3600

  /** A stored value: an 8-byte stamp, or an entry of another length left by older servers. */
  datatype Value = Stamp(at: int) | Legacy

  type Stamps = map<Bytes, Value>

  function DedupKey(id: Bytes): Bytes { [0x64, 0x65, 0x64, 0x75, 0x70, 0x3A] + id }

  lemma DedupKeyInjective(a: Bytes, b: Bytes)
    ensures DedupKey(a) == DedupKey(b) <==> a == b
  {
    assert DedupKey(a)[6..] == a && DedupKey(b)[6..] == b;
  }

  predicate OutOfWindow(v: Value, now: int) { v.Legacy? || v.at < now - WINDOW }

  predicate Passes(d: Stamps, key: Bytes, now: int) { key !in d || OutOfWindow(d[key], now) }

  function Checked(d: Stamps, key: Bytes, now: int, later: int): Stamps {
    if Passes(d, key, now) then d[key := Stamp(later)] else d
  }

  /** The pruning task leaves legacy entries alone. */
  predicate Prunable(v: Value, now: int) { v.Stamp? && v.at < now - WINDOW }

  function Pruned(d: Stamps, now: int): Stamps { map k | k in d && !Prunable(d[k], now) :: d[k] }

  /** What blocks an id: an 8-byte stamp at most 48 hours old. An entry of another length never does. */
  lemma BlockedExactly(d: Stamps, key: Bytes, now: int)
    ensures !Passes(d, key, now) <==> key in d && d[key].Stamp? && now - d[key].at <= 172_800
  {
  }

  // ---------------------------------------------------------------- runs

  datatype Event = Check(key: Bytes, now: int, later: int) | Prune(now: int)

  function Last(ev: Event): int { if ev.Check? then ev.later else ev.now }

  predicate ClockRuns(evs: seq<Event>) {
    && (forall i :: 0 <= i < |evs| ==> evs[i].now <= Last(evs[i]))
    && (forall i, j :: 0 <= i < j < |evs| ==> Last(evs[i]) <= evs[j].now)
  }

  function Step(d: Stamps, ev: Event): Stamps {
    match ev
    case Check(key, now, later) => Checked(d, key, now, later)
    case Prune(now) => Pruned(d, now)
  }

  function Run(d: Stamps, evs: seq<Event>): Stamps
    decreases |evs|
  {
    if evs == [] then d else Step(Run(d, evs[..|evs| - 1]), evs[|evs| - 1])
  }

  predicate PassAt(d: Stamps, evs: seq<Event>, i: nat)
    requires i < |evs|
  {
    evs[i].Check? && Passes(Run(d, evs[..i]), evs[i].key, evs[i].now)
  }

  lemma RunUnfolds(d: Stamps, evs: seq<Event>, k: nat)
    requires 0 < k <= |evs|
    ensures Run(d, evs[..k]) == Step(Run(d, evs[..k - 1]), evs[k - 1])
  {
    assert evs[..k][..k - 1] == evs[..k - 1];
  }

  /** After a pass the id is stamped no earlier, or was pruned when that stamp had left the window. */
  ghost predicate StampedOrGone(d: Stamps, key: Bytes, since: int, clock: int) {
    if key in d then d[key].Stamp? && d[key].at >= since else clock > since + WINDOW
  }

  lemma StampStep(d: Stamps, ev: Event, key: Bytes, since: int, clock: int)
    requires StampedOrGone(d, key, since, clock) && since <= clock <= ev.now <= Last(ev)
    ensures StampedOrGone(Step(d, ev), key, since, Last(ev))
  {
  }

  lemma {:induction false} StampLasts(d: Stamps, evs: seq<Event>, i: nat, k: nat)
    requires ClockRuns(evs) && i < k <= |evs| && PassAt(d, evs, i)
    ensures StampedOrGone(Run(d, evs[..k]), evs[i].key, evs[i].later, Last(evs[k - 1]))
    decreases k
  {
    RunUnfolds(d, evs, k);
    if i < k - 1 {
      StampLasts(d, evs, i, k - 1);
      StampStep(Run(d, evs[..k - 1]), evs[k - 1], evs[i].key, evs[i].later, Last(evs[k - 2]));
    }
  }

  /** Two passes of one id are more than 48 hours apart, with prune passes anywhere between. */
  lemma PassesApart(d: Stamps, evs: seq<Event>, i: nat, j: nat)
    requires ClockRuns(evs) && i < j < |evs| && PassAt(d, evs, i) && PassAt(d, evs, j) && evs[i].key == evs[j].key
    ensures evs[j].now - evs[i].later > 172_800
  {
    StampLasts(d, evs, i, j);
  }

  /** From an empty table every entry is the stamp of a pass. */
  lemma {:induction false} EntryIsPass(evs: seq<Event>, k: nat, key: Bytes) returns (i: nat)
    requires k <= |evs| && key in Run(map[], evs[..k])
    ensures i < k && PassAt(map[], evs, i) && evs[i].key == key && Run(map[], evs[..k])[key] == Stamp(evs[i].later)
    decreases k
  {
    RunUnfolds(map[], evs, k);
    if PassAt(map[], evs, k - 1) && evs[k - 1].key == key {
      i := k - 1;
    } else {
      i := EntryIsPass(evs, k - 1, key);
    }
  }

  /** Id `key` passed at `i` and is still within the window of the check at `j`. */
  predicate Blocks(evs: seq<Event>, i: nat, j: nat)
    requires i < j < |evs| && evs[j].Check?
  {
    PassAt(map[], evs, i) && evs[i].key == evs[j].key && evs[j].now - evs[i].later <= 172_800
  }

  /**
    Starting from an empty table, a check passes if and only if no pass of the same id lies
    within the last 48 hours.
    */
  lemma PassExactly(evs: seq<Event>, j: nat)
    requires ClockRuns(evs) && j < |evs| && evs[j].Check?
    ensures PassAt(map[], evs, j) <==> !exists i: nat :: i < j && Blocks(evs, i, j)
  {
    if PassAt(map[], evs, j) {
      forall i: nat | i < j ensures !Blocks(evs, i, j) {
        if PassAt(map[], evs, i) && evs[i].key == evs[j].key {
          PassesApart(map[], evs, i, j);
        }
      }
    } else {
      var i := EntryIsPass(evs, j, evs[j].key);
      assert Blocks(evs, i, j);
    }
  }

  // ---------------------------------------------------------------- prune passes change no result

  /** The outcome of every check, in order. */
  function Results(d: Stamps, evs: seq<Event>): seq<bool>
    decreases |evs|
  {
    if evs == [] then []
    else
      var rest := Results(Step(d, evs[0]), evs[1..]);
      if evs[0].Check? then [Passes(d, evs[0].key, evs[0].now)] + rest else rest
  }

  function Checks(evs: seq<Event>): seq<Event> {
    if evs == [] then [] else if evs[0].Check? then [evs[0]] + Checks(evs[1..]) else Checks(evs[1..])
  }

  /** `less` lacks only entries of `full` that have left the window. */
  ghost predicate Covers(full: Stamps, less: Stamps, clock: int) {
    && (forall k :: k in less ==> k in full && full[k] == less[k])
    && (forall k :: k in full && k !in less ==> Prunable(full[k], clock))
  }

  lemma CoversCheck(full: Stamps, less: Stamps, clock: int, ev: Event)
    requires Covers(full, less, clock) && clock <= ev.now && ev.Check?
    ensures Passes(full, ev.key, ev.now) == Passes(less, ev.key, ev.now)
    ensures Covers(Step(full, ev), Step(less, ev), ev.now)
  {
  }

  lemma CoversPrune(full: Stamps, less: Stamps, clock: int, now: int)
    requires Covers(full, less, clock) && clock <= now
    ensures Covers(full, Pruned(less, now), now)
  {
  }

  lemma {:induction false} ChecksDecide(full: Stamps, less: Stamps, clock: int, evs: seq<Event>)
    requires Covers(full, less, clock) && ClockRuns(evs) && (evs != [] ==> clock <= evs[0].now)
    ensures Results(less, evs) == Results(full, Checks(evs))
    decreases |evs|
  {
    if evs != [] {
      var ev, rest := evs[0], evs[1..];
      if ev.Check? {
        CoversCheck(full, less, clock, ev);
        ChecksDecide(Step(full, ev), Step(less, ev), ev.now, rest);
        assert Checks(evs)[1..] == Checks(rest);
      } else {
        CoversPrune(full, less, clock, ev.now);
        ChecksDecide(full, Step(less, ev), ev.now, rest);
      }
    }
  }

  /**
    Adding, removing or moving prune passes changes no outcome: runs with the same checks
    have the same results.
    */
  lemma PrunesIrrelevant(d: Stamps, evs: seq<Event>, evs': seq<Event>)
    requires ClockRuns(evs) && ClockRuns(evs') && Checks(evs) == Checks(evs')
    ensures Results(d, evs) == Results(d, evs')
  {
    if evs != [] {
      ChecksDecide(d, d, evs[0].now, evs);
    }
    if evs' != [] {
      ChecksDecide(d, d, evs'[0].now, evs');
    }
  }

  /** A prune pass forgets exactly the stamps over 48 hours old: entries of other lengths stay. */
  lemma PruneLeaves(d: Stamps, evs: seq<Event>, now: int, key: Bytes)
    ensures var after := Run(d, evs + [Prune(now)]);
            && (key in after <==> key in Run(d, evs) && !(Run(d, evs)[key].Stamp? && Run(d, evs)[key].at + 172_800 < now))
            && (key in after ==> after[key] == Run(d, evs)[key])
  {
    assert (evs + [Prune(now)])[..|evs|] == evs;
  }

  // ---------------------------------------------------------------- the two phases of a prune pass

  function Collected(d: Stamps, now: int): set<Bytes> { set k | k in d && Prunable(d[k], now) }

  lemma TwoPhases(d: Stamps, now: int)
    ensures d - Collected(d, now) == Pruned(d, now)
  {
  }

  ghost predicate AllChecks(evs: seq<Event>) { forall i :: 0 <= i < |evs| ==> evs[i].Check? }

  lemma {:induction false} CheckedKeyPresent(d: Stamps, evs: seq<Event>, i: nat)
    requires AllChecks(evs) && i < |evs|
    ensures evs[i].key in Run(d, evs)
    decreases |evs|
  {
    if i < |evs| - 1 {
      CheckedKeyPresent(d, evs[..|evs| - 1], i);
    }
  }

  lemma {:induction false} RemovalCommutes(d: Stamps, evs: seq<Event>, keys: set<Bytes>)
    requires AllChecks(evs) && forall i :: 0 <= i < |evs| ==> evs[i].key !in keys
    ensures Run(d, evs) - keys == Run(d - keys, evs)
    decreases |evs|
  {
    if evs != [] {
      RemovalCommutes(d, evs[..|evs| - 1], keys);
    }
  }

  /**
    The pruning loop collects keys first and removes them later. What happens in between is as if
    the pass had been atomic if and only if none of the collected ids was checked meanwhile;
    an id that was loses the stamp it had just been given.
    */
  lemma PhasesCommuteExactly(d: Stamps, evs: seq<Event>, now: int)
    requires AllChecks(evs)
    ensures Run(d, evs) - Collected(d, now) == Run(Pruned(d, now), evs) <==>
              forall i :: 0 <= i < |evs| ==> evs[i].key !in Collected(d, now)
  {
    var keys := Collected(d, now);
    TwoPhases(d, now);
    if forall i :: 0 <= i < |evs| ==> evs[i].key !in keys {
      RemovalCommutes(d, evs, keys);
    } else {
      var i :| 0 <= i < |evs| && evs[i].key in keys;
      CheckedKeyPresent(Pruned(d, now), evs, i);
    }
  }

  /** An id checked between the two phases is accepted again at once. */
  lemma RacedIdPassesAgain(d: Stamps, key: Bytes, scanned: int, now: int, later: int, again: int)
    requires key in Collected(d, scanned)
    ensures Passes(Checked(d, key, now, later) - Collected(d, scanned), key, again)
  {
  }

  // ---------------------------------------------------------------- the object

  class DedupTable {
    const tree: Tree<Value>

    ghost predicate Valid()
      reads this, tree
    {
      tree.Valid()
    }

    function State(): Stamps
      reads this, tree
    {
      View(tree.entries)
    }

    constructor ()
      ensures Valid() && fresh(tree) && State() == map[]
    {
      tree := new Tree();
    }

    method CheckAndInsert(id: Bytes, now: int, later: int) returns (pass: bool)
      requires Valid()
      modifies tree
      ensures Valid() && pass == Passes(old(State()), DedupKey(id), now)
      ensures State() == Checked(old(State()), DedupKey(id), now, later)
    {
      var key := DedupKey(id);
      var existing := tree.Get(key);
      if existing.Some? {
        if !OutOfWindow(existing.value, now) {
          return false;
        }
        var _ := tree.Remove(key);
      }
      tree.Insert(key, Stamp(later));
      pass := true;
    }

    /** The keys a pass will delete, read from a snapshot. */
    method Collect(now: int) returns (toDelete: seq<Bytes>)
      requires Valid()
      ensures forall k :: k in toDelete <==> k in Collected(State(), now)
    {
      toDelete := [];
      var items := tree.entries;
      var i := 0;
      while i < |items|
        invariant 0 <= i <= |items|
        invariant forall k :: k in toDelete <==> exists j :: 0 <= j < i && items[j].key == k && Prunable(items[j].value, now)
      {
        if Prunable(items[i].value, now) {
          toDelete := toDelete + [items[i].key];
        }
        i := i + 1;
      }
      forall k
        ensures k in Collected(State(), now) <==> exists j :: 0 <= j < |items| && items[j].key == k && Prunable(items[j].value, now)
      {
        CollectedAt(items, now, k);
      }
    }

    method Prune(now: int)
      requires Valid()
      modifies tree
      ensures Valid() && State() == Pruned(old(State()), now)
    {
      var toDelete := Collect(now);
      var i := 0;
      ghost var gone: set<Bytes> := {};
      while i < |toDelete|
        invariant 0 <= i <= |toDelete| && Valid()
        invariant forall k :: k in gone <==> k in toDelete[..i]
        invariant State() == old(State()) - gone
      {
        var _ := tree.Remove(toDelete[i]);
        gone := gone + {toDelete[i]};
        assert toDelete[..i + 1] == toDelete[..i] + [toDelete[i]];
        i := i + 1;
      }
      assert toDelete[..i] == toDelete;
      assert gone == Collected(old(State()), now);
      TwoPhases(old(State()), now);
    }
  }

  lemma CollectedAt(items: seq<Entry<Value>>, now: int, k: Bytes)
    requires Sorted(items)
    ensures k in Collected(View(items), now) <==>
              exists j :: 0 <= j < |items| && items[j].key == k && Prunable(items[j].value, now)
  {
    ViewKeys(items, k);
    forall j | 0 <= j < |items| ensures items[j].key in View(items) && View(items)[items[j].key] == items[j].value {
      ViewAt(items, j);
    }
  }
}

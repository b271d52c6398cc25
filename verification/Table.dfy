/**
  An ordered byte-string table: entries in strictly increasing lexicographic key order,
  and the prefix scan that reads a range from the prefix and stops at the first mismatch.
  */
module Table {
  import opened Wrappers

  datatype Entry<V> = Entry(key: Bytes, value: V)

  // ---------------------------------------------------------------- key order

  predicate Less(a: Bytes, b: Bytes) {
    b != [] && (a == [] || a[0] < b[0] || (a[0] == b[0] && Less(a[1..], b[1..])))
  }

  predicate StartsWith(key: Bytes, prefix: Bytes) { prefix <= key }

  lemma {:induction false} LessIrreflexive(a: Bytes)
    ensures !Less(a, a)
  {
    if a != [] {
      LessIrreflexive(a[1..]);
    }
  }

  lemma {:induction false} LessTransitive(a: Bytes, b: Bytes, c: Bytes)
    requires Less(a, b) && Less(b, c)
    ensures Less(a, c)
  {
    if a != [] && a[0] == b[0] == c[0] {
      LessTransitive(a[1..], b[1..], c[1..]);
    }
  }

  lemma {:induction false} LessTotal(a: Bytes, b: Bytes)
    ensures Less(a, b) || Less(b, a) || a == b
  {
    if a != [] && b != [] && a[0] == b[0] {
      LessTotal(a[1..], b[1..]);
      assert a == [a[0]] + a[1..] && b == [b[0]] + b[1..];
    }
  }

  lemma {:induction false} PrefixNotLess(key: Bytes, prefix: Bytes)
    requires StartsWith(key, prefix)
    ensures !Less(key, prefix)
  {
    if prefix != [] && key != [] {
      PrefixNotLess(key[1..], prefix[1..]);
    }
  }

  /** Keys with a common prefix are contiguous: nothing between two of them lacks it. */
  lemma {:induction false} PrefixConvex(prefix: Bytes, middle: Bytes, high: Bytes)
    requires !Less(middle, prefix) && Less(middle, high) && StartsWith(high, prefix)
    ensures StartsWith(middle, prefix)
  {
    if prefix != [] {
      assert high[0] == prefix[0] && high[1..][..|prefix| - 1] == prefix[1..];
      assert middle != [] && middle[0] == prefix[0];
      PrefixConvex(prefix[1..], middle[1..], high[1..]);
      assert middle == [middle[0]] + middle[1..];
    }
  }

  // ---------------------------------------------------------------- tables

  ghost predicate Sorted<V>(t: seq<Entry<V>>) {
    forall i, j :: 0 <= i < j < |t| ==> Less(t[i].key, t[j].key)
  }

  function Put<V>(t: seq<Entry<V>>, key: Bytes, value: V): seq<Entry<V>> {
    if t == [] then [Entry(key, value)]
    else if Less(t[0].key, key) then [t[0]] + Put(t[1..], key, value)
    else if t[0].key == key then [Entry(key, value)] + t[1..]
    else [Entry(key, value)] + t
  }

  function Delete<V>(t: seq<Entry<V>>, key: Bytes): seq<Entry<V>> {
    if t == [] then []
    else if t[0].key == key then t[1..]
    else [t[0]] + Delete(t[1..], key)
  }

  /** What the table holds, without its order. */
  function View<V>(t: seq<Entry<V>>): map<Bytes, V> {
    if t == [] then map[] else View(t[1..])[t[0].key := t[0].value]
  }

  lemma SortedTail<V>(t: seq<Entry<V>>)
    requires Sorted(t) && t != []
    ensures Sorted(t[1..])
  {
  }

  lemma {:induction false} ViewKeys<V>(t: seq<Entry<V>>, key: Bytes)
    ensures key in View(t) <==> exists i :: 0 <= i < |t| && t[i].key == key
  {
    if t != [] {
      ViewKeys(t[1..], key);
      assert key in View(t) ==> t[0].key == key || key in View(t[1..]);
      if i :| 0 <= i < |t| && t[i].key == key {
        if i > 0 {
          assert t[1..][i - 1] == t[i];
        }
      }
    }
  }

  lemma HeadUnique<V>(t: seq<Entry<V>>)
    requires Sorted(t) && t != []
    ensures t[0].key !in View(t[1..])
  {
    ViewKeys(t[1..], t[0].key);
    LessIrreflexive(t[0].key);
  }

  lemma {:induction false} ViewAt<V>(t: seq<Entry<V>>, i: nat)
    requires Sorted(t) && i < |t|
    ensures t[i].key in View(t) && View(t)[t[i].key] == t[i].value
  {
    if i > 0 {
      SortedTail(t);
      ViewAt(t[1..], i - 1);
      LessIrreflexive(t[0].key);
    }
  }

  ghost predicate Above<V>(key: Bytes, t: seq<Entry<V>>) { forall e :: e in t ==> Less(key, e.key) }

  lemma HeadBelow<V>(t: seq<Entry<V>>)
    requires Sorted(t) && t != []
    ensures Above(t[0].key, t[1..])
  {
  }

  lemma SortedCons<V>(e: Entry<V>, t: seq<Entry<V>>)
    requires Sorted(t) && Above(e.key, t)
    ensures Sorted([e] + t)
  {
    forall i | 0 <= i < |t| ensures Less(e.key, t[i].key) {
      assert t[i] in t;
    }
  }

  lemma {:induction false} PutMembers<V>(t: seq<Entry<V>>, key: Bytes, value: V)
    ensures forall e :: e in Put(t, key, value) ==> e == Entry(key, value) || e in t
  {
    if t != [] && Less(t[0].key, key) {
      PutMembers(t[1..], key, value);
    }
  }

  lemma {:induction false} PutSorted<V>(t: seq<Entry<V>>, key: Bytes, value: V)
    requires Sorted(t)
    ensures Sorted(Put(t, key, value))
  {
    if t != [] {
      SortedTail(t);
      HeadBelow(t);
      if Less(t[0].key, key) {
        PutSorted(t[1..], key, value);
        PutMembers(t[1..], key, value);
        SortedCons(t[0], Put(t[1..], key, value));
      } else if t[0].key == key {
        SortedCons(Entry(key, value), t[1..]);
      } else {
        LessTotal(t[0].key, key);
        forall e | e in t ensures Less(key, e.key) {
          if e != t[0] {
            LessTransitive(key, t[0].key, e.key);
          }
        }
        SortedCons(Entry(key, value), t);
      }
    }
  }

  lemma {:induction false} PutView<V>(t: seq<Entry<V>>, key: Bytes, value: V)
    requires Sorted(t)
    ensures View(Put(t, key, value)) == View(t)[key := value]
  {
    if t != [] {
      SortedTail(t);
      if Less(t[0].key, key) {
        PutView(t[1..], key, value);
        assert Put(t, key, value)[1..] == Put(t[1..], key, value);
        LessIrreflexive(key);
      } else if t[0].key == key {
        assert Put(t, key, value)[1..] == t[1..];
      } else {
        assert Put(t, key, value)[1..] == t;
      }
    }
  }

  lemma {:induction false} DeleteMembers<V>(t: seq<Entry<V>>, key: Bytes)
    ensures forall e :: e in Delete(t, key) ==> e in t
  {
    if t != [] && t[0].key != key {
      DeleteMembers(t[1..], key);
    }
  }

  lemma {:induction false} DeleteSorted<V>(t: seq<Entry<V>>, key: Bytes)
    requires Sorted(t)
    ensures Sorted(Delete(t, key))
  {
    if t != [] {
      SortedTail(t);
      HeadBelow(t);
      if t[0].key != key {
        DeleteSorted(t[1..], key);
        DeleteMembers(t[1..], key);
        SortedCons(t[0], Delete(t[1..], key));
      }
    }
  }

  lemma {:induction false} DeleteView<V>(t: seq<Entry<V>>, key: Bytes)
    requires Sorted(t)
    ensures View(Delete(t, key)) == View(t) - {key}
  {
    if t != [] {
      SortedTail(t);
      HeadUnique(t);
      if t[0].key != key {
        DeleteView(t[1..], key);
        assert Delete(t, key)[1..] == Delete(t[1..], key);
      }
    }
  }

  // ---------------------------------------------------------------- prefix scan

  /** The open-ended range that starts at `low`. */
  function RangeFrom<V>(t: seq<Entry<V>>, low: Bytes): seq<Entry<V>> {
    if t == [] then [] else if Less(t[0].key, low) then RangeFrom(t[1..], low) else t
  }

  function TakeWhilePrefix<V>(t: seq<Entry<V>>, prefix: Bytes): seq<Entry<V>> {
    if t == [] || !StartsWith(t[0].key, prefix) then [] else [t[0]] + TakeWhilePrefix(t[1..], prefix)
  }

  function ScanPrefix<V>(t: seq<Entry<V>>, prefix: Bytes): seq<Entry<V>> {
    TakeWhilePrefix(RangeFrom(t, prefix), prefix)
  }

  /** The reference: every entry whose key starts with the prefix, in table order. */
  function Matching<V>(t: seq<Entry<V>>, prefix: Bytes): seq<Entry<V>> {
    if t == [] then []
    else (if StartsWith(t[0].key, prefix) then [t[0]] else []) + Matching(t[1..], prefix)
  }

  lemma {:induction false} NoneMatching<V>(t: seq<Entry<V>>, prefix: Bytes)
    requires forall i :: 0 <= i < |t| ==> !StartsWith(t[i].key, prefix)
    ensures Matching(t, prefix) == []
  {
    if t != [] {
      NoneMatching(t[1..], prefix);
    }
  }

  /** In a range that starts at the prefix, stopping early loses nothing. */
  lemma {:induction false} TakeIsAll<V>(t: seq<Entry<V>>, prefix: Bytes)
    requires Sorted(t) && forall i :: 0 <= i < |t| ==> !Less(t[i].key, prefix)
    ensures TakeWhilePrefix(t, prefix) == Matching(t, prefix)
  {
    if t != [] {
      SortedTail(t);
      if StartsWith(t[0].key, prefix) {
        TakeIsAll(t[1..], prefix);
      } else {
        forall i | 0 <= i < |t| ensures !StartsWith(t[i].key, prefix) {
          if i > 0 && StartsWith(t[i].key, prefix) {
            PrefixConvex(prefix, t[0].key, t[i].key);
          }
        }
        NoneMatching(t, prefix);
      }
    }
  }

  lemma NotLessLater<V>(t: seq<Entry<V>>, low: Bytes)
    requires Sorted(t) && t != [] && !Less(t[0].key, low)
    ensures forall i :: 0 <= i < |t| ==> !Less(t[i].key, low)
  {
    forall i | 0 <= i < |t| ensures !Less(t[i].key, low) {
      if i > 0 && Less(t[i].key, low) {
        LessTransitive(t[0].key, t[i].key, low);
      }
    }
  }

  /** The scan returns exactly the entries with the prefix, each once and in key order. */
  lemma {:induction false} ScanExact<V>(t: seq<Entry<V>>, prefix: Bytes)
    requires Sorted(t)
    ensures ScanPrefix(t, prefix) == Matching(t, prefix)
  {
    if t != [] {
      SortedTail(t);
      if Less(t[0].key, prefix) {
        if StartsWith(t[0].key, prefix) {
          PrefixNotLess(t[0].key, prefix);
        }
        ScanExact(t[1..], prefix);
      } else {
        NotLessLater(t, prefix);
        TakeIsAll(t, prefix);
      }
    }
  }

  lemma {:induction false} MatchingMember<V>(t: seq<Entry<V>>, prefix: Bytes, e: Entry<V>)
    ensures e in Matching(t, prefix) <==> e in t && StartsWith(e.key, prefix)
  {
    if t != [] {
      MatchingMember(t[1..], prefix, e);
    }
  }

  /** Matching entries keep the table's order, so a scan has no duplicates. */
  lemma {:induction false} MatchingSorted<V>(t: seq<Entry<V>>, prefix: Bytes)
    requires Sorted(t)
    ensures Sorted(Matching(t, prefix))
  {
    if t != [] {
      SortedTail(t);
      HeadBelow(t);
      MatchingSorted(t[1..], prefix);
      forall e | e in Matching(t[1..], prefix) ensures Less(t[0].key, e.key) {
        MatchingMember(t[1..], prefix, e);
      }
      if StartsWith(t[0].key, prefix) {
        SortedCons(t[0], Matching(t[1..], prefix));
      }
    }
  }

  lemma {:induction false} MemberView<V>(t: seq<Entry<V>>, e: Entry<V>)
    requires Sorted(t)
    ensures e in t <==> e.key in View(t) && View(t)[e.key] == e.value
  {
    if e in t {
      var i :| 0 <= i < |t| && t[i] == e;
      ViewAt(t, i);
    }
    if e.key in View(t) && View(t)[e.key] == e.value {
      ViewKeys(t, e.key);
      var i :| 0 <= i < |t| && t[i].key == e.key;
      ViewAt(t, i);
    }
  }

  // ---------------------------------------------------------------- the object

  class Tree<V> {
    var entries: seq<Entry<V>>

    ghost predicate Valid()
      reads this
    {
      Sorted(entries)
    }

    constructor ()
      ensures Valid() && entries == []
    {
      entries := [];
    }

    method Insert(key: Bytes, value: V)
      requires Valid()
      modifies this
      ensures Valid() && View(entries) == old(View(entries))[key := value]
    {
      PutSorted(entries, key, value);
      PutView(entries, key, value);
      entries := Put(entries, key, value);
    }

    method Get(key: Bytes) returns (r: Option<V>)
      requires Valid()
      ensures r == if key in View(entries) then Some(View(entries)[key]) else None
    {
      ViewKeys(entries, key);
      var i := 0;
      while i < |entries|
        invariant 0 <= i <= |entries|
        invariant forall j :: 0 <= j < i ==> entries[j].key != key
      {
        if entries[i].key == key {
          ViewAt(entries, i);
          return Some(entries[i].value);
        }
        i := i + 1;
      }
      r := None;
    }

    method Remove(key: Bytes) returns (r: Option<V>)
      requires Valid()
      modifies this
      ensures Valid() && View(entries) == old(View(entries)) - {key}
      ensures r == if key in old(View(entries)) then Some(old(View(entries))[key]) else None
    {
      r := Get(key);
      DeleteSorted(entries, key);
      DeleteView(entries, key);
      entries := Delete(entries, key);
    }

    /** Exactly the entries with the prefix: a member for every one, in key order, none twice. */
    method Scan(prefix: Bytes) returns (r: seq<Entry<V>>)
      requires Valid()
      ensures r == Matching(entries, prefix) && Sorted(r)
      ensures forall e :: e in r <==> e.key in View(entries) && View(entries)[e.key] == e.value && StartsWith(e.key, prefix)
    {
      ScanExact(entries, prefix);
      MatchingSorted(entries, prefix);
      forall e
        ensures e in Matching(entries, prefix) <==>
                  e.key in View(entries) && View(entries)[e.key] == e.value && StartsWith(e.key, prefix)
      {
        MatchingMember(entries, prefix, e);
        MemberView(entries, e);
      }
      r := ScanPrefix(entries, prefix);
    }
  }
}

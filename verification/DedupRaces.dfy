/**
  A deduplication check is up to three table transactions: a read, the removal of an expired
  entry, and the write of a new stamp. Other handlers' transactions may fall in between.
  */
module DedupRaces {
  import opened Wrappers
  import opened Dedup

  /** What one transaction writes; a check's first one only reads. */
  datatype Txn = Evict(key: Bytes) | Write(key: Bytes, at: int)

  function Apply(d: Stamps, ts: seq<Txn>): Stamps
    decreases |ts|
  {
    if ts == [] then d
    else
      var front, last := Apply(d, ts[..|ts| - 1]), ts[|ts| - 1];
      if last.Evict? then front - {last.key} else front[last.key := Stamp(last.at)]
  }

  function TxnsOf(d: Stamps, key: Bytes, now: int, later: int): seq<Txn> {
    if !Passes(d, key, now) then []
    else if key in d then [Evict(key), Write(key, later)]
    else [Write(key, later)]
  }

  /** Without interruption the transactions of a check are the check. */
  lemma CheckIsTxns(d: Stamps, key: Bytes, now: int, later: int)
    ensures Apply(d, TxnsOf(d, key, now, later)) == Checked(d, key, now, later)
  {
    var ts := TxnsOf(d, key, now, later);
    if |ts| == 2 {
      assert ts[..1] == [Evict(key)] && ts[..1][..0] == [];
      assert Apply(d, ts[..1]) == d - {key};
    }
  }

  /** A stamp for `key` written at `p` and not removed since. */
  predicate Stands(ts: seq<Txn>, p: nat, key: Bytes) {
    p < |ts| && ts[p].Write? && ts[p].key == key && forall e :: p < e < |ts| ==> ts[e] != Evict(key)
  }

  lemma StandsLonger(ts: seq<Txn>, p: nat, key: Bytes)
    requires p < |ts| - 1
    ensures Stands(ts, p, key) <==> Stands(ts[..|ts| - 1], p, key) && ts[|ts| - 1] != Evict(key)
  {
    assert forall e :: 0 <= e < |ts| - 1 ==> ts[..|ts| - 1][e] == ts[e];
  }

  /**
    A second check of an id that has just passed, whatever transactions of this and other
    handlers come between the two reads: it passes as well if and only if no stamp written
    in between still stands, so also when its read comes before the first check's write.
    */
  lemma {:induction false} RacedPassExactly(d: Stamps, ts: seq<Txn>, key: Bytes, now: int, again: int)
    requires Passes(d, key, now) && now <= again
    requires forall p :: 0 <= p < |ts| && ts[p].Write? && ts[p].key == key ==> again - ts[p].at <= 172_800
    ensures Passes(Apply(d, ts), key, again) <==> !exists p: nat :: Stands(ts, p, key)
    decreases |ts|
  {
    if ts != [] {
      var last := |ts| - 1;
      RacedPassExactly(d, ts[..last], key, now, again);
      forall p: nat | p < last ensures Stands(ts, p, key) <==> Stands(ts[..last], p, key) && ts[last] != Evict(key) {
        StandsLonger(ts, p, key);
      }
      if ts[last].Write? && ts[last].key == key {
        assert Stands(ts, last, key);
      }
    }
  }
}

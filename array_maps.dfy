/**
 * Integer-keyed maps as the remapper stores them (android.util.ArrayMap).
 * An ArrayMap keeps its entries sorted by key hash, and the hash of an
 * Integer is its value, so iterating over `entrySet()` visits the keys in
 * ascending order. This module fixes that order (AscendingKeys) and defines
 * the reverse map the Remapper constructors build by iterating over a
 * forward map and putting `value -> key` for every entry.
 */
module ArrayMaps {
  import opened AndroidInput

  predicate IsMin(s: set<int32>, m: int32)
  {
    m in s && forall j :: j in s ==> m <= j
  }

  lemma {:induction false} MinExists(s: set<int32>)
    requires s != {}
    ensures exists m :: IsMin(s, m)
    decreases s
  {
    var x :| x in s;
    if s == {x} {
      assert IsMin(s, x);
    } else {
      MinExists(s - {x});
      var m :| IsMin(s - {x}, m);
      var least := if x < m then x else m;
      forall j | j in s ensures least <= j {
        if j != x {
          assert j in s - {x};
        }
      }
      assert IsMin(s, least);
    }
  }

  /** The smallest key of a non-empty key set. */
  ghost function MinOf(s: set<int32>): (m: int32)
    requires s != {}
    ensures IsMin(s, m)
  {
    MinExists(s);
    var m :| IsMin(s, m); m
  }

  /** The order in which an ArrayMap with key set `s` enumerates its entries. */
  ghost function AscendingKeys(s: set<int32>): seq<int32>
    decreases s
  {
    if s == {} then [] else [MinOf(s)] + AscendingKeys(s - {MinOf(s)})
  }

  ghost predicate StrictlyIncreasing(ks: seq<int32>)
  {
    forall i, j :: 0 <= i < j < |ks| ==> ks[i] < ks[j]
  }

  /** Enumerating an ArrayMap visits every key exactly once, in ascending order. */
  lemma {:induction false} AscendingKeysEnumerates(s: set<int32>)
    ensures |AscendingKeys(s)| == |s|
    ensures forall k :: k in AscendingKeys(s) <==> k in s
    ensures StrictlyIncreasing(AscendingKeys(s))
    decreases s
  {
    if s != {} {
      var m := MinOf(s);
      AscendingKeysEnumerates(s - {m});
      var tail := AscendingKeys(s - {m});
      assert AscendingKeys(s) == [m] + tail;
      forall i, j | 0 <= i < j < |[m] + tail|
        ensures ([m] + tail)[i] < ([m] + tail)[j]
      {
        if i == 0 {
          assert tail[j - 1] in s - {m};
        }
      }
    }
  }

  /** Computes the ArrayMap enumeration order of a key set by repeatedly taking its smallest key. */
  method AscendingKeysOf(s: set<int32>) returns (ks: seq<int32>)
    ensures ks == AscendingKeys(s)
  {
    ks := [];
    var rest := s;
    while rest != {}
      invariant ks + AscendingKeys(rest) == AscendingKeys(s)
      decreases rest
    {
      MinExists(rest);
      var m :| IsMin(rest, m);
      assert m == MinOf(rest);
      assert AscendingKeys(rest) == [m] + AscendingKeys(rest - {m});
      ks := ks + [m];
      rest := rest - {m};
    }
  }

  /** `reverse.put(entry.getValue(), entry.getKey())` for the entries with keys `ks`, in that order. */
  ghost function PutReversed(m: map<int32, int32>, ks: seq<int32>): map<int32, int32>
    requires forall i :: 0 <= i < |ks| ==> ks[i] in m
    decreases |ks|
  {
    if ks == [] then map[]
    else
      var last := ks[|ks| - 1];
      PutReversed(m, ks[..|ks| - 1])[m[last] := last]
  }

  /** The reverse map a Remapper constructor builds from the forward map `m`. */
  ghost function ReverseOf(m: map<int32, int32>): map<int32, int32>
  {
    AscendingKeysEnumerates(m.Keys);
    PutReversed(m, AscendingKeys(m.Keys))
  }

  /**
   * What a reverse map is, independent of how it is built: its keys are
   * exactly the forward map's values, each value maps back to a key that maps
   * to it, and that key is the largest such key (the last one written).
   */
  ghost predicate IsReverse(m: map<int32, int32>, rev: map<int32, int32>)
  {
    && rev.Keys == m.Values
    && (forall v :: v in rev ==> rev[v] in m && m[rev[v]] == v)
    && (forall k :: k in m ==> m[k] in rev && k <= rev[m[k]])
  }

  ghost predicate Injective(m: map<int32, int32>)
  {
    forall k1, k2 :: k1 in m && k2 in m && k1 != k2 ==> m[k1] != m[k2]
  }

  /** The keys of the reverse map are the values of the entries written. */
  lemma {:induction false} PutReversedKeys(m: map<int32, int32>, ks: seq<int32>)
    requires forall i :: 0 <= i < |ks| ==> ks[i] in m
    ensures forall v :: v in PutReversed(m, ks) <==> exists k :: k in ks && m[k] == v
    decreases |ks|
  {
    if ks != [] {
      var pre := ks[..|ks| - 1];
      var last := ks[|ks| - 1];
      PutReversedKeys(m, pre);
      assert ks == pre + [last];
      forall v | v in PutReversed(m, ks) ensures exists k :: k in ks && m[k] == v {
        if v != m[last] {
          assert v in PutReversed(m, pre);
          var k :| k in pre && m[k] == v;
          assert k in ks;
        }
      }
    }
  }

  /** Every value of the reverse map is a key written for it. */
  lemma {:induction false} PutReversedMapsBack(m: map<int32, int32>, ks: seq<int32>)
    requires forall i :: 0 <= i < |ks| ==> ks[i] in m
    ensures forall v :: v in PutReversed(m, ks) ==> PutReversed(m, ks)[v] in ks && m[PutReversed(m, ks)[v]] == v
    decreases |ks|
  {
    if ks != [] {
      var pre := ks[..|ks| - 1];
      PutReversedMapsBack(m, pre);
      assert ks == pre + [ks[|ks| - 1]];
    }
  }

  /** In ascending order, the key kept for a value is the largest key written for it. */
  lemma {:induction false} PutReversedKeepsLargest(m: map<int32, int32>, ks: seq<int32>)
    requires forall i :: 0 <= i < |ks| ==> ks[i] in m
    requires StrictlyIncreasing(ks)
    ensures forall k :: k in ks ==> m[k] in PutReversed(m, ks) && k <= PutReversed(m, ks)[m[k]]
    decreases |ks|
  {
    if ks != [] {
      var n := |ks| - 1;
      var pre := ks[..n];
      var last := ks[n];
      PutReversedKeepsLargest(m, pre);
      var rev0 := PutReversed(m, pre);
      assert ks == pre + [last];
      forall k | k in ks ensures m[k] in PutReversed(m, ks) && k <= PutReversed(m, ks)[m[k]] {
        if k != last {
          assert k in pre;
          var i :| 0 <= i < n && pre[i] == k;
          assert k < last;
        }
      }
    }
  }

  /** The reverse map's keys are exactly the forward map's values. */
  lemma ReverseOfKeys(m: map<int32, int32>)
    ensures ReverseOf(m).Keys == m.Values
  {
    AscendingKeysEnumerates(m.Keys);
    var ks := AscendingKeys(m.Keys);
    var rev := PutReversed(m, ks);
    assert ReverseOf(m) == rev;
    PutReversedKeys(m, ks);
    forall v | v in rev ensures v in m.Values {
      var k :| k in ks && m[k] == v;
    }
    forall v | v in m.Values ensures v in rev {
      var k :| k in m && m[k] == v;
      assert k in ks;
    }
  }

  /** Each value maps back to a key that maps to it. */
  lemma ReverseOfMapsBack(m: map<int32, int32>)
    ensures forall v :: v in ReverseOf(m) ==> ReverseOf(m)[v] in m && m[ReverseOf(m)[v]] == v
  {
    AscendingKeysEnumerates(m.Keys);
    var ks := AscendingKeys(m.Keys);
    assert ReverseOf(m) == PutReversed(m, ks);
    PutReversedMapsBack(m, ks);
  }

  /** Each key's value maps back to that key or a larger one. */
  lemma ReverseOfKeepsLargest(m: map<int32, int32>)
    ensures forall k :: k in m ==> m[k] in ReverseOf(m) && k <= ReverseOf(m)[m[k]]
  {
    AscendingKeysEnumerates(m.Keys);
    var ks := AscendingKeys(m.Keys);
    assert ReverseOf(m) == PutReversed(m, ks);
    PutReversedKeepsLargest(m, ks);
  }

  /** The reverse map built by the constructors is a reverse in the sense of IsReverse. */
  lemma ReverseOfIsReverse(m: map<int32, int32>)
    ensures IsReverse(m, ReverseOf(m))
  {
    ReverseOfKeys(m);
    ReverseOfMapsBack(m);
    ReverseOfKeepsLargest(m);
  }

  /** IsReverse determines the reverse map completely. */
  lemma IsReverseUnique(m: map<int32, int32>, r1: map<int32, int32>, r2: map<int32, int32>)
    requires IsReverse(m, r1) && IsReverse(m, r2)
    ensures r1 == r2
  {
    forall v | v in r1 ensures r1[v] == r2[v] {
      assert r1[v] <= r2[m[r1[v]]];
      assert r2[v] <= r1[m[r2[v]]];
    }
  }

  /** When the forward map is injective, the reverse map is its exact inverse. */
  lemma InjectiveReverseIsInverse(m: map<int32, int32>)
    requires Injective(m)
    ensures ReverseOf(m).Keys == m.Values
    ensures forall k :: k in m ==> ReverseOf(m)[m[k]] == k
    ensures Injective(ReverseOf(m))
  {
    ReverseOfIsReverse(m);
  }

  lemma AscendingKeysWithin(m: map<int32, int32>)
    ensures forall j :: 0 <= j < |AscendingKeys(m.Keys)| ==> AscendingKeys(m.Keys)[j] in m
  {
    AscendingKeysEnumerates(m.Keys);
  }

  lemma PutReversedStep(m: map<int32, int32>, ks: seq<int32>, i: nat)
    requires i < |ks|
    requires forall j :: 0 <= j < |ks| ==> ks[j] in m
    ensures PutReversed(m, ks[..i + 1]) == PutReversed(m, ks[..i])[m[ks[i]] := ks[i]]
  {
    assert ks[..i + 1][..i] == ks[..i];
  }

  /** The constructors' loop: put `value -> key` for every entry, in ArrayMap order. */
  method Invert(m: map<int32, int32>) returns (rev: map<int32, int32>)
    ensures rev == ReverseOf(m)
    ensures IsReverse(m, rev)
  {
    var ks := AscendingKeysOf(m.Keys);
    AscendingKeysWithin(m);
    rev := map[];
    var i := 0;
    while i < |ks|
      invariant 0 <= i <= |ks|
      invariant rev == PutReversed(m, ks[..i])
    {
      PutReversedStep(m, ks, i);
      rev := rev[m[ks[i]] := ks[i]];
      i := i + 1;
    }
    assert ks[..|ks|] == ks;
    ReverseOfIsReverse(m);
  }
}

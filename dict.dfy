/**
 * A Python `dict` keyed by strings, as the registries use it: a map plus the sequence of its
 * keys in first-insertion order. Assigning to an existing key replaces the value in place and
 * keeps the key's slot; assigning to a new key appends it.
 */
module Dict {

  ghost predicate Distinct(ks: seq<string>)
  {
    forall i, j :: 0 <= i < j < |ks| ==> ks[i] != ks[j]
  }

  /** The insertion-order keys are exactly the map's keys, each once. */
  ghost predicate WellFormed<V>(ks: seq<string>, m: map<string, V>)
  {
    Distinct(ks) && (forall k :: k in m ==> k in ks) && (forall k :: k in ks ==> k in m)
  }

  /** `list(d.values())`. */
  function Values<V>(ks: seq<string>, m: map<string, V>): (r: seq<V>)
    ensures |r| <= |ks|
  {
    if ks == [] then []
    else (if ks[0] in m then [m[ks[0]]] else []) + Values(ks[1..], m)
  }

  /** The key order after `d[k] = v`. */
  function KeysAfterPut<V>(ks: seq<string>, m: map<string, V>, k: string): (r: seq<string>)
    ensures k in r
    ensures forall j :: j in ks ==> j in r
  {
    if k in m && k in ks then ks else ks + [k]
  }

  function IndexOf(ks: seq<string>, k: string): (i: nat)
    requires k in ks
    ensures i < |ks| && ks[i] == k
    ensures forall j :: 0 <= j < i ==> ks[j] != k
  {
    if ks[0] == k then 0 else 1 + IndexOf(ks[1..], k)
  }

  /** When every key is present, the values are the map's values at the keys, position by position. */
  lemma {:induction false} ValuesAt<V>(ks: seq<string>, m: map<string, V>)
    requires forall k :: k in ks ==> k in m
    ensures |Values(ks, m)| == |ks|
    ensures forall j :: 0 <= j < |ks| ==> Values(ks, m)[j] == m[ks[j]]
  {
    if ks != [] {
      ValuesAt(ks[1..], m);
    }
  }

  /** On a well-formed dictionary the value list holds exactly the map's values. */
  lemma ValuesMembers<V>(ks: seq<string>, m: map<string, V>)
    requires WellFormed(ks, m)
    ensures forall v :: v in Values(ks, m) <==> v in m.Values
  {
    ValuesAt(ks, m);
    forall v | v in m.Values ensures v in Values(ks, m) {
      var k :| k in m && m[k] == v;
      var j := IndexOf(ks, k);
      assert Values(ks, m)[j] == v;
    }
  }

  /** Inserting a new key keeps the dictionary well formed and appends its value. */
  lemma PutNew<V>(ks: seq<string>, m: map<string, V>, k: string, v: V)
    requires WellFormed(ks, m) && k !in m
    ensures WellFormed(KeysAfterPut(ks, m, k), m[k := v])
    ensures Values(KeysAfterPut(ks, m, k), m[k := v]) == Values(ks, m) + [v]
  {
    var ks', m' := ks + [k], m[k := v];
    assert Distinct(ks') by {
      forall i, j | 0 <= i < j < |ks'| ensures ks'[i] != ks'[j] {
        if j == |ks| { assert ks[i] in ks; }
      }
    }
    ValuesAt(ks, m);
    ValuesAt(ks', m');
    var r, l := Values(ks', m'), Values(ks, m) + [v];
    assert |r| == |l|;
    forall j | 0 <= j < |r| ensures r[j] == l[j] {
      if j < |ks| {
        assert ks'[j] == ks[j] && ks[j] in ks;
      }
    }
  }

  /** Overwriting an existing key keeps the key order and replaces the value in that key's slot. */
  lemma PutExisting<V>(ks: seq<string>, m: map<string, V>, k: string, v: V)
    requires WellFormed(ks, m) && k in m
    ensures KeysAfterPut(ks, m, k) == ks
    ensures WellFormed(ks, m[k := v])
    ensures IndexOf(ks, k) < |Values(ks, m)|
    ensures Values(ks, m[k := v]) == Values(ks, m)[IndexOf(ks, k) := v]
  {
    var m' := m[k := v];
    var i := IndexOf(ks, k);
    ValuesAt(ks, m);
    ValuesAt(ks, m');
    forall j | 0 <= j < |ks| && j != i ensures m'[ks[j]] == m[ks[j]] {
      assert ks[j] != k;
    }
  }
}

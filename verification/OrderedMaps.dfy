/** A JavaScript `Map` from users to integers: insertion-ordered, one entry per key. */
module OrderedMaps {
  import opened Sequences

  type OMap = seq<(nat, int)>

  ghost predicate OneEntryPerKey(m: OMap) {
    forall i, j :: 0 <= i < j < |m| ==> m[i].0 != m[j].0
  }

  /** Position of a key, or the length of the map. */
  function IndexOf(m: OMap, k: nat): (i: nat)
    ensures i <= |m|
    ensures i < |m| ==> m[i].0 == k
    ensures forall j :: 0 <= j < i ==> m[j].0 != k
  {
    if m == [] || m[0].0 == k then 0 else 1 + IndexOf(m[1..], k)
  }

  /** `m.get(k) ?? 0` */
  function Get(m: OMap, k: nat): int {
    var i := IndexOf(m, k);
    if i < |m| then m[i].1 else 0
  }

  /** `m.set(k, v)` */
  function Put(m: OMap, k: nat, v: int): (r: OMap)
    ensures OneEntryPerKey(m) ==> OneEntryPerKey(r)
  {
    var i := IndexOf(m, k);
    if i < |m| then m[i := (k, v)] else m + [(k, v)]
  }

  function Add(m: OMap, k: nat, v: int): OMap {
    Put(m, k, Get(m, k) + v)
  }

  function Keys(m: OMap): (r: seq<nat>)
    ensures |r| == |m|
  {
    seq(|m|, i requires 0 <= i < |m| => m[i].0)
  }

  function SumValues(m: OMap): int {
    if m == [] then 0 else SumValues(m[..|m| - 1]) + m[|m| - 1].1
  }

  lemma IndexUnique(m: OMap, k: nat, i: nat)
    requires OneEntryPerKey(m) && i < |m| && m[i].0 == k
    ensures IndexOf(m, k) == i
  {
  }

  lemma GetPut(m: OMap, k: nat, v: int, u: nat)
    requires OneEntryPerKey(m)
    ensures Get(Put(m, k, v), u) == if u == k then v else Get(m, u)
  {
    var r := Put(m, k, v);
    var i := IndexOf(m, k);
    assert r[if i < |m| then i else |m|] == (k, v);
    if u == k {
      IndexUnique(r, k, if i < |m| then i else |m|);
    } else {
      var j := IndexOf(m, u);
      if j < |m| {
        IndexUnique(r, u, j);
      }
    }
  }

  lemma {:induction false} SumUpdateAt(m: OMap, i: nat, e: (nat, int))
    requires i < |m|
    ensures SumValues(m[i := e]) == SumValues(m) - m[i].1 + e.1
  {
    var n := |m| - 1;
    if i == n {
      assert m[i := e][..n] == m[..n];
    } else {
      assert m[i := e][..n] == m[..n][i := e];
      SumUpdateAt(m[..n], i, e);
    }
  }

  lemma SumAdd(m: OMap, k: nat, v: int)
    ensures SumValues(Add(m, k, v)) == SumValues(m) + v
  {
    var i := IndexOf(m, k);
    if i < |m| {
      SumUpdateAt(m, i, (k, Get(m, k) + v));
    } else {
      assert (m + [(k, v)])[..|m|] == m;
    }
  }

  /** The keys and their order after a write depend only on the keys and their order before it. */
  lemma KeysAdd(a: OMap, b: OMap, k: nat, v: int, w: int)
    requires Keys(a) == Keys(b)
    ensures Keys(Add(a, k, v)) == Keys(Add(b, k, w))
  {
    var i, j := IndexOf(a, k), IndexOf(b, k);
    assert forall l :: 0 <= l < |a| ==> a[l].0 == Keys(a)[l] == b[l].0;
    assert i == j;
  }

  lemma AddFacts(m: OMap, k: nat, v: int, u: nat)
    requires OneEntryPerKey(m)
    ensures OneEntryPerKey(Add(m, k, v))
    ensures Get(Add(m, k, v), u) == Get(m, u) + (if u == k then v else 0)
    ensures SumValues(Add(m, k, v)) == SumValues(m) + v
  {
    var w := Get(m, k) + v;
    assert Add(m, k, v) == Put(m, k, w);
    GetPut(m, k, w, u);
    SumAdd(m, k, v);
  }

  // ---------- Merging one map into another

  /** Sum of the values listed under key u. */
  function SumAt(m: OMap, u: nat): int {
    if m == [] then 0
    else SumAt(m[..|m| - 1], u) + (if m[|m| - 1].0 == u then m[|m| - 1].1 else 0)
  }

  function AddAll(net: OMap, delta: OMap): OMap {
    if delta == [] then net
    else
      var last := delta[|delta| - 1];
      Add(AddAll(net, delta[..|delta| - 1]), last.0, last.1)
  }

  lemma GetFront(m: OMap, u: nat)
    requires OneEntryPerKey(m) && m != []
    ensures Get(m, u) == Get(m[..|m| - 1], u) + (if m[|m| - 1].0 == u then m[|m| - 1].1 else 0)
  {
    var n := |m| - 1;
    if m[n].0 == u {
      IndexUnique(m, u, n);
    } else {
      var i := IndexOf(m[..n], u);
      if i < n {
        assert m[i].0 == u;
        IndexUnique(m, u, i);
      }
    }
  }

  lemma {:induction false} GetIsSumAt(m: OMap, u: nat)
    requires OneEntryPerKey(m)
    ensures SumAt(m, u) == Get(m, u)
  {
    if m != [] {
      GetIsSumAt(m[..|m| - 1], u);
      GetFront(m, u);
    }
  }

  lemma {:induction false} AddAllMeans(net: OMap, delta: OMap, u: nat)
    requires OneEntryPerKey(net)
    ensures OneEntryPerKey(AddAll(net, delta)) && Get(AddAll(net, delta), u) == Get(net, u) + SumAt(delta, u)
    ensures SumValues(AddAll(net, delta)) == SumValues(net) + SumValues(delta)
  {
    if delta != [] {
      var front, last := delta[..|delta| - 1], delta[|delta| - 1];
      AddAllMeans(net, front, u);
      AddFacts(AddAll(net, front), last.0, last.1, u);
    }
  }

  lemma {:induction false} KeysAddAll(a: OMap, b: OMap, d: OMap, d': OMap)
    requires Keys(a) == Keys(b) && Keys(d) == Keys(d')
    ensures Keys(AddAll(a, d)) == Keys(AddAll(b, d'))
  {
    assert |d| == |Keys(d)| == |d'|;
    if d != [] {
      var n := |d| - 1;
      assert Keys(d[..n]) == Keys(d)[..n] == Keys(d')[..n] == Keys(d'[..n]);
      assert d[n].0 == Keys(d)[n] == d'[n].0;
      KeysAddAll(a, b, d[..n], d'[..n]);
      KeysAdd(AddAll(a, d[..n]), AddAll(b, d'[..n]), d[n].0, d[n].1, d'[n].1);
    }
  }

  predicate HasKey(m: OMap, k: nat) {
    IndexOf(m, k) < |m|
  }

  lemma HasKeyIff(m: OMap, k: nat)
    ensures HasKey(m, k) <==> exists i :: 0 <= i < |m| && m[i].0 == k
  {
    if HasKey(m, k) {
      assert m[IndexOf(m, k)].0 == k;
    }
  }

  lemma KeyOfAdd(m: OMap, k: nat, v: int, u: nat)
    ensures HasKey(Add(m, k, v), u) <==> HasKey(m, u) || u == k
  {
    var r, i := Add(m, k, v), IndexOf(m, k);
    HasKeyIff(m, u);
    HasKeyIff(r, u);
    if i < |m| {
      assert forall j :: 0 <= j < |m| ==> r[j].0 == m[j].0;
    } else {
      assert forall j :: 0 <= j < |m| ==> r[j] == m[j];
      assert r[|m|].0 == k;
    }
  }

  lemma {:induction false} KeyOfAddAll(net: OMap, delta: OMap, u: nat)
    ensures HasKey(AddAll(net, delta), u) <==> HasKey(net, u) || exists i :: 0 <= i < |delta| && delta[i].0 == u
  {
    if delta != [] {
      var n := |delta| - 1;
      KeyOfAddAll(net, delta[..n], u);
      KeyOfAdd(AddAll(net, delta[..n]), delta[n].0, delta[n].1, u);
      assert forall i :: 0 <= i < n ==> delta[..n][i] == delta[i];
    }
  }
}

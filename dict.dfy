/** A Python `dict` as the list of its entries in insertion order: assigning
    to a present key replaces its value in place, assigning to a new key
    appends an entry. */
module Dict {
  import opened Text

  type Assoc<K, V> = seq<(K, V)>

  predicate KeysUnique<K(==,!new), V>(m: Assoc<K, V>) {
    forall i, j :: 0 <= i < j < |m| ==> m[i].0 != m[j].0
  }

  function Keys<K, V>(m: Assoc<K, V>): (ks: seq<K>)
    ensures |ks| == |m|
    ensures forall i :: 0 <= i < |m| ==> ks[i] == m[i].0
  {
    seq(|m|, i requires 0 <= i < |m| => m[i].0)
  }

  predicate HasKey<K(==,!new), V>(m: Assoc<K, V>, k: K) {
    exists i :: 0 <= i < |m| && m[i].0 == k
  }

  /** The keys of `m` are those before its last entry and that entry's. */
  lemma HasKeyLast<K(!new), V>(m: Assoc<K, V>, k: K)
    requires m != []
    ensures HasKey(m, k) <==> HasKey(m[..|m| - 1], k) || m[|m| - 1].0 == k
  {
    var n := |m| - 1;
    if HasKey(m, k) && m[n].0 != k {
      var i :| 0 <= i < |m| && m[i].0 == k;
      assert m[..n][i] == m[i];
    }
    if HasKey(m[..n], k) {
      var i :| 0 <= i < n && m[..n][i].0 == k;
      assert m[i] == m[..n][i];
    }
  }

  /** `m.get(k)`. */
  function Lookup<K(==,!new), V>(m: Assoc<K, V>, k: K): (r: Option<V>)
    ensures r.None? <==> !HasKey(m, k)
    ensures KeysUnique(m) ==> forall i :: 0 <= i < |m| && m[i].0 == k ==> r == Some(m[i].1)
  {
    if m == [] then None
    else if m[0].0 == k then Some(m[0].1)
    else
      assert forall i :: 1 <= i < |m| ==> m[1..][i - 1] == m[i];
      Lookup(m[1..], k)
  }

  /** `m[k] = v`. */
  function Put<K(==,!new), V>(m: Assoc<K, V>, k: K, v: V): (r: Assoc<K, V>)
    requires KeysUnique(m)
    ensures KeysUnique(r)
    ensures Lookup(r, k) == Some(v)
    ensures forall k' :: k' != k ==> Lookup(r, k') == Lookup(m, k')
    ensures HasKey(m, k) ==> Keys(r) == Keys(m)
    ensures !HasKey(m, k) ==> Keys(r) == Keys(m) + [k]
  {
    if i :| 0 <= i < |m| && m[i].0 == k then
      var r := m[i := (k, v)];
      assert Keys(r) == Keys(m);
      r
    else
      var r := m + [(k, v)];
      assert r[|m|] == (k, v);
      assert KeysUnique(r);
      assert Keys(r) == Keys(m) + [k];
      assert forall k' :: k' != k ==> Lookup(r, k') == Lookup(m, k') by {
        forall k' | k' != k
          ensures Lookup(r, k') == Lookup(m, k')
        {
          if HasKey(m, k') {
            var j :| 0 <= j < |m| && m[j].0 == k';
            assert r[j] == m[j];
          }
        }
      }
      r
  }

  /** Assigning each pair of `ps` in turn. */
  function PutAll<K(==,!new), V>(m: Assoc<K, V>, ps: seq<(K, V)>): (r: Assoc<K, V>)
    requires KeysUnique(m)
    ensures KeysUnique(r)
  {
    if ps == [] then m else Put(PutAll(m, ps[..|ps| - 1]), ps[|ps| - 1].0, ps[|ps| - 1].1)
  }

  /** One more assignment after `ps`. */
  lemma PutAllSnoc<K(!new), V>(m: Assoc<K, V>, ps: seq<(K, V)>, p: (K, V))
    requires KeysUnique(m)
    ensures PutAll(m, ps + [p]) == Put(PutAll(m, ps), p.0, p.1)
  {
    assert (ps + [p])[..|ps|] == ps;
  }

  /** Assigning `xs` then `ys` is assigning `xs + ys`. */
  lemma {:induction false} PutAllAppend<K(!new), V>(m: Assoc<K, V>, xs: seq<(K, V)>, ys: seq<(K, V)>)
    requires KeysUnique(m)
    ensures PutAll(m, xs + ys) == PutAll(PutAll(m, xs), ys)
  {
    if ys != [] {
      var n := |ys| - 1;
      assert (xs + ys)[..|xs + ys| - 1] == xs + ys[..n];
      PutAllAppend(m, xs, ys[..n]);
    } else {
      assert xs + ys == xs;
    }
  }

  /** The value of the last pair of `ps` whose key is `k`. */
  function LastValue<K(==,!new), V>(ps: seq<(K, V)>, k: K): (r: Option<V>)
    ensures r.Some? <==> HasKey(ps, k)
    ensures r.Some? ==> (k, r.value) in ps
  {
    if ps == [] then None
    else if ps[|ps| - 1].0 == k then Some(ps[|ps| - 1].1)
    else
      var r := LastValue(ps[..|ps| - 1], k);
      HasKeyLast(ps, k);
      r
  }

  /** `ps[i]` is `(k, v)` and no later pair has key `k`. */
  predicate LastAt<K(==), V(==)>(ps: seq<(K, V)>, k: K, v: V, i: int) {
    0 <= i < |ps| && ps[i] == (k, v) && forall j :: i < j < |ps| ==> ps[j].0 != k
  }

  /** The pair `LastValue` reports is the last one with its key. */
  lemma {:induction false} LastValueIsLast<K(!new), V>(ps: seq<(K, V)>, k: K)
    requires LastValue(ps, k).Some?
    ensures exists i :: LastAt(ps, k, LastValue(ps, k).value, i)
  {
    var n := |ps| - 1;
    var v := LastValue(ps, k).value;
    if ps[n].0 == k {
      assert LastAt(ps, k, v, n);
    } else {
      var init := ps[..n];
      assert LastValue(init, k) == LastValue(ps, k);
      LastValueIsLast(init, k);
      var i :| LastAt(init, k, v, i);
      assert forall j :: 0 <= j < n ==> ps[j] == init[j];
      assert LastAt(ps, k, v, i);
    }
  }

  /** Later assignments win: a key's value after `PutAll` is its last
      assigned value, or the old one when `ps` does not assign it. */
  lemma {:induction false} PutAllLookup<K(!new), V>(m: Assoc<K, V>, ps: seq<(K, V)>, k: K)
    requires KeysUnique(m)
    ensures Lookup(PutAll(m, ps), k) ==
              (if LastValue(ps, k).Some? then LastValue(ps, k) else Lookup(m, k))
  {
    if ps != [] {
      PutAllLookup(m, ps[..|ps| - 1], k);
    }
  }

  /** With unique keys, the last pair for a key is its only pair, the one
      `Lookup` finds. */
  lemma UniqueLastValue<K(!new), V>(m: Assoc<K, V>, k: K)
    requires KeysUnique(m)
    ensures LastValue(m, k) == Lookup(m, k)
  {
    if LastValue(m, k).Some? {
      LastValueIsLast(m, k);
      var i :| LastAt(m, k, LastValue(m, k).value, i);
    }
  }

  /** Every value of `m` satisfies `P`. */
  predicate AllValues<K, V>(m: Assoc<K, V>, P: V -> bool) {
    forall i :: 0 <= i < |m| ==> P(m[i].1)
  }

  /** Assignments of values satisfying `P` keep every value satisfying it. */
  lemma {:induction false} PutAllValues<K(!new), V>(m: Assoc<K, V>, ps: seq<(K, V)>, P: V -> bool)
    requires KeysUnique(m) && AllValues(m, P) && AllValues(ps, P)
    ensures AllValues(PutAll(m, ps), P)
  {
    if ps != [] {
      var n := |ps| - 1;
      assert AllValues(ps[..n], P) by {
        forall i | 0 <= i < n ensures P(ps[..n][i].1) {
          assert ps[..n][i] == ps[i];
        }
      }
      PutAllValues(m, ps[..n], P);
      var r := PutAll(m, ps[..n]);
      if i :| 0 <= i < |r| && r[i].0 == ps[n].0 {
        assert Put(r, ps[n].0, ps[n].1) == r[i := ps[n]];
      } else {
        assert Put(r, ps[n].0, ps[n].1) == r + [ps[n]];
      }
    }
  }

  /** Keys keep their first-insertion order: `PutAll` only appends keys. */
  lemma {:induction false} PutAllKeysPrefix<K(!new), V>(m: Assoc<K, V>, ps: seq<(K, V)>)
    requires KeysUnique(m)
    ensures |PutAll(m, ps)| >= |m|
    ensures Keys(PutAll(m, ps))[..|m|] == Keys(m)
  {
    if ps != [] {
      var init := PutAll(m, ps[..|ps| - 1]);
      PutAllKeysPrefix(m, ps[..|ps| - 1]);
      var last := ps[|ps| - 1];
      if !HasKey(init, last.0) {
        assert Keys(PutAll(m, ps))[..|m|] == (Keys(init) + [last.0])[..|m|];
      }
    }
  }

  /** Assigning keys that are new and pairwise distinct appends one entry
      per key. */
  lemma {:induction false} PutAllFresh<K(!new), V>(m: Assoc<K, V>, ps: seq<(K, V)>)
    requires KeysUnique(m) && KeysUnique(ps)
    requires forall i :: 0 <= i < |ps| ==> !HasKey(m, ps[i].0)
    ensures |PutAll(m, ps)| == |m| + |ps|
    ensures forall k :: HasKey(PutAll(m, ps), k) <==> HasKey(m, k) || HasKey(ps, k)
  {
    if ps != [] {
      var n := |ps| - 1;
      var init := ps[..n];
      var last := ps[n];
      assert forall i :: 0 <= i < n ==> init[i] == ps[i];
      PutAllFresh(m, init);
      assert forall i :: 0 <= i < n ==> init[i].0 != last.0;
      var a := PutAll(m, init);
      assert PutAll(m, ps) == Put(a, last.0, last.1);
      forall k ensures HasKey(PutAll(m, ps), k) <==> HasKey(m, k) || HasKey(ps, k) {
        HasKeyLast(ps, k);
        PutHasKey(a, last.0, last.1, k);
      }
    }
  }

  /** Assigning adds its key and no other. */
  lemma PutHasKey<K(!new), V>(m: Assoc<K, V>, k: K, v: V, k': K)
    requires KeysUnique(m)
    ensures HasKey(Put(m, k, v), k') <==> HasKey(m, k') || k' == k
  {
    if k' != k {
      assert Lookup(Put(m, k, v), k') == Lookup(m, k');
    }
  }

  /** Appending an entry leaves every earlier key's value alone. */
  lemma {:induction false} LookupAppend<K(!new), V>(m: Assoc<K, V>, p: (K, V), k: K)
    ensures Lookup(m + [p], k) ==
              if HasKey(m, k) then Lookup(m, k) else if p.0 == k then Some(p.1) else None
  {
    if m == [] {
      assert m + [p] == [p];
    } else {
      assert (m + [p])[1..] == m[1..] + [p];
      if m[0].0 != k {
        LookupAppend(m[1..], p, k);
        if HasKey(m, k) {
          var i :| 0 <= i < |m| && m[i].0 == k;
          assert m[1..][i - 1] == m[i];
        }
        if HasKey(m[1..], k) {
          var i :| 0 <= i < |m[1..]| && m[1..][i].0 == k;
          assert m[i + 1] == m[1..][i];
        }
      }
    }
  }

  /** `LookupAppend` read on `m` and its prefix without its last entry. */
  lemma LookupLast<K(!new), V>(m: Assoc<K, V>, k: K)
    requires m != []
    ensures var n := |m| - 1;
            Lookup(m, k) == if HasKey(m[..n], k) then Lookup(m[..n], k) else if m[n].0 == k then Some(m[n].1) else None
  {
    var n := |m| - 1;
    assert m == m[..n] + [m[n]];
    LookupAppend(m[..n], m[n], k);
  }

  /** Appending an entry with a new key keeps the keys unique. */
  lemma AppendFreshKey<K(!new), V>(m: Assoc<K, V>, p: (K, V))
    requires KeysUnique(m) && !HasKey(m, p.0)
    ensures KeysUnique(m + [p])
  {
    assert forall i :: 0 <= i < |m| ==> (m + [p])[i] == m[i] && m[i].0 != p.0;
  }

  /** `{k: f(v) for k, v in m.items() if keep(f(v))}`, in key order. */
  function MapFilter<K(==,!new), V, W>(m: Assoc<K, V>, f: V -> W, keep: W -> bool): (r: Assoc<K, W>)
    ensures |r| <= |m|
  {
    if m == [] then []
    else
      var last := m[|m| - 1];
      MapFilter(m[..|m| - 1], f, keep) + (if keep(f(last.1)) then [(last.0, f(last.1))] else [])
  }

  /** A key keeps its transformed value exactly when `keep` accepts it;
      nothing else appears. */
  lemma {:induction false} MapFilterLookup<K(!new), V, W>(m: Assoc<K, V>, f: V -> W, keep: W -> bool, k: K)
    requires KeysUnique(m)
    ensures KeysUnique(MapFilter(m, f, keep))
    ensures Lookup(MapFilter(m, f, keep), k) ==
              if HasKey(m, k) && keep(f(Lookup(m, k).value)) then Some(f(Lookup(m, k).value)) else None
  {
    if m != [] {
      var n := |m| - 1;
      var init := m[..n];
      var last := m[n];
      assert forall i :: 0 <= i < n ==> init[i] == m[i];
      assert KeysUnique(init);
      assert !HasKey(init, last.0);
      MapFilterLookup(init, f, keep, k);
      MapFilterLookup(init, f, keep, last.0);
      var r := MapFilter(init, f, keep);
      assert init + [last] == m;
      LookupAppend(init, last, k);
      if keep(f(last.1)) {
        assert MapFilter(m, f, keep) == r + [(last.0, f(last.1))];
        AppendFreshKey(r, (last.0, f(last.1)));
        LookupAppend(r, (last.0, f(last.1)), k);
        if k == last.0 {
          assert !HasKey(r, k);
          assert Lookup(m, k) == Some(last.1);
        } else {
          assert Lookup(m, k) == Lookup(init, k);
          assert HasKey(m, k) == HasKey(init, k);
        }
      } else {
        assert MapFilter(m, f, keep) == r;
        if k == last.0 {
          assert Lookup(m, k) == Some(last.1);
        } else {
          assert Lookup(m, k) == Lookup(init, k);
          assert HasKey(m, k) == HasKey(init, k);
        }
      }
    }
  }
}

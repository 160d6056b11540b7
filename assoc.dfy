/** Python dictionaries keyed by strings whose iteration order matters, as sequences of
    (key, value) pairs in insertion order. A dictionary read from JSON has distinct keys. */
module Assoc {
  import opened Wrappers

  function Keys<V>(ps: seq<(string, V)>): set<string> {
    set i | 0 <= i < |ps| :: ps[i].0
  }

  ghost predicate DistinctKeys<V>(ps: seq<(string, V)>) {
    forall i, j :: 0 <= i < j < |ps| ==> ps[i].0 != ps[j].0
  }

  /** `d.get(k)`: the value stored under `k`, if any. */
  function Get<V>(ps: seq<(string, V)>, k: string): (r: Option<V>)
    ensures r.Some? <==> k in Keys(ps)
    ensures r.Some? ==> (k, r.value) in ps
  {
    if ps == [] then None
    else if ps[0].0 == k then Some(ps[0].1)
    else
      assert Keys(ps) == {ps[0].0} + Keys(ps[1..]) by {
        forall x | x in Keys(ps) ensures x in {ps[0].0} + Keys(ps[1..]) {
          var i :| 0 <= i < |ps| && ps[i].0 == x;
          if i > 0 { assert ps[1..][i - 1].0 == x; }
        }
        forall x | x in Keys(ps[1..]) ensures x in Keys(ps) {
          var i :| 0 <= i < |ps[1..]| && ps[1..][i].0 == x;
          assert ps[i + 1].0 == x;
        }
      }
      Get(ps[1..], k)
  }

  /** With distinct keys, `Get` finds the one pair that carries the key. */
  lemma {:induction false} GetAt<V>(ps: seq<(string, V)>, i: nat)
    requires DistinctKeys(ps) && i < |ps|
    ensures Get(ps, ps[i].0) == Some(ps[i].1)
  {
    if i > 0 {
      assert ps[0].0 != ps[i].0;
      assert ps[1..][i - 1] == ps[i];
      GetAt(ps[1..], i - 1);
    }
  }

  lemma {:induction false} GetAppend<V>(ps: seq<(string, V)>, e: (string, V), k: string)
    ensures Get(ps + [e], k) == if k in Keys(ps) then Get(ps, k) else if e.0 == k then Some(e.1) else None
  {
    if ps != [] {
      assert (ps + [e])[1..] == ps[1..] + [e];
      if ps[0].0 != k {
        GetAppend(ps[1..], e, k);
      }
    }
  }

  /** The entries of `ps` whose value satisfies `f`, in their original order: the
      dictionary that `{k: v for k, v in d.items() if f(v)}` builds. */
  function Keep<V>(ps: seq<(string, V)>, f: V -> bool): (r: seq<(string, V)>)
    ensures forall i :: 0 <= i < |r| ==> r[i] in ps && f(r[i].1)
    ensures forall i :: 0 <= i < |ps| && f(ps[i].1) ==> ps[i] in r
    ensures |r| <= |ps|
  {
    if ps == [] then []
    else
      var init, last := ps[..|ps| - 1], ps[|ps| - 1];
      assert ps == init + [last];
      Keep(init, f) + (if f(last.1) then [last] else [])
  }

  /** Filtering distributes over concatenation, so it keeps the relative order. */
  lemma {:induction false} KeepConcat<V>(a: seq<(string, V)>, b: seq<(string, V)>, f: V -> bool)
    ensures Keep(a + b, f) == Keep(a, f) + Keep(b, f)
    decreases |b|
  {
    if b != [] {
      var b', last := b[..|b| - 1], b[|b| - 1];
      assert a + b == (a + b') + [last];
      assert (a + b)[..|a + b| - 1] == a + b';
      KeepConcat(a, b', f);
    } else {
      assert a + b == a;
    }
  }

  /** `Keep` yields a sub-dictionary: distinct keys stay distinct, and each key maps to
      its original value when that value passes the filter, and is absent otherwise. */
  lemma {:induction false} KeepSubMap<V>(ps: seq<(string, V)>, f: V -> bool, k: string)
    requires DistinctKeys(ps)
    ensures DistinctKeys(Keep(ps, f))
    ensures Get(Keep(ps, f), k) == if Get(ps, k).Some? && f(Get(ps, k).value) then Get(ps, k) else None
    decreases |ps|
  {
    if ps != [] {
      var init, last := ps[..|ps| - 1], ps[|ps| - 1];
      assert ps == init + [last];
      assert DistinctKeys(init) by {
        forall i, j | 0 <= i < j < |init| ensures init[i].0 != init[j].0 {
          assert init[i] == ps[i] && init[j] == ps[j];
        }
      }
      KeepSubMap(init, f, k);
      KeepSubMap(init, f, last.0);
      assert last.0 !in Keys(init) by {
        forall i | 0 <= i < |init| ensures init[i].0 != last.0 {
          assert init[i] == ps[i];
        }
      }
      var ki := Keep(init, f);
      assert last.0 !in Keys(ki) by {
        forall i | 0 <= i < |ki| ensures ki[i].0 != last.0 {
          var j :| 0 <= j < |init| && init[j] == ki[i];
          assert init[j] == ps[j];
        }
      }
      GetAppend(init, last, k);
      if f(last.1) {
        GetAppend(ki, last, k);
        assert DistinctKeys(ki + [last]) by {
          forall i, j | 0 <= i < j < |ki + [last]| ensures (ki + [last])[i].0 != (ki + [last])[j].0 {
            if j == |ki| {
              assert (ki + [last])[i] == ki[i];
            } else {
              assert (ki + [last])[i] == ki[i] && (ki + [last])[j] == ki[j];
            }
          }
        }
      } else {
        assert Keep(ps, f) == ki;
        if k == last.0 {
          assert Get(ki, k).None?;
        }
      }
    }
  }

  /** Position of the first pair carrying `k`, or `|ps|` when there is none. */
  function KeyIndex<V>(ps: seq<(string, V)>, k: string): (i: nat)
    ensures i <= |ps|
    ensures i < |ps| ==> ps[i].0 == k
    ensures forall j :: 0 <= j < i ==> ps[j].0 != k
    ensures i == |ps| <==> k !in Keys(ps)
    ensures i < |ps| ==> Get(ps, k) == Some(ps[i].1)
    ensures i == |ps| ==> Get(ps, k).None?
  {
    if ps == [] then 0
    else if ps[0].0 == k then 0
    else
      var i := 1 + KeyIndex(ps[1..], k);
      assert forall j :: 1 <= j < |ps| ==> ps[j] == ps[1..][j - 1];
      assert k !in Keys(ps[1..]) ==> k !in Keys(ps) by {
        if k in Keys(ps) {
          var j :| 0 <= j < |ps| && ps[j].0 == k;
          assert ps[1..][j - 1].0 == k;
        }
      }
      i
  }

  /** `d[k] = v`: replaces the value in place when the key exists, appends otherwise. */
  function Update<V>(ps: seq<(string, V)>, k: string, v: V): (r: seq<(string, V)>)
    ensures KeyIndex(ps, k) < |ps| ==> r == ps[KeyIndex(ps, k) := (k, v)]
    ensures KeyIndex(ps, k) == |ps| ==> r == ps + [(k, v)]
  {
    var i := KeyIndex(ps, k);
    if i < |ps| then ps[i := (k, v)] else ps + [(k, v)]
  }

  /** After `d[k] = v` the key set grows by `k` only, and keys stay distinct. */
  lemma {:induction false} UpdateKeys<V>(ps: seq<(string, V)>, k: string, v: V)
    requires DistinctKeys(ps)
    ensures Keys(Update(ps, k, v)) == Keys(ps) + {k}
    ensures DistinctKeys(Update(ps, k, v))
    ensures |Update(ps, k, v)| == if k in Keys(ps) then |ps| else |ps| + 1
  {
    var i := KeyIndex(ps, k);
    var r := Update(ps, k, v);
    if i < |ps| {
      assert forall x :: 0 <= x < |ps| ==> r[x].0 == ps[x].0;
      assert Keys(r) == Keys(ps);
    } else {
      assert forall x :: 0 <= x < |ps| ==> r[x] == ps[x];
      assert r[|ps|] == (k, v);
      assert Keys(r) == Keys(ps) + {k} by {
        forall y | y in Keys(r) ensures y in Keys(ps) + {k} {
          var x :| 0 <= x < |r| && r[x].0 == y;
          if x < |ps| { assert ps[x].0 == y; }
        }
        assert k == r[|ps|].0;
        forall y | y in Keys(ps) ensures y in Keys(r) {
          var x :| 0 <= x < |ps| && ps[x].0 == y;
          assert r[x].0 == y;
        }
      }
    }
  }

  /** After `d[k] = v`, `k` reads as `v` and every other key reads as before. */
  lemma {:induction false} UpdateGet<V>(ps: seq<(string, V)>, k: string, v: V, j: string)
    requires DistinctKeys(ps)
    ensures Get(Update(ps, k, v), j) == if j == k then Some(v) else Get(ps, j)
  {
    var i := KeyIndex(ps, k);
    var r := Update(ps, k, v);
    UpdateKeys(ps, k, v);
    if i < |ps| {
      GetAt(r, i);
      if j != k && j in Keys(ps) {
        var x := KeyIndex(ps, j);
        assert r[x] == ps[x];
        GetAt(ps, x);
        GetAt(r, x);
      }
    } else {
      GetAppend(ps, (k, v), j);
    }
  }
}

/** Sequence vocabulary shared by the modules: duplicate-free lists,
    the "append if not already present" loop, occurrence counts, and the
    insertion-ordered counter a Python dict builds with d[k] = d.get(k, 0) + 1. */
module Seqs {
  predicate NoDups<T(==)>(s: seq<T>)
  {
    forall i, j | 0 <= i < j < |s| :: s[i] != s[j]
  }

  /** for x in xs: if x not in acc: acc.append(x) */
  function AddNew<T(==)>(acc: seq<T>, xs: seq<T>): (r: seq<T>)
    ensures acc <= r
    decreases |xs|
  {
    if xs == [] then acc
    else
      var a := AddNew(acc, xs[..|xs| - 1]);
      if xs[|xs| - 1] in a then a else a + [xs[|xs| - 1]]
  }

  /** Re-bracketing a prefixed concatenation. */
  lemma ConsAppendAssoc<T>(h: T, x: seq<T>, y: seq<T>)
    ensures [h] + (x + y) == ([h] + x) + y
  {
  }

  lemma {:induction false} AddNewMembers<T>(acc: seq<T>, xs: seq<T>)
    ensures forall x :: x in AddNew(acc, xs) <==> x in acc || x in xs
    decreases |xs|
  {
    if xs != [] {
      var init := xs[..|xs| - 1];
      AddNewMembers(acc, init);
      assert xs == init + [xs[|xs| - 1]];
    }
  }

  lemma {:induction false} AddNewNoDups<T>(acc: seq<T>, xs: seq<T>)
    requires NoDups(acc)
    ensures NoDups(AddNew(acc, xs))
    decreases |xs|
  {
    if xs != [] {
      AddNewNoDups(acc, xs[..|xs| - 1]);
    }
  }

  /** The number of occurrences of x in xs. */
  function Count<T(==)>(xs: seq<T>, x: T): (n: nat)
    ensures n <= |xs|
    ensures n > 0 <==> x in xs
    decreases |xs|
  {
    if xs == [] then 0
    else Count(xs[..|xs| - 1], x) + (if xs[|xs| - 1] == x then 1 else 0)
  }

  lemma {:induction false} CountAppend<T>(xs: seq<T>, ys: seq<T>, x: T)
    ensures Count(xs + ys, x) == Count(xs, x) + Count(ys, x)
    decreases |ys|
  {
    if ys == [] {
      assert xs + ys == xs;
    } else {
      var ys' := ys[..|ys| - 1];
      CountAppend(xs, ys', x);
      assert (xs + ys)[..|xs + ys| - 1] == xs + ys';
    }
  }

  function Keys<T>(t: seq<(T, nat)>): (ks: seq<T>)
    ensures |ks| == |t|
    ensures forall i | 0 <= i < |t| :: ks[i] == t[i].0
  {
    seq(|t|, i requires 0 <= i < |t| => t[i].0)
  }

  function SumCounts<T>(t: seq<(T, nat)>): nat
    decreases |t|
  {
    if t == [] then 0 else SumCounts(t[..|t| - 1]) + t[|t| - 1].1
  }

  /** counts[x] = counts.get(x, 0) + 1 on an insertion-ordered dict. */
  function Bump<T(==)>(t: seq<(T, nat)>, x: T): (r: seq<(T, nat)>)
    decreases |t|
  {
    if t == [] then [(x, 1)]
    else if t[0].0 == x then [(x, t[0].1 + 1)] + t[1..]
    else [t[0]] + Bump(t[1..], x)
  }

  /** The counter dict built from xs in order: one pair per distinct
      element, in first-seen order. */
  function Tally<T(==)>(xs: seq<T>): seq<(T, nat)>
    decreases |xs|
  {
    if xs == [] then [] else Bump(Tally(xs[..|xs| - 1]), xs[|xs| - 1])
  }

  lemma {:induction false} BumpKeys<T>(t: seq<(T, nat)>, x: T)
    ensures Keys(Bump(t, x)) == if x in Keys(t) then Keys(t) else Keys(t) + [x]
    decreases |t|
  {
    if t != [] {
      var h := t[0].0;
      var rest := Keys(t[1..]);
      assert Keys(t) == [h] + rest;
      if h == x {
        BumpKeysHit(t, x);
      } else {
        var br := Bump(t[1..], x);
        BumpKeys(t[1..], x);
        assert Bump(t, x) == [t[0]] + br;
        assert Keys(Bump(t, x)) == [h] + Keys(br);
        assert x in Keys(t) <==> x in rest;
        if x !in rest {
          assert [h] + (rest + [x]) == ([h] + rest) + [x];
        }
      }
    }
  }

  /** Bumping the first key leaves the key sequence as it was. */
  lemma BumpKeysHit<T>(t: seq<(T, nat)>, x: T)
    requires t != [] && t[0].0 == x
    ensures x in Keys(t)
    ensures Keys(Bump(t, x)) == Keys(t)
  {
    var b := Bump(t, x);
    assert b == [(x, t[0].1 + 1)] + t[1..];
    assert Keys(t)[0] == x;
    forall i | 0 <= i < |t| ensures Keys(b)[i] == Keys(t)[i] {
      if i > 0 {
        assert b[i] == t[i];
      }
    }
  }

  lemma {:induction false} BumpSum<T>(t: seq<(T, nat)>, x: T)
    ensures SumCounts(Bump(t, x)) == SumCounts(t) + 1
    decreases |t|
  {
    if t != [] {
      BumpSum(t[1..], x);
      assert t == [t[0]] + t[1..];
      SumCountsCons(t[0], t[1..]);
      if t[0].0 == x {
        assert t == [t[0]] + t[1..];
        SumCountsCons((x, t[0].1 + 1), t[1..]);
      } else {
        assert Bump(t, x) == [t[0]] + Bump(t[1..], x);
        SumCountsCons(t[0], Bump(t[1..], x));
      }
    }
  }

  lemma {:induction false} BumpLength<T>(t: seq<(T, nat)>, x: T)
    ensures |Bump(t, x)| == if x in Keys(t) then |t| else |t| + 1
    ensures x !in Keys(t) ==> Bump(t, x)[|t|] == (x, 1)
    decreases |t|
  {
    if t != [] {
      assert Keys(t) == [t[0].0] + Keys(t[1..]);
      if t[0].0 != x {
        BumpLength(t[1..], x);
        assert Bump(t, x) == [t[0]] + Bump(t[1..], x);
      }
    }
  }

  lemma NoDupsTail<T>(t: seq<(T, nat)>)
    requires t != [] && NoDups(Keys(t))
    ensures NoDups(Keys(t[1..]))
    ensures forall i | 1 <= i < |t| :: t[i].0 != t[0].0
  {
    var tail := t[1..];
    forall i, j | 0 <= i < j < |tail| ensures Keys(tail)[i] != Keys(tail)[j] {
      assert Keys(t)[i + 1] != Keys(t)[j + 1];
    }
    forall i | 1 <= i < |t| ensures t[i].0 != t[0].0 {
      assert Keys(t)[0] != Keys(t)[i];
    }
  }

  lemma {:induction false} BumpEntries<T>(t: seq<(T, nat)>, x: T)
    requires NoDups(Keys(t))
    ensures |Bump(t, x)| >= |t|
    ensures forall i | 0 <= i < |t| :: Bump(t, x)[i] == (t[i].0, t[i].1 + if t[i].0 == x then 1 else 0)
    decreases |t|
  {
    BumpLength(t, x);
    if t != [] {
      var tail := t[1..];
      NoDupsTail(t);
      var r := Bump(t, x);
      if t[0].0 == x {
        assert r == [(x, t[0].1 + 1)] + tail;
      } else {
        BumpEntries(tail, x);
        assert r == [t[0]] + Bump(tail, x);
        forall i | 1 <= i < |t| ensures r[i] == (t[i].0, t[i].1 + if t[i].0 == x then 1 else 0) {
          assert t[i] == tail[i - 1];
        }
      }
    }
  }

  lemma BumpCounts<T>(t: seq<(T, nat)>, x: T)
    requires NoDups(Keys(t))
    ensures |Bump(t, x)| == if x in Keys(t) then |t| else |t| + 1
    ensures forall i | 0 <= i < |t| :: Bump(t, x)[i] == (t[i].0, t[i].1 + if t[i].0 == x then 1 else 0)
    ensures x !in Keys(t) ==> Bump(t, x)[|t|] == (x, 1)
  {
    BumpLength(t, x);
    BumpEntries(t, x);
  }


  lemma {:induction false} SumCountsCons<T>(p: (T, nat), t: seq<(T, nat)>)
    ensures SumCounts([p] + t) == p.1 + SumCounts(t)
    decreases |t|
  {
    if t != [] {
      SumCountsCons(p, t[..|t| - 1]);
      assert ([p] + t)[..|[p] + t| - 1] == [p] + t[..|t| - 1];
    }
  }

  /** The counter has one pair per distinct element of xs, in first-seen
      order, each carrying that element's number of occurrences, and the
      counts add up to |xs|. */
  lemma TallyFacts<T>(xs: seq<T>)
    ensures Keys(Tally(xs)) == AddNew([], xs)
    ensures NoDups(Keys(Tally(xs)))
    ensures forall i | 0 <= i < |Tally(xs)| :: Tally(xs)[i].1 == Count(xs, Tally(xs)[i].0)
    ensures SumCounts(Tally(xs)) == |xs|
  {
    TallyKeys(xs);
    AddNewNoDups([], xs);
    TallyCounts(xs);
    TallySum(xs);
  }

  lemma {:induction false} TallyKeys<T>(xs: seq<T>)
    ensures Keys(Tally(xs)) == AddNew([], xs)
    decreases |xs|
  {
    if xs != [] {
      var init := xs[..|xs| - 1];
      TallyKeys(init);
      BumpKeys(Tally(init), xs[|xs| - 1]);
    }
  }

  lemma {:induction false} TallyCounts<T>(xs: seq<T>)
    ensures forall i | 0 <= i < |Tally(xs)| :: Tally(xs)[i].1 == Count(xs, Tally(xs)[i].0)
    decreases |xs|
  {
    if xs != [] {
      var init := xs[..|xs| - 1];
      var x := xs[|xs| - 1];
      var t := Tally(init);
      TallyCounts(init);
      TallyKeys(init);
      AddNewNoDups([], init);
      AddNewMembers([], init);
      BumpCounts(t, x);
      var b := Bump(t, x);
      assert b == Tally(xs);
      forall i | 0 <= i < |b| ensures b[i].1 == Count(xs, b[i].0) {
        if i < |t| {
          assert b[i].0 == t[i].0;
        } else {
          assert x !in Keys(t);
          assert b[i] == (x, 1);
        }
      }
    }
  }

  lemma {:induction false} TallySum<T>(xs: seq<T>)
    ensures SumCounts(Tally(xs)) == |xs|
    decreases |xs|
  {
    if xs != [] {
      var init := xs[..|xs| - 1];
      TallySum(init);
      BumpSum(Tally(init), xs[|xs| - 1]);
    }
  }

  function Sum(xs: seq<int>): int
    decreases |xs|
  {
    if xs == [] then 0 else Sum(xs[..|xs| - 1]) + xs[|xs| - 1]
  }

  // ---------------------------------------------------------------------
  // Insertion-ordered keys of a dict
  // ---------------------------------------------------------------------

  /** An order lists exactly the keys of its dictionary, each once. */
  predicate Enumerates<K, V>(order: seq<K>, m: map<K, V>)
  {
    NoDups(order)
    && (forall i | 0 <= i < |order| :: order[i] in m)
    && (forall id | id in m :: id in order)
  }

  /** Inserting a key into a dictionary: a new key goes last, an existing
      one keeps its place. */
  function InsertKey<K(==)>(order: seq<K>, id: K): seq<K>
  {
    if id in order then order else order + [id]
  }

  /** Deleting a key from a dictionary's order. */
  function RemoveKey<K(==)>(order: seq<K>, id: K): (r: seq<K>)
    ensures forall x | x in r :: x in order && x != id
    ensures forall x | x in order && x != id :: x in r
    decreases |order|
  {
    if order == [] then []
    else if order[0] == id then RemoveKey(order[1..], id)
    else [order[0]] + RemoveKey(order[1..], id)
  }

  lemma {:induction false} RemoveKeyNoDups<K>(order: seq<K>, id: K)
    requires NoDups(order)
    ensures NoDups(RemoveKey(order, id))
    decreases |order|
  {
    if order != [] {
      assert NoDups(order[1..]) by {
        forall i, j | 0 <= i < j < |order[1..]| ensures order[1..][i] != order[1..][j] {
          assert order[1..][i] == order[i + 1] && order[1..][j] == order[j + 1];
        }
      }
      RemoveKeyNoDups(order[1..], id);
      if order[0] != id {
        var rest := RemoveKey(order[1..], id);
        assert order[0] !in rest by {
          assert order[0] !in order[1..] by {
            forall k | 0 <= k < |order[1..]| ensures order[1..][k] != order[0] {
              assert order[1..][k] == order[k + 1];
            }
          }
        }
        forall i, j | 0 <= i < j < |[order[0]] + rest|
          ensures ([order[0]] + rest)[i] != ([order[0]] + rest)[j]
        {
          if i == 0 {
            assert ([order[0]] + rest)[j] == rest[j - 1];
          } else {
            assert ([order[0]] + rest)[i] == rest[i - 1];
            assert ([order[0]] + rest)[j] == rest[j - 1];
          }
        }
      }
    }
  }

  lemma InsertKeyEnumerates<K, V>(order: seq<K>, m: map<K, V>, id: K, v: V)
    requires Enumerates(order, m)
    ensures Enumerates(InsertKey(order, id), m[id := v])
  {
    if id !in order {
      var r := order + [id];
      forall i, j | 0 <= i < j < |r| ensures r[i] != r[j] {
        if j == |order| {
          assert r[i] == order[i];
        }
      }
    }
  }

  lemma RemoveKeyEnumerates<K, V>(order: seq<K>, m: map<K, V>, id: K)
    requires Enumerates(order, m)
    ensures Enumerates(RemoveKey(order, id), m - {id})
  {
    RemoveKeyNoDups(order, id);
    var r := RemoveKey(order, id);
    forall i | 0 <= i < |r| ensures r[i] in m - {id} {
      assert r[i] in r;
    }
  }
}

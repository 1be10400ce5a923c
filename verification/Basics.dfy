/** Vocabulary shared by all modules: identifiers, optional values, and facts about duplicate-free lists. */
module Basics {

  /** The unique identifier of a file: its hash and length. Only its identity matters here. */
  type Uid(==, 0, !new) = nat

  datatype Option<+T> = None | Some(value: T)

  /** Python's `set(xs)`. */
  function ToSet<T>(xs: seq<T>): set<T> {
    set x | x in xs
  }

  ghost predicate NoDup<T>(xs: seq<T>) {
    forall i, j :: 0 <= i < j < |xs| ==> xs[i] != xs[j]
  }

  /** A duplicate-free list has as many entries as its set has elements. */
  lemma {:induction false} NoDupSize<T>(xs: seq<T>)
    requires NoDup(xs)
    ensures |ToSet(xs)| == |xs|
  {
    if xs != [] {
      var last := |xs| - 1;
      NoDupSize(xs[..last]);
      assert ToSet(xs) == ToSet(xs[..last]) + {xs[last]};
    }
  }

  lemma SplitHead<T>(xs: seq<T>)
    requires NoDup(xs) && xs != []
    ensures NoDup(xs[1..]) && xs[0] !in xs[1..] && xs[0] !in ToSet(xs[1..])
    ensures ToSet(xs) == ToSet(xs[1..]) + {xs[0]}
  {
    assert xs == [xs[0]] + xs[1..];
  }

  lemma ConcatTail<T>(xs: seq<T>, ys: seq<T>)
    requires xs != []
    ensures xs + ys != [] && (xs + ys)[0] == xs[0] && (xs + ys)[1..] == xs[1..] + ys
  {
  }

  lemma ConcatThree<T>(a: seq<T>, b: seq<T>, c: seq<T>)
    ensures (a + b) + c == a + (b + c)
  {
  }

  lemma NoDupConcat<T>(xs: seq<T>, ys: seq<T>)
    requires NoDup(xs) && NoDup(ys) && ToSet(xs) !! ToSet(ys)
    ensures NoDup(xs + ys)
    ensures ToSet(xs + ys) == ToSet(xs) + ToSet(ys)
  {
    forall i, j | 0 <= i < j < |xs + ys|
      ensures (xs + ys)[i] != (xs + ys)[j]
    {
      if i < |xs| <= j {
        assert xs[i] in ToSet(xs) && ys[j - |xs|] in ToSet(ys);
      }
    }
  }

  lemma AppendNew<T>(xs: seq<T>, x: T)
    requires NoDup(xs) && x !in ToSet(xs)
    ensures NoDup(xs + [x]) && ToSet(xs + [x]) == ToSet(xs) + {x}
  {
    assert forall i :: 0 <= i < |xs| ==> xs[i] in ToSet(xs);
  }

  lemma UnionSize<T>(a: set<T>, b: set<T>)
    requires a !! b
    ensures |a + b| == |a| + |b|
  {
  }

  lemma SingleSizes<T>(a: set<T>, x: T)
    ensures x !in a ==> |a + {x}| == |a| + 1
    ensures x in a ==> |a - {x}| == |a| - 1
  {
  }

  lemma SubsetSize<T>(a: set<T>, b: set<T>)
    requires a <= b
    ensures |a| <= |b|
  {
    assert b == a + (b - a);
  }

  /** Python's `xs.remove(x)`: drops the first occurrence of `x`. */
  function RemoveFirst<T(==)>(xs: seq<T>, x: T): (r: seq<T>)
    requires x in xs
  {
    if xs[0] == x then xs[1..] else [xs[0]] + RemoveFirst(xs[1..], x)
  }

  lemma {:induction false} RemoveFirstMember<T>(xs: seq<T>, x: T, y: T)
    requires NoDup(xs) && x in xs
    ensures y in RemoveFirst(xs, x) <==> y in xs && y != x
  {
    SplitHead(xs);
    assert y in xs <==> y == xs[0] || y in xs[1..];
    if xs[0] != x {
      RemoveFirstMember(xs[1..], x, y);
    }
  }

  lemma {:induction false} RemoveFirstNoDup<T>(xs: seq<T>, x: T)
    requires NoDup(xs) && x in xs
    ensures NoDup(RemoveFirst(xs, x))
  {
    SplitHead(xs);
    if xs[0] != x {
      RemoveFirstNoDup(xs[1..], x);
      RemoveFirstMember(xs[1..], x, xs[0]);
    }
  }

  /** Removing from a duplicate-free list removes the element from its set. */
  lemma RemoveFirstFromNoDup<T>(xs: seq<T>, x: T)
    requires NoDup(xs) && x in xs
    ensures NoDup(RemoveFirst(xs, x))
    ensures ToSet(RemoveFirst(xs, x)) == ToSet(xs) - {x}
  {
    RemoveFirstNoDup(xs, x);
    forall y
      ensures y in ToSet(RemoveFirst(xs, x)) <==> y in ToSet(xs) - {x}
    {
      RemoveFirstMember(xs, x, y);
    }
    assert ToSet(RemoveFirst(xs, x)) == ToSet(xs) - {x};
  }

  /** Applies `f` to the values stored under `keys`. */
  function Over<V>(m: map<Uid, V>, f: V -> V, keys: set<Uid>): map<Uid, V> {
    map k | k in m :: if k in keys then f(m[k]) else m[k]
  }

  lemma OverNone<V>(m: map<Uid, V>, f: V -> V)
    ensures Over(m, f, {}) == m
  {
  }

  /** Applying `f` to one more key can be done first. */
  lemma OverUpdated<V>(m: map<Uid, V>, f: V -> V, keys: set<Uid>, k: Uid)
    requires k in m && k !in keys
    ensures Over(m[k := f(m[k])], f, keys) == Over(m, f, keys + {k})
  {
    assert Over(m[k := f(m[k])], f, keys).Keys == Over(m, f, keys + {k}).Keys;
  }

  /** Python's `list(s)`: the elements of a set in an order the caller cannot rely on. */
  method SetToList<T(==)>(s: set<T>) returns (xs: seq<T>)
    ensures NoDup(xs)
    ensures ToSet(xs) == s
  {
    xs := [];
    var rest := s;
    while rest != {}
      invariant NoDup(xs)
      invariant ToSet(xs) !! rest
      invariant ToSet(xs) + rest == s
      decreases rest
    {
      var x :| x in rest;
      assert forall k :: 0 <= k < |xs| ==> xs[k] in ToSet(xs);
      xs, rest := xs + [x], rest - {x};
    }
  }
}

/** Sorting by a key, and why the result does not depend on the order of the input. */
module Sorting {

  // ---- the order of texts and of tuples of texts ----

  /** Code-point order of strings. */
  predicate TextLe(a: string, b: string)
    decreases |a|
  {
    a == [] || (b != [] && (a[0] < b[0] || (a[0] == b[0] && TextLe(a[1..], b[1..]))))
  }

  /** Order of tuples of texts: the first difference decides. */
  predicate KeyLe(a: seq<string>, b: seq<string>)
    decreases |a|
  {
    a == [] || (b != [] && if a[0] == b[0] then KeyLe(a[1..], b[1..]) else TextLe(a[0], b[0]))
  }

  lemma {:induction false} TextTotal(a: string, b: string)
    ensures TextLe(a, b) || TextLe(b, a)
    ensures TextLe(a, b) && TextLe(b, a) ==> a == b
    decreases |a|
  {
    if a != [] && b != [] {
      TextTotal(a[1..], b[1..]);
      if a[0] == b[0] && a[1..] == b[1..] {
        assert a == [a[0]] + a[1..] && b == [b[0]] + b[1..];
      }
    }
  }

  lemma {:induction false} TextTransitive(a: string, b: string, c: string)
    requires TextLe(a, b) && TextLe(b, c)
    ensures TextLe(a, c)
    decreases |a|
  {
    if a != [] && a[0] == b[0] == c[0] {
      TextTransitive(a[1..], b[1..], c[1..]);
    }
  }

  lemma {:induction false} KeyTotal(a: seq<string>, b: seq<string>)
    ensures KeyLe(a, b) || KeyLe(b, a)
    ensures KeyLe(a, b) && KeyLe(b, a) ==> a == b
    decreases |a|
  {
    if a != [] && b != [] {
      if a[0] == b[0] {
        KeyTotal(a[1..], b[1..]);
        if a[1..] == b[1..] {
          assert a == [a[0]] + a[1..] && b == [b[0]] + b[1..];
        }
      } else {
        TextTotal(a[0], b[0]);
      }
    }
  }

  lemma {:induction false} KeyTransitive(a: seq<string>, b: seq<string>, c: seq<string>)
    requires KeyLe(a, b) && KeyLe(b, c)
    ensures KeyLe(a, c)
    decreases |a|
  {
    if a != [] {
      if a[0] == b[0] && b[0] == c[0] {
        KeyTransitive(a[1..], b[1..], c[1..]);
      } else if a[0] != b[0] && b[0] != c[0] {
        TextTransitive(a[0], b[0], c[0]);
        TextTotal(a[0], b[0]);
        TextTotal(b[0], c[0]);
      }
    }
  }

  /** The texts agree up to a place where the first has the smaller character. */
  ghost predicate SmallerAt(a: string, b: string, i: nat) {
    i < |a| && i < |b| && a[..i] == b[..i] && a[i] < b[i]
  }

  /** Code-point order: a text is at most another exactly when it is a prefix of it, or has the smaller character where
      they first differ. */
  lemma {:induction false} TextOrder(a: string, b: string)
    ensures TextLe(a, b) <==> a <= b || exists i: nat :: SmallerAt(a, b, i)
    decreases |a|
  {
    if a != [] && b != [] {
      if a[0] == b[0] {
        TextOrder(a[1..], b[1..]);
        OrderedBehind(a, b);
      } else if a[0] < b[0] {
        assert SmallerAt(a, b, 0);
      } else {
        forall i: nat
          ensures !SmallerAt(a, b, i)
        {
          assert i > 0 && i < |a| && i < |b| ==> a[..i][0] == a[0] && b[..i][0] == b[0];
        }
      }
    }
  }

  lemma OrderedBehind(a: string, b: string)
    requires a != [] && b != [] && a[0] == b[0]
    ensures a <= b <==> a[1..] <= b[1..]
    ensures (exists i: nat :: SmallerAt(a, b, i)) <==> exists i: nat :: SmallerAt(a[1..], b[1..], i)
  {
    assert a == [a[0]] + a[1..] && b == [b[0]] + b[1..];
    if i: nat :| SmallerAt(a, b, i) {
      assert i > 0;
      assert a[1..][..i - 1] == a[..i][1..] && b[1..][..i - 1] == b[..i][1..];
      assert SmallerAt(a[1..], b[1..], i - 1);
    }
    if i: nat :| SmallerAt(a[1..], b[1..], i) {
      assert a[..i + 1] == [a[0]] + a[1..][..i] && b[..i + 1] == [b[0]] + b[1..][..i];
      assert SmallerAt(a, b, i + 1);
    }
  }

  /** Tuples are ordered by the texts at their first difference. */
  lemma {:induction false} KeyOrder(a: seq<string>, b: seq<string>, i: nat)
    requires i < |a| && i < |b| && a[..i] == b[..i] && a[i] != b[i]
    ensures KeyLe(a, b) <==> TextLe(a[i], b[i])
    decreases i
  {
    if i > 0 {
      assert a[..i][0] == a[0] && b[..i][0] == b[0];
      assert a[1..][..i - 1] == a[..i][1..] && b[1..][..i - 1] == b[..i][1..];
      KeyOrder(a[1..], b[1..], i - 1);
    }
  }

  lemma SingleKey(x: string, y: string)
    ensures KeyLe([x], [y]) <==> TextLe(x, y)
  {
    TextTotal(x, y);
    assert [x][1..] == [];
  }

  // ---- sorting ----

  function Insert<T>(x: T, s: seq<T>, key: T -> seq<string>): (r: seq<T>)
    ensures multiset(r) == multiset(s) + multiset{x}
    ensures |r| == |s| + 1
    decreases |s|
  {
    if s == [] then [x]
    else if KeyLe(key(x), key(s[0])) then [x] + s
    else
      assert s == [s[0]] + s[1..];
      [s[0]] + Insert(x, s[1..], key)
  }

  /** `sorted(s, key=...)`. */
  function Sorted<T>(s: seq<T>, key: T -> seq<string>): (r: seq<T>)
    ensures multiset(r) == multiset(s)
    ensures |r| == |s|
    decreases |s|
  {
    if s == [] then []
    else
      assert s == [s[0]] + s[1..];
      Insert(s[0], Sorted(s[1..], key), key)
  }

  ghost predicate Ordered<T>(s: seq<T>, key: T -> seq<string>) {
    forall i, j :: 0 <= i < j < |s| ==> KeyLe(key(s[i]), key(s[j]))
  }

  lemma {:induction false} InsertOrdered<T>(x: T, s: seq<T>, key: T -> seq<string>)
    requires Ordered(s, key)
    ensures Ordered(Insert(x, s, key), key)
    decreases |s|
  {
    if s != [] {
      var r := Insert(x, s, key);
      KeyTotal(key(x), key(s[0]));
      if KeyLe(key(x), key(s[0])) {
        forall j | 0 <= j < |s|
          ensures KeyLe(key(x), key(s[j]))
        {
          if j > 0 {
            KeyTransitive(key(x), key(s[0]), key(s[j]));
          }
        }
      } else {
        var rest := Insert(x, s[1..], key);
        InsertOrdered(x, s[1..], key);
        forall j | 0 <= j < |rest|
          ensures KeyLe(key(s[0]), key(rest[j]))
        {
          assert rest[j] in multiset(rest);
          assert rest[j] == x || rest[j] in s[1..];
        }
      }
    }
  }

  lemma {:induction false} SortedOrdered<T>(s: seq<T>, key: T -> seq<string>)
    ensures Ordered(Sorted(s, key), key)
    decreases |s|
  {
    if s != [] {
      SortedOrdered(s[1..], key);
      InsertOrdered(s[0], Sorted(s[1..], key), key);
    }
  }

  lemma SortedCons<T>(x: T, s: seq<T>, key: T -> seq<string>)
    ensures Sorted([x] + s, key) == Insert(x, Sorted(s, key), key)
  {
    assert ([x] + s)[1..] == s;
  }

  /** Sorting an ordered sequence changes nothing. */
  lemma {:induction false} SortedOfOrdered<T>(s: seq<T>, key: T -> seq<string>)
    requires Ordered(s, key)
    ensures Sorted(s, key) == s
    decreases |s|
  {
    if s != [] {
      SortedOfOrdered(s[1..], key);
      assert s == [s[0]] + s[1..];
    }
  }

  /** The key tells the elements of a sequence apart. */
  ghost predicate Distinguishes<T>(s: seq<T>, key: T -> seq<string>) {
    forall i, j :: 0 <= i < |s| && 0 <= j < |s| && key(s[i]) == key(s[j]) ==> s[i] == s[j]
  }

  lemma SameHead<T>(s: seq<T>, t: seq<T>, key: T -> seq<string>)
    requires s != [] && Ordered(s, key) && Ordered(t, key) && Distinguishes(s, key) && multiset(s) == multiset(t)
    ensures t != [] && s[0] == t[0]
  {
    hide KeyLe;
    assert s[0] in multiset(t);
    var i :| 0 <= i < |t| && t[i] == s[0];
    assert t[0] in multiset(s);
    var j :| 0 <= j < |s| && s[j] == t[0];
    KeyTotal(key(s[0]), key(s[j]));
    KeyTotal(key(t[0]), key(t[i]));
  }

  lemma TailElements<T>(s: seq<T>)
    requires s != []
    ensures multiset(s[1..]) == multiset(s) - multiset{s[0]}
  {
    assert s == [s[0]] + s[1..];
  }

  /** Ordered sequences of the same elements are the same sequence. */
  lemma {:induction false} OrderedUnique<T>(s: seq<T>, t: seq<T>, key: T -> seq<string>)
    requires Ordered(s, key) && Ordered(t, key) && Distinguishes(s, key) && multiset(s) == multiset(t)
    ensures s == t
    decreases |s|
  {
    hide KeyLe;
    if s == [] {
      assert |multiset(t)| == 0;
    } else {
      SameHead(s, t, key);
      TailElements(s);
      TailElements(t);
      OrderedUnique(s[1..], t[1..], key);
      assert s == [s[0]] + s[1..] && t == [t[0]] + t[1..];
    }
  }

  /** Sorting by a key that tells the elements apart forgets their order. */
  lemma SortedForgetsOrder<T>(s: seq<T>, t: seq<T>, key: T -> seq<string>)
    requires multiset(s) == multiset(t) && Distinguishes(s, key)
    ensures Sorted(s, key) == Sorted(t, key)
  {
    var u, v := Sorted(s, key), Sorted(t, key);
    SortedOrdered(s, key);
    SortedOrdered(t, key);
    forall i, j | 0 <= i < |u| && 0 <= j < |u| && key(u[i]) == key(u[j])
      ensures u[i] == u[j]
    {
      assert u[i] in multiset(u) && u[j] in multiset(u);
      assert u[i] in s && u[j] in s;
    }
    OrderedUnique(u, v, key);
  }

  // ---- elements and their number ----

  /** The key occurs once. */
  ghost predicate DistinctBy<T>(s: seq<T>, key: T -> seq<string>) {
    forall i, j :: 0 <= i < j < |s| ==> key(s[i]) != key(s[j])
  }

  lemma TwiceInSequence<T>(s: seq<T>, i: nat, j: nat)
    requires i < j < |s| && s[i] == s[j]
    ensures multiset(s)[s[i]] >= 2
  {
    assert s == s[..i] + [s[i]] + s[i + 1..j] + [s[j]] + s[j + 1..];
  }

  lemma {:induction false} OnceInSequence<T>(s: seq<T>, key: T -> seq<string>, x: T)
    requires DistinctBy(s, key)
    ensures multiset(s)[x] <= 1
    decreases |s|
  {
    if s != [] {
      assert s == [s[0]] + s[1..];
      if x == s[0] {
        assert x !in s[1..];
        assert x !in multiset(s[1..]);
      } else {
        OnceInSequence(s[1..], key, x);
      }
    }
  }

  /** Distinctness is a matter of the elements, not of their order. */
  lemma DistinctForgetsOrder<T>(s: seq<T>, t: seq<T>, key: T -> seq<string>)
    requires DistinctBy(s, key) && multiset(s) == multiset(t)
    ensures DistinctBy(t, key)
  {
    forall i, j | 0 <= i < j < |t|
      ensures key(t[i]) != key(t[j])
    {
      if t[i] == t[j] {
        TwiceInSequence(t, i, j);
        OnceInSequence(s, key, t[i]);
        assert false;
      }
      assert t[i] in multiset(s) && t[j] in multiset(s);
      assert t[i] in s && t[j] in s;
    }
  }

  lemma DistinctDistinguishes<T>(s: seq<T>, key: T -> seq<string>)
    requires DistinctBy(s, key)
    ensures Distinguishes(s, key)
  {
  }

  function Mapped<T, U>(s: seq<T>, f: T -> U): (r: seq<U>)
    ensures |r| == |s|
    ensures forall i :: 0 <= i < |s| ==> r[i] == f(s[i])
  {
    seq(|s|, i requires 0 <= i < |s| => f(s[i]))
  }

  function Dropped<T>(s: seq<T>, j: nat): seq<T>
    requires j < |s|
  {
    s[..j] + s[j + 1..]
  }

  lemma DroppedElements<T>(s: seq<T>, j: nat)
    requires j < |s|
    ensures multiset(s) == multiset(Dropped(s, j)) + multiset{s[j]}
    ensures multiset(Dropped(s, j)) == multiset(s) - multiset{s[j]}
  {
    assert s == s[..j] + [s[j]] + s[j + 1..];
  }

  lemma MappedDropped<T, U>(s: seq<T>, j: nat, f: T -> U)
    requires j < |s|
    ensures multiset(Mapped(s, f)) == multiset(Mapped(Dropped(s, j), f)) + multiset{f(s[j])}
  {
    assert Mapped(Dropped(s, j), f) == Dropped(Mapped(s, f), j);
    DroppedElements(Mapped(s, f), j);
  }

  /** Mapping keeps sequences of the same elements so. */
  lemma {:induction false} MappedSameElements<T, U>(s: seq<T>, t: seq<T>, f: T -> U)
    requires multiset(s) == multiset(t)
    ensures multiset(Mapped(s, f)) == multiset(Mapped(t, f))
    decreases |s|
  {
    hide Mapped, Dropped;
    if s == [] {
      assert |multiset(t)| == 0;
    } else {
      assert s[0] in multiset(t);
      var j :| 0 <= j < |t| && t[j] == s[0];
      DroppedElements(s, 0);
      DroppedElements(t, j);
      assert |Dropped(s, 0)| == |s| - 1 by { DroppedLength(s, 0); }
      MappedSameElements(Dropped(s, 0), Dropped(t, j), f);
      MappedDropped(s, 0, f);
      MappedDropped(t, j, f);
    }
  }

  lemma DroppedLength<T>(s: seq<T>, j: nat)
    requires j < |s|
    ensures |Dropped(s, j)| == |s| - 1
  {
  }

  // ---- permutations ----

  /** `p` maps the positions of a sequence of length `n` one to one onto themselves. */
  predicate Permutation(p: seq<nat>, n: nat) {
    && |p| == n
    && (forall i :: 0 <= i < n ==> p[i] < n)
    && (forall i, j :: 0 <= i < j < n ==> p[i] != p[j])
  }

  /** `t` is `s` rearranged: element `i` of `s` is element `p[i]` of `t`. */
  predicate Moved<T(==)>(s: seq<T>, t: seq<T>, p: seq<nat>) {
    Permutation(p, |s|) && |t| == |s| && forall i :: 0 <= i < |s| ==> t[p[i]] == s[i]
  }

  function Without(p: seq<nat>, j: nat): (r: seq<nat>)
    ensures |r| == |p|
  {
    seq(|p|, i requires 0 <= i < |p| => if p[i] < j then p[i] else p[i] - if p[i] > j then 1 else 0)
  }

  lemma MovedWithoutFirst<T>(s: seq<T>, t: seq<T>, p: seq<nat>)
    requires Moved(s, t, p) && s != []
    ensures Moved(s[1..], Dropped(t, p[0]), Without(p[1..], p[0]))
  {
    var j, rest := p[0], p[1..];
    var p' := Without(rest, j);
    assert forall i :: 0 <= i < |rest| ==> rest[i] == p[i + 1] && rest[i] != j;
    assert Permutation(p', |s| - 1);
    forall i | 0 <= i < |p'|
      ensures Dropped(t, j)[p'[i]] == s[1..][i]
    {
      assert t[p[i + 1]] == s[i + 1];
    }
  }

  lemma {:induction false} MovedSameElements<T>(s: seq<T>, t: seq<T>, p: seq<nat>)
    requires Moved(s, t, p)
    ensures multiset(s) == multiset(t)
    decreases |s|
  {
    hide Without, Dropped;
    if s != [] {
      var j := p[0];
      MovedWithoutFirst(s, t, p);
      MovedSameElements(s[1..], Dropped(t, j), Without(p[1..], j));
      assert s == [s[0]] + s[1..];
      DroppedElements(t, j);
    }
  }
}

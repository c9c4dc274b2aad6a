/** `Vec<String>::sort`: byte-wise lexicographic order, which on `char` sequences is code-point order. */
module NameOrder {
  import opened Seqs

  /** `a <= b` in the order of `String`'s `Ord`. */
  predicate LexLe(a: string, b: string)
    decreases |a|
  {
    a == [] || (b != [] && (a[0] < b[0] || (a[0] == b[0] && LexLe(a[1..], b[1..]))))
  }

  lemma {:induction false} LexLeTotal(a: string, b: string)
    ensures LexLe(a, b) || LexLe(b, a)
    decreases |a|
  {
    if a != [] && b != [] && a[0] == b[0] {
      LexLeTotal(a[1..], b[1..]);
    }
  }

  lemma {:induction false} LexLeTransitive(a: string, b: string, c: string)
    requires LexLe(a, b) && LexLe(b, c)
    ensures LexLe(a, c)
    decreases |a|
  {
    if a != [] && b != [] && c != [] && a[0] == b[0] && b[0] == c[0] {
      LexLeTransitive(a[1..], b[1..], c[1..]);
    }
  }

  lemma {:induction false} LexLeAntisymmetric(a: string, b: string)
    requires LexLe(a, b) && LexLe(b, a)
    ensures a == b
    decreases |a|
  {
    if a != [] {
      LexLeAntisymmetric(a[1..], b[1..]);
      assert a == [a[0]] + a[1..] && b == [b[0]] + b[1..];
    }
  }

  predicate Sorted(xs: seq<string>) {
    forall i, j :: 0 <= i < j < |xs| ==> LexLe(xs[i], xs[j])
  }

  /** Sorted with no name twice: each name strictly before the next. */
  predicate StrictlySorted(xs: seq<string>) {
    forall i, j :: 0 <= i < j < |xs| ==> LexLe(xs[i], xs[j]) && xs[i] != xs[j]
  }

  function Insert(x: string, ys: seq<string>): (r: seq<string>)
    requires Sorted(ys)
    ensures multiset(r) == multiset(ys) + multiset{x}
    ensures Sorted(r)
  {
    if ys == [] then [x]
    else if LexLe(x, ys[0]) then
      InsertFront(x, ys);
      [x] + ys
    else
      LexLeTotal(x, ys[0]);
      var rest := Insert(x, ys[1..]);
      assert ys == [ys[0]] + ys[1..];
      InsertBehind(ys[0], rest, x, ys[1..]);
      [ys[0]] + rest
  }

  lemma InsertFront(x: string, ys: seq<string>)
    requires Sorted(ys) && ys != [] && LexLe(x, ys[0])
    ensures Sorted([x] + ys)
  {
    var r := [x] + ys;
    forall i, j | 0 <= i < j < |r| ensures LexLe(r[i], r[j]) {
      assert r[j] == ys[j - 1];
      if i == 0 {
        if j > 1 {
          LexLeTransitive(x, ys[0], ys[j - 1]);
        }
      } else {
        assert r[i] == ys[i - 1];
      }
    }
  }

  lemma InsertBehind(head: string, rest: seq<string>, x: string, tail: seq<string>)
    requires Sorted(rest) && Sorted([head] + tail) && LexLe(head, x)
    requires multiset(rest) == multiset(tail) + multiset{x}
    ensures Sorted([head] + rest)
  {
    var r := [head] + rest;
    forall i, j | 0 <= i < j < |r| ensures LexLe(r[i], r[j]) {
      assert r[j] == rest[j - 1];
      if i == 0 {
        assert rest[j - 1] in multiset(rest);
        if rest[j - 1] != x {
          assert rest[j - 1] in multiset(tail);
          var k :| 0 <= k < |tail| && tail[k] == rest[j - 1];
          assert ([head] + tail)[0] == head && ([head] + tail)[k + 1] == rest[j - 1];
        }
      } else {
        assert r[i] == rest[i - 1];
      }
    }
  }

  /** `sort()`: the same names, in order. */
  function Sort(xs: seq<string>): (r: seq<string>)
    ensures multiset(r) == multiset(xs)
    ensures Sorted(r)
  {
    if xs == [] then []
    else
      assert xs == xs[..|xs| - 1] + [xs[|xs| - 1]];
      Insert(xs[|xs| - 1], Sort(xs[..|xs| - 1]))
  }

  /** A list with no name twice holds each name at most once. */
  lemma {:induction false} NoDupCount(xs: seq<string>, v: string)
    requires NoDup(xs)
    ensures multiset(xs)[v] <= 1
  {
    if xs != [] {
      assert xs == [xs[0]] + xs[1..];
      assert NoDup(xs[1..]) by {
        forall i, j | 0 <= i < j < |xs| - 1 ensures xs[1..][i] != xs[1..][j] {
          assert xs[1..][i] == xs[i + 1] && xs[1..][j] == xs[j + 1];
        }
      }
      NoDupCount(xs[1..], v);
      if xs[0] == v {
        assert v !in xs[1..] by {
          forall k | 0 <= k < |xs| - 1 ensures xs[1..][k] != v {
            assert xs[1..][k] == xs[k + 1];
          }
        }
      }
    }
  }

  /** Sorting a list of distinct names gives them in strictly increasing order. */
  lemma SortDistinct(xs: seq<string>)
    requires NoDup(xs)
    ensures StrictlySorted(Sort(xs))
  {
    var ys := Sort(xs);
    forall i, j | 0 <= i < j < |ys| ensures ys[i] != ys[j] {
      if ys[i] == ys[j] {
        CountTwice(ys, i, j);
        NoDupCount(xs, ys[i]);
      }
    }
  }

  /** A name at two positions occurs at least twice. */
  lemma CountTwice(ys: seq<string>, i: int, j: int)
    requires 0 <= i < j < |ys| && ys[i] == ys[j]
    ensures multiset(ys)[ys[i]] >= 2
  {
    var v := ys[i];
    assert ys == ys[..j] + ys[j..];
    assert ys[..j][i] == v && ys[j..][0] == v;
    assert multiset(ys)[v] == multiset(ys[..j])[v] + multiset(ys[j..])[v];
  }
}

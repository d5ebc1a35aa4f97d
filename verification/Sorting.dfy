// The sorted arrangement of a finite set under a strict total order, and the
// order of strings by their characters.
module Sorting {
  import opened Core

  ghost predicate TotalOrder<T(!new)>(less: (T, T) -> bool) {
    && (forall a :: !less(a, a))
    && (forall a, b :: a != b ==> less(a, b) || less(b, a))
    && (forall a, b, c :: less(a, b) && less(b, c) ==> less(a, c))
  }

  ghost predicate SortedBy<T(!new)>(s: seq<T>, less: (T, T) -> bool) {
    forall i, j :: 0 <= i < j < |s| ==> less(s[i], s[j])
  }

  lemma OrderOf<T(!new)>(less: (T, T) -> bool, a: T, b: T, c: T)
    requires TotalOrder(less)
    ensures a != b ==> less(a, b) || less(b, a)
    ensures less(a, b) && less(b, c) ==> less(a, c)
  {
  }

  predicate Least<T(==, !new)>(s: set<T>, less: (T, T) -> bool, m: T) {
    m in s && forall x :: x in s && x != m ==> less(m, x)
  }

  lemma {:induction false} LeastExists<T(!new)>(s: set<T>, less: (T, T) -> bool) returns (m: T)
    requires TotalOrder(less) && s != {}
    ensures Least(s, less, m)
  {
    hide TotalOrder;
    m :| m in s;
    if exists y :: y in s && y != m {
      var x := m;
      var y :| y in s && y != x;
      var rest := s - {x};
      assert y in rest;
      m := LeastExists(rest, less);
      OrderOf(less, x, m, m);
      if less(x, m) {
        forall z | z in s && z != x ensures less(x, z) {
          OrderOf(less, x, m, z);
        }
        m := x;
      }
    }
  }

  /** The elements of s in their order. */
  function Sorted<T(!new)>(s: set<T>, less: (T, T) -> bool): (r: seq<T>)
    requires TotalOrder(less)
    ensures SortedBy(r, less)
    ensures forall x :: x in r <==> x in s
    ensures |r| == |s|
  {
    if s == {} then []
    else
      assert exists m :: Least(s, less, m) by { var m := LeastExists(s, less); }
      var m :| Least(s, less, m);
      var rest := Sorted(s - {m}, less);
      assert forall i :: 0 <= i < |rest| ==> rest[i] in rest;
      [m] + rest
  }

  /** A set has one sorted arrangement. */
  lemma {:induction false} SortedUnique<T(!new)>(a: seq<T>, b: seq<T>, less: (T, T) -> bool)
    requires TotalOrder(less) && SortedBy(a, less) && SortedBy(b, less)
    requires forall x :: x in a <==> x in b
    ensures a == b
  {
    if a == [] {
      assert forall i :: 0 <= i < |b| ==> b[i] in b;
    } else {
      assert a[0] in a;
      assert a[0] in b;
      assert b[0] in b;
      assert b[0] in a;
      SortedHead(a, less);
      SortedHead(b, less);
      forall x ensures x in a[1..] <==> x in b[1..] {
        assert x in a <==> x == a[0] || x in a[1..];
        assert x in b <==> x == b[0] || x in b[1..];
      }
      SortedUnique(a[1..], b[1..], less);
    }
  }

  lemma SortedHead<T(!new)>(a: seq<T>, less: (T, T) -> bool)
    requires TotalOrder(less) && SortedBy(a, less) && a != []
    ensures forall x :: x in a && x != a[0] ==> less(a[0], x)
    ensures a[0] !in a[1..]
  {
  }

  function Reverse<T>(s: seq<T>): (r: seq<T>)
    ensures |r| == |s| && forall i :: 0 <= i < |s| ==> r[i] == s[|s| - 1 - i]
  {
    if s == [] then [] else Reverse(s[1..]) + [s[0]]
  }

  /** The arrangement under the opposite order is the same one read backwards. */
  lemma ReverseSorted<T(!new)>(up: seq<T>, down: seq<T>, less: (T, T) -> bool, more: (T, T) -> bool)
    requires TotalOrder(more) && SortedBy(up, less) && SortedBy(down, more)
    requires forall a, b :: more(a, b) == less(b, a)
    requires forall x :: x in up <==> x in down
    ensures down == Reverse(up)
  {
    var back := Reverse(up);
    forall i, j | 0 <= i < j < |back| ensures more(back[i], back[j]) {
      assert less(up[|up| - 1 - j], up[|up| - 1 - i]);
    }
    forall x ensures x in back <==> x in down {
      if x in back {
        var i :| 0 <= i < |back| && back[i] == x;
        assert up[|up| - 1 - i] in up;
      }
      if x in down {
        var i :| 0 <= i < |up| && up[i] == x;
        assert back[|up| - 1 - i] == x;
      }
    }
    hide TotalOrder;
    SortedUnique(back, down, more);
  }

  lemma {:induction false} FilterSorted<T(!new)>(s: seq<T>, p: T -> bool, less: (T, T) -> bool)
    requires SortedBy(s, less)
    ensures SortedBy(Filter(s, p), less)
  {
    if s != [] {
      var init, last := s[..|s| - 1], s[|s| - 1];
      FilterSorted(init, p, less);
      forall x | x in Filter(init, p) ensures less(x, last) {
        var i :| 0 <= i < |init| && init[i] == x;
        assert s[i] == x;
      }
      var kept := Filter(init, p);
      assert forall i :: 0 <= i < |kept| ==> kept[i] in kept;
    }
  }

  /** The order of two strings: the first character that differs decides, and a proper
      prefix comes first. */
  function StringLess(a: string, b: string): bool {
    if b == "" then false
    else if a == "" then true
    else if a[0] != b[0] then a[0] < b[0]
    else StringLess(a[1..], b[1..])
  }

  lemma {:induction false} StringLessTotal(a: string, b: string)
    ensures !StringLess(a, a)
    ensures a != b ==> StringLess(a, b) || StringLess(b, a)
    ensures !(StringLess(a, b) && StringLess(b, a))
  {
    if a != "" { StringLessTotal(a[1..], if b != "" then b[1..] else ""); }
    if a != "" && b != "" && a[0] == b[0] && a != b {
      assert a == [a[0]] + a[1..] && b == [b[0]] + b[1..];
    }
  }

  lemma {:induction false} StringLessIff(a: string, b: string)
    ensures StringLess(a, b) <==>
              exists n :: 0 <= n <= |a| && n < |b| && a[..n] == b[..n] && (n == |a| || a[n] < b[n])
  {
    if a != "" && b != "" && a[0] == b[0] {
      StringLessIff(a[1..], b[1..]);
      if StringLess(a, b) {
        var n :| 0 <= n <= |a[1..]| && n < |b[1..]| && a[1..][..n] == b[1..][..n] && (n == |a[1..]| || a[1..][n] < b[1..][n]);
        assert a[..n + 1] == [a[0]] + a[1..][..n] && b[..n + 1] == [b[0]] + b[1..][..n];
      }
      if n :| 0 <= n <= |a| && n < |b| && a[..n] == b[..n] && (n == |a| || a[n] < b[n]) {
        assert n > 0;
        assert a[1..][..n - 1] == a[..n][1..] && b[1..][..n - 1] == b[..n][1..];
      }
    } else if a == "" && b != "" {
      assert a[..0] == b[..0];
    } else if a != "" && b != "" {
      assert a[..0] == b[..0];
      if n :| 0 <= n <= |a| && n < |b| && a[..n] == b[..n] && (n == |a| || a[n] < b[n]) {
        assert n == 0 || a[..n][0] == b[..n][0];
      }
    }
  }

  lemma {:induction false} StringLessTransitive(a: string, b: string, c: string)
    requires StringLess(a, b) && StringLess(b, c)
    ensures StringLess(a, c)
  {
    if a != "" && a[0] == b[0] && b[0] == c[0] {
      StringLessTransitive(a[1..], b[1..], c[1..]);
    }
  }

  lemma StringOrder()
    ensures TotalOrder(StringLess)
  {
    forall a, b ensures !StringLess(a, a) && (a != b ==> StringLess(a, b) || StringLess(b, a)) {
      StringLessTotal(a, b);
    }
    forall a, b, c | StringLess(a, b) && StringLess(b, c) ensures StringLess(a, c) {
      StringLessTransitive(a, b, c);
    }
  }
}

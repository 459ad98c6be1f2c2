/** Sorting by a key, with and without equal keys; and sums that do not depend on
    the order. */
module Sorting {
  import opened Text

  ghost predicate Ascending<T>(s: seq<T>, key: T -> string) {
    forall i, j :: 0 <= i < j < |s| ==> Less(key(s[i]), key(s[j]))
  }

  function Elements<T>(s: seq<T>): set<T> {
    set x | x in s
  }

  /** The place of a new element among sorted ones. */
  function Insert<T>(x: T, s: seq<T>, key: T -> string): (r: seq<T>)
    ensures |r| == |s| + 1 && multiset(r) == multiset(s) + multiset{x}
  {
    if |s| == 0 then [x]
    else if Less(key(s[0]), key(x)) then
      assert s == [s[0]] + s[1..];
      [s[0]] + Insert(x, s[1..], key)
    else [x] + s
  }

  lemma SameElements<T>(a: seq<T>, b: seq<T>)
    requires multiset(a) == multiset(b)
    ensures Elements(a) == Elements(b)
  {
    assert forall x :: x in a <==> x in multiset(a);
    assert forall x :: x in b <==> x in multiset(b);
  }

  lemma InsertElements<T>(x: T, s: seq<T>, key: T -> string)
    ensures Elements(Insert(x, s, key)) == Elements(s) + {x}
  {
    var r := Insert(x, s, key);
    assert forall y :: y in r <==> y in multiset(r);
    assert forall y :: y in s <==> y in multiset(s);
  }

  /** A new key keeps the order, a known one breaks it. */
  lemma {:induction false} InsertAscends<T>(x: T, s: seq<T>, key: T -> string)
    requires Ascending(s, key)
    ensures Ascending(Insert(x, s, key), key) <==> forall y :: y in s ==> key(y) != key(x)
  {
    if |s| > 0 {
      if Less(key(s[0]), key(x)) {
        assert forall i, j :: 0 <= i < j < |s| - 1 ==> s[1..][i] == s[i + 1] && s[1..][j] == s[j + 1];
        InsertAscends(x, s[1..], key);
        InsertElements(x, s[1..], key);
        InsertLater(x, s, Insert(x, s[1..], key), key);
      } else {
        InsertFirst(x, s, key);
      }
    }
  }

  lemma InsertLater<T>(x: T, s: seq<T>, rest: seq<T>, key: T -> string)
    requires Ascending(s, key) && |s| > 0 && Less(key(s[0]), key(x))
    requires Elements(rest) == Elements(s[1..]) + {x}
    requires (Ascending(rest, key) <==> forall y :: y in s[1..] ==> key(y) != key(x))
    ensures Ascending([s[0]] + rest, key) <==> forall y :: y in s ==> key(y) != key(x)
  {
    LessIrreflexive(key(x));
    var r := [s[0]] + rest;
    assert s == [s[0]] + s[1..];
    forall j | 0 <= j < |rest| ensures Less(key(s[0]), key(rest[j])) {
      assert rest[j] in Elements(rest);
      if rest[j] != x {
        var k :| 0 <= k < |s[1..]| && s[1..][k] == rest[j];
        assert s[k + 1] == rest[j];
      }
    }
    assert forall j :: 0 <= j < |rest| ==> r[j + 1] == rest[j];
    assert forall j :: 0 < j < |r| ==> r[j] == rest[j - 1];
    assert Ascending(r, key) <==> Ascending(rest, key) by { AscendingAfter(s[0], rest, key); }
  }

  lemma AscendingAfter<T>(x: T, rest: seq<T>, key: T -> string)
    requires forall j :: 0 <= j < |rest| ==> Less(key(x), key(rest[j]))
    ensures Ascending([x] + rest, key) <==> Ascending(rest, key)
  {
    var r := [x] + rest;
    if Ascending(r, key) {
      forall i, j | 0 <= i < j < |rest| ensures Less(key(rest[i]), key(rest[j])) {
        assert r[i + 1] == rest[i] && r[j + 1] == rest[j];
      }
    }
  }

  lemma InsertFirst<T>(x: T, s: seq<T>, key: T -> string)
    requires Ascending(s, key) && |s| > 0 && !Less(key(s[0]), key(x))
    ensures Ascending([x] + s, key) <==> forall y :: y in s ==> key(y) != key(x)
  {
    var r := [x] + s;
    LessTotal(key(s[0]), key(x));
    LessIrreflexive(key(x));
    if forall y :: y in s ==> key(y) != key(x) {
      forall i, j | 0 <= i < j < |r| ensures Less(key(r[i]), key(r[j])) {
        assert r[j] == s[j - 1];
        if i == 0 {
          assert s[0] in s;
          if j > 1 {
            LessTransitive(key(x), key(s[0]), key(s[j - 1]));
          }
        } else {
          assert r[i] == s[i - 1];
        }
      }
    } else {
      var k :| 0 <= k < |s| && key(s[k]) == key(x);
      assert r[0] == x && r[k + 1] == s[k];
    }
  }

  /** A set has one ascending order. */
  lemma {:induction false} AscendingSame<T>(a: seq<T>, b: seq<T>, key: T -> string)
    requires Ascending(a, key) && Ascending(b, key) && Elements(a) == Elements(b)
    ensures a == b
  {
    if |a| == 0 {
      if b != [] {
        HasElements(b);
      }
    } else {
      assert a[0] in Elements(a) && a[0] in Elements(b);
      var j :| 0 <= j < |b| && b[j] == a[0];
      assert b[0] in Elements(a);
      var i :| 0 <= i < |a| && a[i] == b[0];
      SameLeast(a, b, i, j, key);
      TailElements(a, key);
      TailElements(b, key);
      assert forall k, l :: 0 <= k < l < |a| - 1 ==> a[1..][k] == a[k + 1] && a[1..][l] == a[l + 1];
      assert forall k, l :: 0 <= k < l < |b| - 1 ==> b[1..][k] == b[k + 1] && b[1..][l] == b[l + 1];
      AscendingSame(a[1..], b[1..], key);
      assert a == [a[0]] + a[1..] && b == [b[0]] + b[1..];
    }
  }

  lemma HasElements<T>(s: seq<T>)
    requires s != []
    ensures Elements(s) != {}
  {
    assert s[0] in Elements(s);
  }

  lemma SameLeast<T>(a: seq<T>, b: seq<T>, i: nat, j: nat, key: T -> string)
    requires Ascending(a, key) && Ascending(b, key) && i < |a| && j < |b| && a[i] == b[0] && b[j] == a[0]
    ensures i == 0 && j == 0
  {
    if i > 0 && j > 0 {
      LessTransitive(key(a[0]), key(a[i]), key(a[0]));
      LessIrreflexive(key(a[0]));
    } else if i > 0 {
      LessIrreflexive(key(a[0]));
    } else if j > 0 {
      LessIrreflexive(key(b[0]));
    }
  }

  lemma TailElements<T>(a: seq<T>, key: T -> string)
    requires Ascending(a, key) && |a| > 0
    ensures Elements(a[1..]) == Elements(a) - {a[0]}
  {
    assert a == [a[0]] + a[1..];
    if a[0] in a[1..] {
      var k :| 0 <= k < |a[1..]| && a[1..][k] == a[0];
      assert Less(key(a[0]), key(a[k + 1]));
      LessIrreflexive(key(a[0]));
    }
  }

  lemma AscendingDistinct<T>(s: seq<T>, key: T -> string)
    requires Ascending(s, key)
    ensures |Elements(s)| == |s|
    decreases |s|
  {
    if |s| > 0 {
      TailElements(s, key);
      assert forall k, l :: 0 <= k < l < |s| - 1 ==> s[1..][k] == s[k + 1] && s[1..][l] == s[l + 1];
      AscendingDistinct(s[1..], key);
      assert s[0] in Elements(s);
    } else {
      assert Elements(s) == {};
    }
  }

  /** `sort.Slice` by a key. */
  function Sort<T>(s: seq<T>, key: T -> string): (r: seq<T>)
    ensures |r| == |s| && multiset(r) == multiset(s)
  {
    if |s| == 0 then []
    else
      assert s == [s[0]] + s[1..];
      Insert(s[0], Sort(s[1..], key), key)
  }

  /** Nothing stands before something smaller. */
  ghost predicate InOrder<T>(s: seq<T>, key: T -> string) {
    forall i, j :: 0 <= i < j < |s| ==> !Less(key(s[j]), key(s[i]))
  }

  lemma {:induction false} InsertInOrder<T>(x: T, s: seq<T>, key: T -> string)
    requires InOrder(s, key)
    ensures InOrder(Insert(x, s, key), key)
  {
    if |s| > 0 && Less(key(s[0]), key(x)) {
      var rest := Insert(x, s[1..], key);
      InsertInOrder(x, s[1..], key);
      InsertElements(x, s[1..], key);
      forall j | 0 <= j < |rest| ensures !Less(key(rest[j]), key(s[0])) {
        assert rest[j] in Elements(rest);
        if rest[j] == x {
          NotBoth(key(s[0]), key(x));
        } else {
          var i :| 0 <= i < |s[1..]| && s[1..][i] == rest[j];
          assert s[i + 1] == rest[j];
        }
      }
      assert Insert(x, s, key) == [s[0]] + rest;
    } else if |s| > 0 {
      var all := [x] + s;
      forall j | 0 < j < |all| ensures !Less(key(all[j]), key(x)) {
        if Less(key(s[j - 1]), key(x)) {
          LessTotal(key(s[0]), key(x));
          if Less(key(x), key(s[0])) {
            LessTransitive(key(s[j - 1]), key(x), key(s[0]));
          }
          LessIrreflexive(key(x));
        }
      }
    }
  }

  lemma NotBoth(a: string, b: string)
    requires Less(a, b)
    ensures !Less(b, a)
  {
    if Less(b, a) {
      LessTransitive(a, b, a);
      LessIrreflexive(a);
    }
  }

  lemma {:induction false} SortInOrder<T>(s: seq<T>, key: T -> string)
    ensures InOrder(Sort(s, key), key)
  {
    if |s| > 0 {
      SortInOrder(s[1..], key);
      InsertInOrder(s[0], Sort(s[1..], key), key);
    }
  }

  lemma {:induction false} SortAscends<T>(s: seq<T>, key: T -> string)
    requires forall i, j :: 0 <= i < j < |s| ==> key(s[i]) != key(s[j])
    ensures Ascending(Sort(s, key), key)
  {
    if |s| > 0 {
      var rest := Sort(s[1..], key);
      assert forall i, j :: 0 <= i < j < |s| - 1 ==> s[1..][i] == s[i + 1] && s[1..][j] == s[j + 1];
      SortAscends(s[1..], key);
      InsertAscends(s[0], rest, key);
      SameElements(rest, s[1..]);
      forall y | y in rest ensures key(y) != key(s[0]) {
        assert y in Elements(rest);
        var k :| 0 <= k < |s[1..]| && s[1..][k] == y;
        assert s[k + 1] == y;
      }
    }
  }

  function Sum<T, U>(s: seq<T>, f: T -> multiset<U>): multiset<U> {
    if |s| == 0 then multiset{} else Sum(s[..|s| - 1], f) + f(s[|s| - 1])
  }

  lemma {:induction false} SumWithout<T, U>(s: seq<T>, f: T -> multiset<U>, i: nat)
    requires i < |s|
    ensures Sum(s, f) == Sum(s[..i] + s[i + 1..], f) + f(s[i])
  {
    var rest, n := s[..i] + s[i + 1..], |s| - 1;
    if i == n {
      assert rest == s[..n];
    } else {
      var init := s[..n];
      SumWithout(init, f, i);
      assert init[..i] + init[i + 1..] == rest[..n - 1] && rest[n - 1] == s[n];
      SumLast(s, f);
      SumLast(rest, f);
      Regroup(Sum(rest[..n - 1], f), f(s[i]), f(s[n]));
    }
  }

  lemma SumLast<T, U>(s: seq<T>, f: T -> multiset<U>)
    requires |s| > 0
    ensures Sum(s, f) == Sum(s[..|s| - 1], f) + f(s[|s| - 1])
  {
  }

  lemma Regroup<U>(a: multiset<U>, b: multiset<U>, c: multiset<U>)
    ensures a + b + c == a + c + b
  {
  }

  lemma {:induction false} SumPermuted<T, U>(a: seq<T>, b: seq<T>, f: T -> multiset<U>)
    requires multiset(a) == multiset(b)
    ensures Sum(a, f) == Sum(b, f)
    decreases |a|
  {
    assert |a| == |multiset(a)| == |multiset(b)| == |b|;
    if |a| > 0 {
      var n := |a| - 1;
      assert a[n] in multiset(b);
      var i :| 0 <= i < |b| && b[i] == a[n];
      WithoutPermuted(a, b, n, i);
      SumWithout(a, f, n);
      SumWithout(b, f, i);
      SumPermuted(a[..n] + a[n + 1..], b[..i] + b[i + 1..], f);
    }
  }

  lemma WithoutPermuted<T>(a: seq<T>, b: seq<T>, j: nat, i: nat)
    requires multiset(a) == multiset(b) && j < |a| && i < |b| && a[j] == b[i]
    ensures multiset(a[..j] + a[j + 1..]) == multiset(b[..i] + b[i + 1..])
  {
    WithoutOne(a, j);
    WithoutOne(b, i);
  }

  lemma WithoutOne<T>(a: seq<T>, j: nat)
    requires j < |a|
    ensures multiset(a[..j] + a[j + 1..]) == multiset(a) - multiset{a[j]}
  {
    assert a == a[..j] + ([a[j]] + a[j + 1..]);
    assert multiset(a) == multiset(a[..j]) + (multiset{a[j]} + multiset(a[j + 1..]));
  }
}

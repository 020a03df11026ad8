/** Sorting by a text, in the order of code points, which is also the order of their UTF-8 bytes. */
module Sorting {
  predicate AtMost(a: string, b: string) {
    a == "" || (b != "" && (a[0] < b[0] || (a[0] == b[0] && AtMost(a[1..], b[1..]))))
  }

  lemma {:induction false} AtMostTotal(a: string, b: string)
    ensures AtMost(a, b) || AtMost(b, a)
    ensures AtMost(a, b) && AtMost(b, a) ==> a == b
  {
    if a != "" && b != "" {
      AtMostTotal(a[1..], b[1..]);
      assert a == [a[0]] + a[1..] && b == [b[0]] + b[1..];
    }
  }

  lemma {:induction false} AtMostTrans(a: string, b: string, c: string)
    requires AtMost(a, b) && AtMost(b, c)
    ensures AtMost(a, c)
  {
    if a != "" && b[0] == a[0] && c[0] == b[0] { AtMostTrans(a[1..], b[1..], c[1..]); }
  }

  ghost predicate SortedBy<T>(xs: seq<T>, key: T -> string) {
    forall i, j | 0 <= i < j < |xs| :: AtMost(key(xs[i]), key(xs[j]))
  }

  function Insert<T>(xs: seq<T>, x: T, key: T -> string): (ys: seq<T>)
    ensures multiset(ys) == multiset(xs) + multiset{x}
  {
    if xs == [] || AtMost(key(x), key(xs[0])) then [x] + xs
    else
      assert xs == [xs[0]] + xs[1..];
      [xs[0]] + Insert(xs[1..], x, key)
  }

  lemma {:induction false} InsertSorts<T>(xs: seq<T>, x: T, key: T -> string)
    requires SortedBy(xs, key)
    ensures SortedBy(Insert(xs, x, key), key)
  {
    hide AtMost;
    var ys := Insert(xs, x, key);
    if xs == [] {
    } else if AtMost(key(x), key(xs[0])) {
      forall j | 0 < j < |ys| ensures AtMost(key(x), key(ys[j])) {
        if j > 1 { AtMostTrans(key(x), key(xs[0]), key(xs[j - 1])); }
      }
    } else {
      AtMostTotal(key(x), key(xs[0]));
      InsertSorts(xs[1..], x, key);
      var rest := Insert(xs[1..], x, key);
      forall j | 0 <= j < |rest| ensures AtMost(key(xs[0]), key(rest[j])) {
        assert rest[j] in multiset(rest);
        assert rest[j] == x || rest[j] in xs[1..];
      }
    }
  }

  method Sort<T>(xs: seq<T>, key: T -> string) returns (ys: seq<T>)
    ensures multiset(ys) == multiset(xs) && SortedBy(ys, key)
  {
    hide Insert, AtMost;
    ys := [];
    for i := 0 to |xs|
      invariant multiset(ys) == multiset(xs[..i]) && SortedBy(ys, key)
    {
      InsertSorts(ys, xs[i], key);
      assert xs[..i + 1] == xs[..i] + [xs[i]];
      ys := Insert(ys, xs[i], key);
    }
    assert xs[..|xs|] == xs;
  }

  ghost predicate Sorted(xs: seq<string>) { forall i, j | 0 <= i < j < |xs| :: AtMost(xs[i], xs[j]) }

  /** A list without repetition is determined by its elements once it is sorted. */
  lemma {:induction false} SortedOnce(xs: seq<string>, ys: seq<string>)
    requires Sorted(xs) && Sorted(ys)
    requires (forall s :: s in xs <==> s in ys)
    requires (forall i, j | 0 <= i < j < |xs| :: xs[i] != xs[j]) && (forall i, j | 0 <= i < j < |ys| :: ys[i] != ys[j])
    ensures xs == ys
  {
    hide AtMost;
    assert ys == [] || ys[0] in xs;
    if xs != [] {
      assert xs[0] in xs;
      assert ys[0] in ys;
      var i :| 0 <= i < |ys| && ys[i] == xs[0];
      var j :| 0 <= j < |xs| && xs[j] == ys[0];
      AtMostTotal(xs[0], ys[0]);
      assert xs[0] == ys[0];
      forall s ensures s in xs[1..] <==> s in ys[1..] {
        assert s in xs[1..] <==> s in xs && s != xs[0];
        assert s in ys[1..] <==> s in ys && s != ys[0];
      }
      SortedOnce(xs[1..], ys[1..]);
      assert xs == [xs[0]] + xs[1..] && ys == [ys[0]] + ys[1..];
    }
  }
}

/** The two LINQ set operators the workflow relies on, with the semantics of
    the .NET implementation: `a.Except(b)` and `a.Distinct()` walk `a` once,
    keep a set of the elements already seen (for `Except`, seeded with `b`)
    and yield each element the first time it is not in that set. The result
    is therefore duplicate-free and in first-occurrence order. */
module Linq {

  /** The shared enumeration: yield `a[i]` when it is not yet in `seen`,
      then add it to `seen`. */
  function ExceptFrom<T(==)>(a: seq<T>, seen: set<T>): seq<T>
    decreases |a|
  {
    if a == [] then []
    else if a[0] in seen then ExceptFrom(a[1..], seen)
    else [a[0]] + ExceptFrom(a[1..], seen + {a[0]})
  }

  /** `a.Except(b)` */
  function Except<T(==)>(a: seq<T>, b: seq<T>): seq<T>
  {
    ExceptFrom(a, set x | x in b)
  }

  /** `a.Distinct()` */
  function Distinct<T(==)>(a: seq<T>): seq<T>
  {
    ExceptFrom(a, {})
  }

  predicate NoDuplicates<T(==)>(s: seq<T>)
  {
    forall i, j :: 0 <= i < j < |s| ==> s[i] != s[j]
  }

  /** `r` lists elements of `a` in the order of their first occurrence in `a`. */
  predicate InFirstOccurrenceOrder<T(==)>(r: seq<T>, a: seq<T>)
  {
    forall i, j :: 0 <= i < j < |r| ==>
      r[i] in a && r[j] in a && FirstIndex(a, r[i]) < FirstIndex(a, r[j])
  }

  /** Position of the first occurrence of `x` in `a`. */
  function FirstIndex<T(==)>(a: seq<T>, x: T): (i: nat)
    requires x in a
    ensures i < |a| && a[i] == x && x !in a[..i]
  {
    if a[0] == x then 0
    else
      assert a[1..][..FirstIndex(a[1..], x)] == a[1..FirstIndex(a[1..], x) + 1];
      1 + FirstIndex(a[1..], x)
  }

  lemma {:induction false} ExceptFromMembers<T>(a: seq<T>, seen: set<T>, x: T)
    ensures x in ExceptFrom(a, seen) <==> x in a && x !in seen
    decreases |a|
  {
    if a != [] {
      assert a == [a[0]] + a[1..];
      if a[0] in seen {
        ExceptFromMembers(a[1..], seen, x);
      } else {
        ExceptFromMembers(a[1..], seen + {a[0]}, x);
      }
    }
  }

  lemma {:induction false} ExceptFromNoDuplicates<T>(a: seq<T>, seen: set<T>)
    ensures NoDuplicates(ExceptFrom(a, seen))
    decreases |a|
  {
    if a != [] {
      if a[0] in seen {
        ExceptFromNoDuplicates(a[1..], seen);
      } else {
        var rest := ExceptFrom(a[1..], seen + {a[0]});
        ExceptFromNoDuplicates(a[1..], seen + {a[0]});
        forall j | 0 <= j < |rest| ensures rest[j] != a[0] {
          ExceptFromMembers(a[1..], seen + {a[0]}, rest[j]);
        }
      }
    }
  }

  /** An order on the tail of `a` that avoids its head is an order on `a`,
      with or without the head in front. */
  lemma OrderAfterHead<T>(a: seq<T>, rest: seq<T>)
    requires a != [] && InFirstOccurrenceOrder(rest, a[1..])
    requires forall y :: y in rest ==> y in a[1..] && y != a[0]
    ensures InFirstOccurrenceOrder(rest, a) && InFirstOccurrenceOrder([a[0]] + rest, a)
  {
    forall y | y in rest ensures y in a && FirstIndex(a, y) == 1 + FirstIndex(a[1..], y) {
    }
    var r := [a[0]] + rest;
    forall i, j | 0 <= i < j < |r|
      ensures r[i] in a && r[j] in a && FirstIndex(a, r[i]) < FirstIndex(a, r[j])
    {
      assert r[j] == rest[j - 1] && r[j] in rest;
      if i > 0 { assert r[i] == rest[i - 1] && r[i] in rest; }
    }
  }

  /** The elements come out in the order of their first occurrence in `a`. */
  lemma {:induction false} ExceptFromOrder<T>(a: seq<T>, seen: set<T>)
    ensures InFirstOccurrenceOrder(ExceptFrom(a, seen), a)
    decreases |a|
  {
    if a != [] {
      var seen' := if a[0] in seen then seen else seen + {a[0]};
      var rest := ExceptFrom(a[1..], seen');
      ExceptFromOrder(a[1..], seen');
      forall y | y in rest ensures y in a[1..] && y != a[0] {
        ExceptFromMembers(a[1..], seen', y);
      }
      OrderAfterHead(a, rest);
    }
  }

  /** `Except` keeps exactly the elements of `a` that are not in `b`, each once,
      in first-occurrence order. */
  lemma ExceptSpec<T>(a: seq<T>, b: seq<T>)
    ensures var r := Except(a, b);
      && (forall x :: x in r <==> x in a && x !in b)
      && NoDuplicates(r)
      && InFirstOccurrenceOrder(r, a)
  {
    var seen := set x | x in b;
    forall x ensures x in Except(a, b) <==> x in a && x !in b {
      ExceptFromMembers(a, seen, x);
    }
    ExceptFromNoDuplicates(a, seen);
    ExceptFromOrder(a, seen);
  }

  lemma {:induction false} ExceptFromCovered<T>(a: seq<T>, seen: set<T>)
    requires forall x :: x in a ==> x in seen
    ensures ExceptFrom(a, seen) == []
    decreases |a|
  {
    if a != [] {
      assert a[0] in seen;
      ExceptFromCovered(a[1..], seen);
    }
  }

  /** `Except` is empty when `b` holds every element of `a`. */
  lemma ExceptCovered<T>(a: seq<T>, b: seq<T>)
    requires forall x :: x in a ==> x in b
    ensures Except(a, b) == []
  {
    ExceptFromCovered(a, set x | x in b);
  }

  /** `Distinct` keeps every element of `a` exactly once, in first-occurrence order. */
  lemma DistinctSpec<T>(a: seq<T>)
    ensures var r := Distinct(a);
      && (forall x :: x in r <==> x in a)
      && NoDuplicates(r)
      && InFirstOccurrenceOrder(r, a)
  {
    forall x ensures x in Distinct(a) <==> x in a {
      ExceptFromMembers(a, {}, x);
    }
    ExceptFromNoDuplicates(a, {});
    ExceptFromOrder(a, {});
  }

  /** An element that occurs in a duplicate-free sequence occurs there once. */
  lemma {:induction false} NoDuplicatesCountOne<T>(s: seq<T>, x: T)
    requires NoDuplicates(s) && x in s
    ensures multiset(s)[x] == 1
    decreases |s|
  {
    assert s == [s[0]] + s[1..];
    assert NoDuplicates(s[1..]) by {
      forall i, j | 0 <= i < j < |s[1..]| ensures s[1..][i] != s[1..][j] {
        assert s[1..][i] == s[i + 1] && s[1..][j] == s[j + 1];
      }
    }
    if s[0] == x {
      assert x !in s[1..] by {
        forall j | 0 <= j < |s[1..]| ensures s[1..][j] != x {
          assert s[1..][j] == s[j + 1];
        }
      }
      assert multiset(s[1..])[x] == 0;
    } else {
      NoDuplicatesCountOne(s[1..], x);
    }
  }
}

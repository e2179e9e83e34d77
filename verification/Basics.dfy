/** Vocabulary shared by every part of the model: identifiers, optional values,
    C++ integer division, and the enumeration order of unordered containers. */
module Basics {
  datatype Option<+T> = None | Some(value: T)

  type ClientId = nat
  type EntityId = nat
  type SnapshotId = nat
  type EventId = nat
  type Sequence = nat
  type Time = nat

  /** C++ `/` on signed integers: rounds toward zero. */
  function TruncDiv(a: int, b: int): (q: int)
    requires b > 0
    ensures a >= 0 ==> q * b <= a < q * b + b
    ensures a <= 0 ==> q * b - b < a <= q * b
  {
    if a >= 0 then a / b else -((-a) / b)
  }

  function Clamp(v: int, lo: int, hi: int): int {
    if v < lo then lo else if hi < v then hi else v
  }

  function Abs(v: int): nat {
    if v < 0 then -v else v
  }

  function Min(a: int, b: int): int {
    if a <= b then a else b
  }

  function Max(a: int, b: int): int {
    if a <= b then b else a
  }

  ghost predicate Distinct<T>(s: seq<T>) {
    forall i, j :: 0 <= i < j < |s| ==> s[i] != s[j]
  }

  /** `s` lists every element of `elems` exactly once, in some order. */
  ghost predicate Enumerates<T(!new)>(s: seq<T>, elems: set<T>) {
    && Distinct(s)
    && (forall x :: x in s <==> x in elems)
  }

  /** The order in which an unordered container happens to be walked. The first
      two arguments name the walk, so two walks over equal contents may differ. */
  type Order = (nat, nat, set<nat>) -> seq<nat>

  ghost predicate ValidOrder(order: Order) {
    forall major: nat, minor: nat, elems: set<nat> :: Enumerates(order(major, minor, elems), elems)
  }

  lemma {:induction false} DistinctLength<T(!new)>(s: seq<T>, elems: set<T>)
    requires Enumerates(s, elems)
    ensures |s| == |elems|
  {
    if s != [] {
      var last := s[|s| - 1];
      var front := s[..|s| - 1];
      assert s == front + [last];
      assert last !in front;
      assert Enumerates(front, elems - {last}) by {
        forall x ensures x in front <==> x in elems - {last} {
          if x in elems - {last} {
            assert x in s;
          }
          if x in front {
            assert x in s;
          }
        }
      }
      DistinctLength(front, elems - {last});
    } else {
      assert forall x :: x in elems ==> x in s;
      assert elems == {};
    }
  }

  /** A set of integers inside [lo, hi) has at most hi - lo elements. */
  lemma {:induction false} BoundedSetSize(s: set<int>, lo: int, hi: int)
    requires lo <= hi
    requires forall x :: x in s ==> lo <= x < hi
    ensures |s| <= hi - lo
    decreases hi - lo
  {
    if lo == hi {
      assert s == {};
    } else {
      var rest := s - {hi - 1};
      BoundedSetSize(rest, lo, hi - 1);
      assert s <= rest + {hi - 1};
      if hi - 1 in s {
        assert s == rest + {hi - 1};
      } else {
        assert s == rest;
      }
    }
  }
}

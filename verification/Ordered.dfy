/**
 Tables iterate in ascending key order. `InOrder` lists a set of string keys
 that way and `NumbersInOrder` a set of sequence numbers.
 */
module Ordered {
  import opened Text

  predicate Ascending(s: seq<string>) {
    forall i, j :: 0 <= i < j < |s| ==> Less(s[i], s[j])
  }

  predicate IsLeast(k: string, keys: set<string>) {
    k in keys && forall x :: x in keys ==> x == k || Less(k, x)
  }

  lemma {:induction false} LeastExists(keys: set<string>)
    requires keys != {}
    ensures exists k :: IsLeast(k, keys)
    decreases |keys|
  {
    var x :| x in keys;
    if keys == {x} {
      assert IsLeast(x, keys);
    } else {
      var rest := keys - {x};
      LeastExists(rest);
      var k :| IsLeast(k, rest);
      LessTotal(k, x);
      if Less(x, k) {
        forall y | y in rest
          ensures Less(x, y)
        {
          if y != k {
            LessTransitive(x, k, y);
          }
        }
        assert IsLeast(x, keys);
      } else {
        assert IsLeast(k, keys);
      }
    }
  }

  lemma LeastUnique(keys: set<string>)
    ensures forall a, b :: IsLeast(a, keys) && IsLeast(b, keys) ==> a == b
  {
    forall a, b | IsLeast(a, keys) && IsLeast(b, keys)
      ensures a == b
    {
      if a != b {
        LessTransitive(a, b, a);
        LessIrreflexive(a);
      }
    }
  }

  function InOrder(keys: set<string>): seq<string> {
    if keys == {} then
      []
    else
      LeastExists(keys);
      LeastUnique(keys);
      var k :| k in keys && IsLeast(k, keys);
      [k] + InOrder(keys - {k})
  }

  lemma {:induction false} InOrderLists(keys: set<string>)
    ensures Ascending(InOrder(keys))
    ensures forall k :: k in InOrder(keys) <==> k in keys
    ensures |InOrder(keys)| == |keys|
  {
    if keys != {} {
      LeastExists(keys);
      LeastUnique(keys);
      var k :| k in keys && IsLeast(k, keys);
      InOrderLists(keys - {k});
      assert InOrder(keys) == [k] + InOrder(keys - {k});
      assert forall x :: x in InOrder(keys - {k}) ==> Less(k, x);
    }
  }

  lemma InOrderMembers(keys: set<string>)
    ensures forall k :: k in InOrder(keys) <==> k in keys
  {
    InOrderLists(keys);
  }

  lemma SameHead(a: seq<string>, b: seq<string>)
    requires Ascending(a) && Ascending(b) && a != [] && b != []
    requires a[0] in b && b[0] in a
    ensures a[0] == b[0]
  {
    if a[0] != b[0] {
      assert Less(a[0], b[0]) && Less(b[0], a[0]);
      LessTransitive(a[0], b[0], a[0]);
      LessIrreflexive(a[0]);
    }
  }

  lemma TailMembers(a: seq<string>)
    requires Ascending(a) && a != []
    ensures forall k :: k in a[1..] <==> k in a && k != a[0]
  {
    LessIrreflexive(a[0]);
    forall k | k in a && k != a[0]
      ensures k in a[1..]
    {
      var i :| 0 <= i < |a| && a[i] == k;
      assert a[1..][i - 1] == k;
    }
  }

  // ---- Sequence-number keys ---------------------------------------------------

  predicate Increasing(s: seq<nat>) {
    forall i, j :: 0 <= i < j < |s| ==> s[i] < s[j]
  }

  predicate IsMinimum(k: nat, keys: set<nat>) {
    k in keys && forall x :: x in keys ==> k <= x
  }

  lemma {:induction false} MinimumExists(keys: set<nat>)
    requires keys != {}
    ensures exists k :: IsMinimum(k, keys)
    decreases |keys|
  {
    var x :| x in keys;
    if keys == {x} {
      assert IsMinimum(x, keys);
    } else {
      MinimumExists(keys - {x});
      var k :| IsMinimum(k, keys - {x});
      var least := if x < k then x else k;
      forall y | y in keys
        ensures least <= y
      {
        assert y == x || y in keys - {x};
      }
      assert IsMinimum(least, keys);
    }
  }

  function NumbersInOrder(keys: set<nat>): seq<nat> {
    if keys == {} then
      []
    else
      MinimumExists(keys);
      var k :| k in keys && IsMinimum(k, keys);
      [k] + NumbersInOrder(keys - {k})
  }

  lemma {:induction false} NumbersInOrderLists(keys: set<nat>)
    ensures Increasing(NumbersInOrder(keys))
    ensures forall k :: k in NumbersInOrder(keys) <==> k in keys
  {
    if keys != {} {
      MinimumExists(keys);
      var k :| k in keys && IsMinimum(k, keys);
      NumbersInOrderLists(keys - {k});
      assert NumbersInOrder(keys) == [k] + NumbersInOrder(keys - {k});
      var rest := NumbersInOrder(keys - {k});
      forall i | 0 <= i < |rest|
        ensures k < rest[i]
      {
        assert rest[i] in rest;
      }
    }
  }

  /// An increasing list of exactly the numbers lo, ..., hi - 1 has `lo + i` at
  /// position `i`.
  lemma {:induction false} IntervalInOrder(s: seq<nat>, lo: nat, hi: nat)
    requires Increasing(s) && lo <= hi
    requires forall k :: k in s <==> lo <= k < hi
    ensures |s| == hi - lo
    ensures forall i :: 0 <= i < |s| ==> s[i] == lo + i
    decreases hi - lo
  {
    assert s != [] ==> s[0] in s;
    if lo < hi {
      assert lo in s;
      assert s[0] == lo;
      forall k: nat
        ensures k in s[1..] <==> lo + 1 <= k < hi
      {
        if k in s[1..] {
          assert k in s;
        }
        if lo + 1 <= k < hi {
          assert k in s;
          var i :| 0 <= i < |s| && s[i] == k;
          assert s[1..][i - 1] == k;
        }
      }
      IntervalInOrder(s[1..], lo + 1, hi);
      assert forall i :: 0 < i < |s| ==> s[i] == s[1..][i - 1];
    }
  }
}

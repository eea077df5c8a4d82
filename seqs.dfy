/**
 * Flattening a sequence of sequences, used for logs that grow by zero or
 * more entries per processed item.
 */
module Seqs {
  /** The concatenation of `xss`, in order. */
  function Concat<T>(xss: seq<seq<T>>): seq<T>
  {
    if xss == [] then [] else Concat(xss[..|xss| - 1]) + xss[|xss| - 1]
  }

  lemma ConcatSnoc<T>(xss: seq<seq<T>>, xs: seq<T>)
    ensures Concat(xss + [xs]) == Concat(xss) + xs
  {
    assert (xss + [xs])[..|xss|] == xss;
  }

  lemma {:induction false} ConcatAppend<T>(a: seq<seq<T>>, b: seq<seq<T>>)
    ensures Concat(a + b) == Concat(a) + Concat(b)
  {
    if b == [] {
      assert a + b == a;
      assert Concat(a) + [] == Concat(a);
    } else {
      var b', xs := b[..|b| - 1], b[|b| - 1];
      calc {
        Concat(a + b);
        { assert a + b == (a + b') + [xs]; }
        Concat((a + b') + [xs]);
        { ConcatSnoc(a + b', xs); }
        Concat(a + b') + xs;
        { ConcatAppend(a, b'); }
        (Concat(a) + Concat(b')) + xs;
        Concat(a) + (Concat(b') + xs);
        { ConcatSnoc(b', xs); assert b' + [xs] == b; }
        Concat(a) + Concat(b);
      }
    }
  }

  lemma {:induction false} ConcatOfEmpties<T>(xss: seq<seq<T>>)
    requires forall k :: 0 <= k < |xss| ==> xss[k] == []
    ensures Concat(xss) == []
  {
    if xss != [] {
      ConcatOfEmpties(xss[..|xss| - 1]);
    }
  }

  /** Indexing into the second of four concatenated sequences. */
  lemma IndexSecond<T>(a: seq<T>, b: seq<T>, c: seq<T>, d: seq<T>, i: nat)
    requires i < |b|
    ensures (a + b + c + d)[|a| + i] == b[i]
  {
  }

  /** Indexing into the last of four concatenated sequences. */
  lemma IndexFourth<T>(a: seq<T>, b: seq<T>, c: seq<T>, d: seq<T>, i: nat)
    requires i < |d|
    ensures (a + b + c + d)[|a| + |b| + |c| + i] == d[i]
  {
  }

  /** No element occurs twice. */
  predicate Distinct<T(==)>(s: seq<T>)
  {
    forall i, j :: 0 <= i < j < |s| ==> s[i] != s[j]
  }

  lemma DistinctCons<T>(x: T, s: seq<T>)
    requires Distinct(s) && x !in s
    ensures Distinct([x] + s)
  {
    var t := [x] + s;
    forall i, j | 0 <= i < j < |t| ensures t[i] != t[j] {
      assert t[j] == s[j - 1];
      if i > 0 {
        assert t[i] == s[i - 1];
      }
    }
  }

  lemma DistinctAppend<T>(a: seq<T>, b: seq<T>)
    requires Distinct(a) && Distinct(b)
    requires forall x, y :: x in a && y in b ==> x != y
    ensures Distinct(a + b)
  {
    var t := a + b;
    forall i, j | 0 <= i < j < |t| ensures t[i] != t[j] {
      if j < |a| {
        assert t[i] == a[i] && t[j] == a[j];
      } else if i < |a| {
        assert t[i] == a[i] && t[j] == b[j - |a|];
        assert a[i] in a && b[j - |a|] in b;
      } else {
        assert t[i] == b[i - |a|] && t[j] == b[j - |a|];
      }
    }
  }

  /** Without its last element a distinct sequence stays distinct and no longer holds that element. */
  lemma DistinctInit<T>(s: seq<T>)
    requires Distinct(s) && s != []
    ensures Distinct(s[..|s| - 1]) && s[|s| - 1] !in s[..|s| - 1]
  {
  }

  lemma DistinctTail<T>(s: seq<T>)
    requires Distinct(s) && s != []
    ensures Distinct(s[1..]) && s[0] !in s[1..]
  {
  }
}

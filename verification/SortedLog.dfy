/** Facts about nondecreasing timestamp sequences: what `removeBefore` keeps and how many entries it leaves. */
module SortedLog {
  ghost predicate Sorted(s: seq<int>) {
    forall i, j :: 0 <= i < j < |s| ==> s[i] <= s[j]
  }

  /** The entries that are not strictly below `t`, in order. */
  function AtLeast(s: seq<int>, t: int): seq<int> {
    if s == [] then []
    else if s[0] < t then AtLeast(s[1..], t)
    else [s[0]] + AtLeast(s[1..], t)
  }

  /** How many entries are at or above `x`. */
  function CountFrom(s: seq<int>, x: int): nat {
    if s == [] then 0 else (if s[0] >= x then 1 else 0) + CountFrom(s[1..], x)
  }

  /** `k` splits `s` at a place where the entry before is below `t` and the entry after is not. */
  ghost predicate Boundary(s: seq<int>, k: nat, t: int) {
    && k <= |s|
    && (k > 0 ==> s[k - 1] < t)
    && (k < |s| ==> s[k] >= t)
  }

  lemma {:induction false} AtLeastAll(s: seq<int>, t: int)
    requires forall i :: 0 <= i < |s| ==> s[i] >= t
    ensures AtLeast(s, t) == s
  {
    if s != [] {
      AtLeastAll(s[1..], t);
    }
  }

  /** In a sorted sequence the boundary is unique: it is the number of entries below `t`, and what
      follows it is exactly what `removeBefore(t)` promises to keep. */
  lemma {:induction false} BoundaryIsExact(s: seq<int>, k: nat, t: int)
    requires Sorted(s) && Boundary(s, k, t)
    ensures s[k..] == AtLeast(s, t)
    ensures k == |s| - CountFrom(s, t)
  {
    if k == 0 {
      AtLeastAll(s, t);
      CountAll(s, t);
    } else {
      assert s[0] <= s[k - 1];
      BoundaryIsExact(s[1..], k - 1, t);
      assert s[1..][k - 1..] == s[k..];
    }
  }

  lemma {:induction false} CountAll(s: seq<int>, x: int)
    requires forall i :: 0 <= i < |s| ==> s[i] >= x
    ensures CountFrom(s, x) == |s|
  {
    if s != [] {
      CountAll(s[1..], x);
    }
  }

  lemma {:induction false} CountAtMostLength(s: seq<int>, x: int)
    ensures CountFrom(s, x) <= |s|
  {
    if s != [] {
      CountAtMostLength(s[1..], x);
    }
  }

  lemma {:induction false} CountAppend(s: seq<int>, y: int, x: int)
    ensures CountFrom(s + [y], x) == CountFrom(s, x) + if y >= x then 1 else 0
  {
    if s == [] {
      assert s + [y] == [y];
      assert [y][1..] == [];
    } else {
      assert (s + [y])[1..] == s[1..] + [y];
      CountAppend(s[1..], y, x);
    }
  }

  /** Removing entries below a threshold does not change the counts at or above it. */
  lemma {:induction false} CountKept(s: seq<int>, t: int, x: int)
    requires t <= x
    ensures CountFrom(AtLeast(s, t), x) == CountFrom(s, x)
  {
    if s != [] {
      CountKept(s[1..], t, x);
      if s[0] >= t {
        assert AtLeast(s, t)[1..] == AtLeast(s[1..], t);
      }
    }
  }

  /** `AtLeast` keeps a sorted suffix. */
  lemma {:induction false} AtLeastIsSuffix(s: seq<int>, t: int)
    requires Sorted(s)
    ensures |AtLeast(s, t)| <= |s|
    ensures AtLeast(s, t) == s[|s| - |AtLeast(s, t)|..]
    ensures Sorted(AtLeast(s, t))
    ensures forall i :: 0 <= i < |AtLeast(s, t)| ==> AtLeast(s, t)[i] >= t
  {
    if s != [] {
      if s[0] < t {
        AtLeastIsSuffix(s[1..], t);
      } else {
        AtLeastAll(s, t);
      }
    }
  }
}

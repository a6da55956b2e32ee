/**
 * The stable ascending sort of the ranker (`list.sort(key=...)`), written as an
 * insertion sort: a specification function on sequences, what is proved about it,
 * and the in-place array method proved to compute it.
 */
module Sorting {
  import opened Projects

  /** Ascending by key: every element's key is `<=` every later element's key. */
  predicate Sorted(s: seq<ProjectInfo>) {
    forall i, j :: 0 <= i < j < |s| ==> KeyLe(KeyOf(s[i]), KeyOf(s[j]))
  }

  /** The elements of `s` whose key is `k`, in their order in `s`. */
  function WithKey(s: seq<ProjectInfo>, k: SortKey): seq<ProjectInfo> {
    if |s| == 0 then []
    else WithKey(s[..|s| - 1], k) + (if KeyOf(s[|s| - 1]) == k then [s[|s| - 1]] else [])
  }

  /**
   * Puts `x` into the sorted `s` after every element whose key is `<=` its key, so that
   * an element never overtakes an earlier one with an equal key.
   */
  function Insert(s: seq<ProjectInfo>, x: ProjectInfo): seq<ProjectInfo> {
    if |s| == 0 || KeyLe(KeyOf(s[|s| - 1]), KeyOf(x)) then s + [x]
    else Insert(s[..|s| - 1], x) + [s[|s| - 1]]
  }

  /** The result of Python's stable `list.sort` with the ranker's key. */
  function SortByKey(s: seq<ProjectInfo>): seq<ProjectInfo> {
    if |s| == 0 then [] else Insert(SortByKey(s[..|s| - 1]), s[|s| - 1])
  }

  /** `a` and `b` hold, position by position, projects with the same sort key, title and uuid. */
  predicate Alike(a: seq<ProjectInfo>, b: seq<ProjectInfo>) {
    |a| == |b| && forall i :: 0 <= i < |a| ==> KeyOf(a[i]) == KeyOf(b[i]) && a[i].Ref() == b[i].Ref()
  }

  /** The sort looks at nothing but the keys: alike inputs are inserted alike. */
  lemma {:induction false} InsertAlike(t: seq<ProjectInfo>, t': seq<ProjectInfo>, x: ProjectInfo, x': ProjectInfo)
    requires Alike(t, t') && KeyOf(x) == KeyOf(x') && x.Ref() == x'.Ref()
    ensures Alike(Insert(t, x), Insert(t', x'))
  {
    if |t| > 0 && !KeyLe(KeyOf(t[|t| - 1]), KeyOf(x)) {
      InsertAlike(t[..|t| - 1], t'[..|t'| - 1], x, x');
    }
  }

  /** Alike inputs sort to alike outputs. */
  lemma {:induction false} SortAlike(s: seq<ProjectInfo>, s': seq<ProjectInfo>)
    requires Alike(s, s')
    ensures Alike(SortByKey(s), SortByKey(s'))
  {
    if |s| > 0 {
      SortAlike(s[..|s| - 1], s'[..|s'| - 1]);
      InsertAlike(SortByKey(s[..|s| - 1]), SortByKey(s'[..|s'| - 1]), s[|s| - 1], s'[|s'| - 1]);
    }
  }

  /** Inserting adds exactly `x`. */
  lemma {:induction false} InsertMultiset(s: seq<ProjectInfo>, x: ProjectInfo)
    ensures multiset(Insert(s, x)) == multiset(s) + multiset{x}
  {
    if |s| > 0 && !KeyLe(KeyOf(s[|s| - 1]), KeyOf(x)) {
      assert s == s[..|s| - 1] + [s[|s| - 1]];
      InsertMultiset(s[..|s| - 1], x);
    }
  }

  /** Every element of `s + [y]` has a key `<=` that of a later element, given that of `y`. */
  lemma SortedSnoc(t: seq<ProjectInfo>, y: ProjectInfo)
    requires Sorted(t)
    requires forall i :: 0 <= i < |t| ==> KeyLe(KeyOf(t[i]), KeyOf(y))
    ensures Sorted(t + [y])
  {
  }

  /** Inserting into a sorted sequence keeps it sorted. */
  lemma {:induction false} InsertSorted(s: seq<ProjectInfo>, x: ProjectInfo)
    requires Sorted(s)
    ensures Sorted(Insert(s, x))
  {
    if |s| == 0 || KeyLe(KeyOf(s[|s| - 1]), KeyOf(x)) {
      forall i | 0 <= i < |s| ensures KeyLe(KeyOf(s[i]), KeyOf(x)) {
        if i < |s| - 1 {
          KeyLeTransitive(KeyOf(s[i]), KeyOf(s[|s| - 1]), KeyOf(x));
        }
      }
      SortedSnoc(s, x);
    } else {
      var init, last := s[..|s| - 1], s[|s| - 1];
      InsertSorted(init, x);
      InsertMultiset(init, x);
      var t := Insert(init, x);
      forall i | 0 <= i < |t| ensures KeyLe(KeyOf(t[i]), KeyOf(last)) {
        assert t[i] in multiset(t);
        if t[i] == x {
          KeyLeTotal(KeyOf(last), KeyOf(x));
        } else {
          assert t[i] in multiset(init);
          var m :| 0 <= m < |init| && init[m] == t[i];
          assert s[m] == t[i];
        }
      }
      SortedSnoc(t, last);
    }
  }

  /** Inserting into a sorted sequence appends `x` after every element sharing its key. */
  lemma {:induction false} InsertWithKey(s: seq<ProjectInfo>, x: ProjectInfo, k: SortKey)
    requires Sorted(s)
    ensures WithKey(Insert(s, x), k) == WithKey(s, k) + (if KeyOf(x) == k then [x] else [])
  {
    if |s| == 0 || KeyLe(KeyOf(s[|s| - 1]), KeyOf(x)) {
      assert (s + [x])[..|s|] == s;
    } else {
      var init, last := s[..|s| - 1], s[|s| - 1];
      InsertWithKey(init, x, k);
      var t := Insert(init, x);
      assert (t + [last])[..|t|] == t;
      if KeyOf(x) == k {
        KeyLeTotal(KeyOf(last), KeyOf(x));
      }
    }
  }

  /**
   * The sort result is ordered by key, is a permutation of the input, and is stable:
   * the elements sharing any one key keep their input order.
   */
  lemma {:induction false} SortByKeyProperties(s: seq<ProjectInfo>)
    ensures Sorted(SortByKey(s))
    ensures multiset(SortByKey(s)) == multiset(s)
    ensures |SortByKey(s)| == |s|
    ensures forall k :: WithKey(SortByKey(s), k) == WithKey(s, k)
  {
    if |s| > 0 {
      var init, last := s[..|s| - 1], s[|s| - 1];
      assert s == init + [last];
      SortByKeyProperties(init);
      InsertMultiset(SortByKey(init), last);
      InsertSorted(SortByKey(init), last);
      forall k ensures WithKey(SortByKey(s), k) == WithKey(s, k) {
        InsertWithKey(SortByKey(init), last, k);
      }
    }
    assert |multiset(SortByKey(s))| == |SortByKey(s)|;
  }

  /**
   * Where `Insert` puts `x`: right after the prefix `t[..j]` when everything from `j`
   * on has a key greater than `x`'s and `t[j - 1]` (if any) does not.
   */
  lemma {:induction false} InsertAt(t: seq<ProjectInfo>, x: ProjectInfo, j: nat)
    requires j <= |t|
    requires j == 0 || KeyLe(KeyOf(t[j - 1]), KeyOf(x))
    requires forall m :: j <= m < |t| ==> !KeyLe(KeyOf(t[m]), KeyOf(x))
    ensures Insert(t, x) == t[..j] + [x] + t[j..]
    decreases |t| - j
  {
    if j < |t| {
      var init := t[..|t| - 1];
      assert init[..j] == t[..j];
      InsertAt(init, x, j);
      assert t[j..] == init[j..] + [t[|t| - 1]];
    }
  }

  /**
   * One insertion step: `a[i]` moves left past every element of `a[..i]` with a greater
   * key; those elements shift one place right.
   */
  method InsertStep(a: array<ProjectInfo>, i: nat)
    requires i < a.Length
    modifies a
    ensures a[..i + 1] == Insert(old(a[..i]), old(a[i]))
    ensures a[i + 1..] == old(a[i + 1..])
  {
    ghost var t := a[..i];
    ghost var rest := a[i + 1..];
    var x := a[i];
    var j := i;
    while j > 0 && !KeyLe(KeyOf(a[j - 1]), KeyOf(x))
      invariant 0 <= j <= i
      invariant forall m :: 0 <= m < j ==> a[m] == t[m]
      invariant forall m :: j < m <= i ==> a[m] == t[m - 1]
      invariant a[i + 1..] == rest
      invariant forall m :: j <= m < i ==> !KeyLe(KeyOf(t[m]), KeyOf(x))
    {
      a[j] := a[j - 1];
      j := j - 1;
    }
    a[j] := x;
    InsertAt(t, x, j);
    assert a[..i + 1] == t[..j] + [x] + t[j..];
  }

  /** The in-place sort of `all_projects`: insertion sort, one `InsertStep` per element. */
  method SortProjects(a: array<ProjectInfo>)
    modifies a
    ensures a[..] == SortByKey(old(a[..]))
  {
    ghost var orig := a[..];
    for i := 0 to a.Length
      invariant a[..i] == SortByKey(orig[..i])
      invariant a[i..] == orig[i..]
    {
      InsertStep(a, i);
      assert orig[..i + 1][..i] == orig[..i];
      assert a[i + 1..] == orig[i + 1..];
    }
    assert orig[..a.Length] == orig;
  }
}

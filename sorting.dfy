/**
 * Python's ordering of strings and its `sorted` on a sequence of strings.
 * Strings compare character by character from the left; a proper prefix
 * comes before the longer string.
 */
module Sorting {

  /** Whether `a` comes before `b` when both are compared from position `i` on. */
  predicate LessFrom(a: string, b: string, i: nat)
    decreases |a| - i
  {
    if i >= |a| then i < |b|
    else if i >= |b| then false
    else if a[i] != b[i] then a[i] < b[i]
    else LessFrom(a, b, i + 1)
  }

  /** `a < b` on Python strings. */
  predicate Less(a: string, b: string)
  {
    LessFrom(a, b, 0)
  }

  lemma {:induction false} LessFromIrreflexive(a: string, i: nat)
    ensures !LessFrom(a, a, i)
    decreases |a| - i
  {
    if i < |a| {
      LessFromIrreflexive(a, i + 1);
    }
  }

  lemma {:induction false} LessFromTransitive(a: string, b: string, c: string, i: nat)
    requires LessFrom(a, b, i) && LessFrom(b, c, i)
    ensures LessFrom(a, c, i)
    decreases |a| - i
  {
    if i < |a| && i < |b| && i < |c| && a[i] == b[i] && b[i] == c[i] {
      LessFromTransitive(a, b, c, i + 1);
    }
  }

  lemma {:induction false} LessFromTotal(a: string, b: string, i: nat)
    requires i <= |a| && i <= |b| && a[i..] != b[i..]
    ensures LessFrom(a, b, i) || LessFrom(b, a, i)
    decreases |a| - i
  {
    if i < |a| && i < |b| && a[i] == b[i] {
      assert a[i..] == [a[i]] + a[i + 1..] && b[i..] == [b[i]] + b[i + 1..];
      LessFromTotal(a, b, i + 1);
    }
  }

  /** `<` on strings is a strict total order. */
  lemma LessIsStrictTotalOrder(a: string, b: string, c: string)
    ensures !Less(a, a)
    ensures Less(a, b) && Less(b, c) ==> Less(a, c)
    ensures a != b ==> Less(a, b) || Less(b, a)
  {
    LessFromIrreflexive(a, 0);
    if Less(a, b) && Less(b, c) {
      LessFromTransitive(a, b, c, 0);
    }
    if a != b {
      assert a[0..] == a && b[0..] == b;
      LessFromTotal(a, b, 0);
    }
  }

  lemma {:induction false} LessFromCommonPrefix(a: string, b: string, n: nat, i: nat)
    requires i <= n < |a| && n < |b| && a[..n] == b[..n] && a[n] < b[n]
    ensures LessFrom(a, b, i)
    decreases n - i
  {
    if i < n {
      assert a[i] == a[..n][i] && b[i] == b[..n][i];
      LessFromCommonPrefix(a, b, n, i + 1);
    }
  }

  /** Strings that agree before position `n` and differ at it compare by their characters at `n`. */
  lemma LessAfterCommonPrefix(a: string, b: string, n: nat)
    requires n < |a| && n < |b| && a[..n] == b[..n] && a[n] < b[n]
    ensures Less(a, b)
  {
    LessFromCommonPrefix(a, b, n, 0);
  }

  /** Ascending, equal strings allowed next to each other. */
  predicate Sorted(s: seq<string>)
  {
    forall i, j :: 0 <= i < j < |s| ==> !Less(s[j], s[i])
  }

  /** Ascending without repeats. */
  predicate StrictlySorted(s: seq<string>)
  {
    forall i, j :: 0 <= i < j < |s| ==> Less(s[i], s[j])
  }

  /** Each element is less than the next one, checked from position `j` on. */
  predicate AdjacentLessFrom(s: seq<string>, j: nat)
    decreases |s| - j
  {
    j + 1 >= |s| || (Less(s[j], s[j + 1]) && AdjacentLessFrom(s, j + 1))
  }

  /** Neighbours in order make the whole sequence strictly sorted. */
  lemma {:induction false} AdjacentLessIsStrictlySorted(s: seq<string>, j: nat)
    requires j <= |s| && AdjacentLessFrom(s, j)
    ensures StrictlySorted(s[j..])
    decreases |s| - j
  {
    if j + 1 < |s| {
      AdjacentLessIsStrictlySorted(s, j + 1);
      var t := s[j..];
      forall a, b | 0 <= a < b < |t| ensures Less(t[a], t[b]) {
        if a > 0 {
          assert t[a] == s[j + 1..][a - 1] && t[b] == s[j + 1..][b - 1];
        } else if b > 1 {
          assert t[b] == s[j + 1..][b - 1];
          LessIsStrictTotalOrder(t[0], t[1], t[b]);
        }
      }
    }
  }

  /** Two strictly sorted runs, the first ending below the start of the second, make one strictly sorted run. */
  lemma StrictlySortedConcat(a: seq<string>, b: seq<string>)
    requires StrictlySorted(a) && StrictlySorted(b)
    requires a != [] && b != [] ==> Less(a[|a| - 1], b[0])
    ensures StrictlySorted(a + b)
  {
    var s := a + b;
    forall i, j | 0 <= i < j < |s| ensures Less(s[i], s[j]) {
      if i < |a| <= j {
        var last, first := a[|a| - 1], b[0];
        if i < |a| - 1 {
          LessIsStrictTotalOrder(a[i], last, first);
        }
        if j > |a| {
          LessIsStrictTotalOrder(a[i], first, b[j - |a|]);
        }
      }
    }
  }

  /** A strictly sorted sequence has no repeated element. */
  lemma StrictlySortedIsDistinct(s: seq<string>)
    requires StrictlySorted(s)
    ensures forall i, j :: 0 <= i < j < |s| ==> s[i] != s[j]
  {
    forall i, j | 0 <= i < j < |s| ensures s[i] != s[j] {
      LessIsStrictTotalOrder(s[i], s[j], s[j]);
    }
  }

  /** Inserts `x` into a sorted sequence before the first element not less than it. */
  function Insert(x: string, s: seq<string>): (r: seq<string>)
    ensures multiset(r) == multiset(s) + multiset{x}
  {
    if s == [] || !Less(s[0], x) then [x] + s
    else
      assert s == [s[0]] + s[1..];
      [s[0]] + Insert(x, s[1..])
  }

  /** `sorted(s)`: insertion sort. */
  function Sort(s: seq<string>): (r: seq<string>)
    ensures multiset(r) == multiset(s)
  {
    if s == [] then []
    else
      assert s == [s[0]] + s[1..];
      Insert(s[0], Sort(s[1..]))
  }

  /** `!(b < a)` chains like `<=`. */
  lemma NotLessTransitive(a: string, b: string, c: string)
    requires !Less(b, a) && !Less(c, b)
    ensures !Less(c, a)
  {
    LessIsStrictTotalOrder(a, b, b);
    LessIsStrictTotalOrder(b, c, c);
    LessIsStrictTotalOrder(a, c, c);
    if Less(c, a) {
      if a != b {
        LessIsStrictTotalOrder(c, a, b);
      }
    }
  }

  lemma SortedTail(s: seq<string>)
    requires s != [] && Sorted(s)
    ensures Sorted(s[1..])
  {
    var t := s[1..];
    forall i, j | 0 <= i < j < |t| ensures !Less(t[j], t[i]) {
      assert t[j] == s[j + 1] && t[i] == s[i + 1];
    }
  }

  /** A head no greater than anything in a sorted tail extends it. */
  lemma SortedCons(h: string, t: seq<string>)
    requires Sorted(t)
    requires forall k :: k in t ==> !Less(k, h)
    ensures Sorted([h] + t)
  {
    var r := [h] + t;
    forall i, j | 0 <= i < j < |r| ensures !Less(r[j], r[i]) {
      assert r[j] == t[j - 1] && r[j] in t;
      if i > 0 {
        assert r[i] == t[i - 1];
      }
    }
  }

  /** Inserting keeps every element at or above a common lower bound. */
  lemma InsertAbove(x: string, s: seq<string>, lo: string)
    requires !Less(x, lo)
    requires forall k :: k in s ==> !Less(k, lo)
    ensures forall k :: k in Insert(x, s) ==> !Less(k, lo)
  {
    forall k | k in Insert(x, s) ensures !Less(k, lo) {
      assert k in multiset(Insert(x, s));
      assert k == x || k in multiset(s);
    }
  }

  /** Inserting into a sorted sequence keeps it sorted. */
  lemma {:induction false} InsertSorted(x: string, s: seq<string>)
    requires Sorted(s)
    ensures Sorted(Insert(x, s))
  {
    if s != [] {
      var h := s[0];
      forall k | k in s ensures !Less(k, h) {
        var j :| 0 <= j < |s| && s[j] == k;
        LessIsStrictTotalOrder(h, h, h);
      }
      if Less(h, x) {
        SortedTail(s);
        InsertSorted(x, s[1..]);
        LessIsStrictTotalOrder(h, x, x);
        LessIsStrictTotalOrder(x, h, x);
        assert forall k :: k in s[1..] ==> k in s;
        InsertAbove(x, s[1..], h);
        SortedCons(h, Insert(x, s[1..]));
      } else {
        forall k | k in s ensures !Less(k, x) {
          NotLessTransitive(x, h, k);
        }
        SortedCons(x, s);
      }
    }
  }

  /** `sorted` returns an ascending rearrangement of its input. */
  lemma {:induction false} SortIsSortedPermutation(s: seq<string>)
    ensures Sorted(Sort(s))
    ensures multiset(Sort(s)) == multiset(s)
  {
    if s != [] {
      SortIsSortedPermutation(s[1..]);
      InsertSorted(s[0], Sort(s[1..]));
    }
  }

  /** Sorting a sequence that is already strictly sorted leaves it as it is. */
  lemma {:induction false} SortOfStrictlySorted(s: seq<string>)
    requires StrictlySorted(s)
    ensures Sort(s) == s
  {
    if s != [] {
      assert StrictlySorted(s[1..]) by {
        forall i, j | 0 <= i < j < |s[1..]| ensures Less(s[1..][i], s[1..][j]) {
          assert s[1..][i] == s[i + 1] && s[1..][j] == s[j + 1];
        }
      }
      SortOfStrictlySorted(s[1..]);
      if |s| > 1 {
        LessIsStrictTotalOrder(s[1], s[0], s[1]);
      }
      assert s == [s[0]] + s[1..];
    }
  }

  /** `[s for s in names if keep(s)]`. */
  function Filter(names: seq<string>, keep: string -> bool): (r: seq<string>)
    ensures forall k :: k in r <==> k in names && keep(k)
  {
    if names == [] then []
    else (if keep(names[0]) then [names[0]] else []) + Filter(names[1..], keep)
  }

  /** Filtering a strictly ascending sequence keeps it strictly ascending. */
  lemma {:induction false} FilterKeepsOrder(names: seq<string>, keep: string -> bool)
    requires StrictlySorted(names)
    ensures StrictlySorted(Filter(names, keep))
  {
    if names != [] {
      var rest := names[1..];
      assert StrictlySorted(rest) by {
        forall i, j | 0 <= i < j < |rest| ensures Less(rest[i], rest[j]) {
          assert rest[i] == names[i + 1] && rest[j] == names[j + 1];
        }
      }
      FilterKeepsOrder(rest, keep);
      var tail := Filter(rest, keep);
      if keep(names[0]) {
        forall j | 0 <= j < |tail| ensures Less(names[0], tail[j]) {
          assert tail[j] in rest;
          var k :| 0 <= k < |rest| && rest[k] == tail[j];
          assert names[k + 1] == tail[j];
        }
        assert Filter(names, keep) == [names[0]] + tail;
      }
    }
  }
}

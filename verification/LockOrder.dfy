/** The order in which several locks are taken: sort, then remove duplicates
    (`lock_ids_in_order`, src/queued_repo/repository.rs and src/read_model/queued.rs). */
module LockOrder {
  /** Lexicographic order of strings. */
  predicate Before(a: string, b: string)
  {
    if b == "" then false
    else if a == "" then true
    else if a[0] != b[0] then a[0] < b[0]
    else Before(a[1..], b[1..])
  }

  /** `a` and `b` agree on the first `k` characters, and there `a` ends or is less. */
  predicate DifferAt(a: string, b: string, k: nat)
  {
    k <= |a| && k < |b| && a[..k] == b[..k] && (k == |a| || a[k] < b[k])
  }

  lemma {:induction false} BeforeIffFirstDifference(a: string, b: string)
    ensures Before(a, b) <==> exists k: nat :: DifferAt(a, b, k)
  {
    if a == "" || b == "" || a[0] != b[0] {
      assert Before(a, b) ==> DifferAt(a, b, 0);
      forall k: nat ensures k > 0 ==> !DifferAt(a, b, k) {
        if 0 < k <= |a| && k < |b| { assert a[..k][0] == a[0] && b[..k][0] == b[0]; }
      }
    } else {
      BeforeIffFirstDifference(a[1..], b[1..]);
      forall k: nat | k > 0 && DifferAt(a, b, k) ensures DifferAt(a[1..], b[1..], k - 1) {
        assert a[1..][..k - 1] == a[..k][1..] && b[1..][..k - 1] == b[..k][1..];
      }
      forall k: nat | DifferAt(a[1..], b[1..], k) ensures DifferAt(a, b, k + 1) {
        assert a[..k + 1] == [a[0]] + a[1..][..k] && b[..k + 1] == [b[0]] + b[1..][..k];
      }
      assert !DifferAt(a, b, 0);
    }
  }

  lemma {:induction false} BeforeIsTransitive(a: string, b: string, c: string)
    requires Before(a, b) && Before(b, c)
    ensures Before(a, c)
  {
    if a != "" && a[0] == b[0] == c[0] {
      BeforeIsTransitive(a[1..], b[1..], c[1..]);
    }
  }

  lemma {:induction false} BeforeIsTotal(a: string, b: string)
    ensures Before(a, b) || a == b || Before(b, a)
    ensures !(Before(a, b) && Before(b, a))
    ensures a == b ==> !Before(a, b)
  {
    if a != "" && b != "" && a[0] == b[0] {
      BeforeIsTotal(a[1..], b[1..]);
      assert a == [a[0]] + a[1..] && b == [b[0]] + b[1..];
    }
  }

  ghost predicate Increasing(ids: seq<string>)
  {
    forall i, j :: 0 <= i < j < |ids| ==> Before(ids[i], ids[j])
  }

  /** The sorted list with `id` added, unless it is there. */
  function Insert(id: string, sorted: seq<string>): (r: seq<string>)
    ensures forall x :: x in r <==> x == id || x in sorted
  {
    if sorted == [] then [id]
    else if id == sorted[0] then sorted
    else if Before(id, sorted[0]) then [id] + sorted
    else [sorted[0]] + Insert(id, sorted[1..])
  }

  function SortDedup(ids: seq<string>): (r: seq<string>)
    ensures forall x :: x in r <==> x in ids
  {
    if ids == [] then [] else Insert(ids[0], SortDedup(ids[1..]))
  }

  lemma {:induction false} InsertKeepsIncreasing(id: string, sorted: seq<string>)
    requires Increasing(sorted)
    ensures Increasing(Insert(id, sorted))
  {
    if sorted != [] && id != sorted[0] {
      if Before(id, sorted[0]) {
        forall j | 0 < j < |sorted| ensures Before(id, sorted[j]) {
          BeforeIsTransitive(id, sorted[0], sorted[j]);
        }
      } else {
        BeforeIsTotal(id, sorted[0]);
        var rest := Insert(id, sorted[1..]);
        InsertKeepsIncreasing(id, sorted[1..]);
        forall x | x in rest ensures Before(sorted[0], x) {
          assert x == id || x in sorted[1..];
        }
      }
    }
  }

  lemma {:induction false} SortDedupIncreases(ids: seq<string>)
    ensures Increasing(SortDedup(ids))
  {
    if ids != [] {
      SortDedupIncreases(ids[1..]);
      InsertKeepsIncreasing(ids[0], SortDedup(ids[1..]));
    }
  }

  lemma FirstIsLeast(s: seq<string>, x: string)
    requires Increasing(s) && x in s
    ensures x == s[0] || Before(s[0], x)
  {
  }

  lemma SameMembersBothEmpty(a: seq<string>, b: seq<string>)
    requires forall x :: x in a <==> x in b
    ensures a == [] <==> b == []
  {
    if a != [] { assert a[0] in a; }
    if b != [] { assert b[0] in b; }
  }

  /** There is only one strictly increasing list of a set of ids, so however the sort works,
      two requests for the same ids lock in the same order. */
  lemma {:induction false} IncreasingIsUnique(a: seq<string>, b: seq<string>)
    requires Increasing(a) && Increasing(b) && forall x :: x in a <==> x in b
    ensures a == b
  {
    SameMembersBothEmpty(a, b);
    if a != [] {
      assert a[0] in a && a[0] in b && b[0] in b && b[0] in a;
      FirstIsLeast(a, b[0]);
      FirstIsLeast(b, a[0]);
      BeforeIsTotal(a[0], b[0]);
      forall x ensures x in a[1..] <==> x in b[1..] {
        if x in a[1..] { TailIsLater(a, x); assert x in a; }
        if x in b[1..] { TailIsLater(b, x); assert x in b; }
      }
      IncreasingIsUnique(a[1..], b[1..]);
    }
  }

  lemma TailIsLater(s: seq<string>, x: string)
    requires Increasing(s) && s != [] && x in s[1..]
    ensures Before(s[0], x) && x != s[0]
  {
    BeforeIsTotal(s[0], x);
  }

  lemma SameRequestSameOrder(a: seq<string>, b: seq<string>)
    requires forall x :: x in a <==> x in b
    ensures SortDedup(a) == SortDedup(b)
  {
    SortDedupIncreases(a);
    SortDedupIncreases(b);
    IncreasingIsUnique(SortDedup(a), SortDedup(b));
  }
}

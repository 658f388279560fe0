/** Ordering, case-insensitive search and page arithmetic shared by the `index` queries. */
module Listing {
  import opened Wrappers

  /** Rows per page in every paginated listing. */
  const PageLimit: nat := 5

  lemma {:induction false} LargestExists(s: set<nat>)
    requires s != {}
    ensures exists m :: m in s && forall x :: x in s ==> x <= m
  {
    var y :| y in s;
    var top := y;
    if s != {y} {
      var rest := s - {y};
      LargestExists(rest);
      var m :| m in rest && forall x :: x in rest ==> x <= m;
      top := if y <= m then m else y;
      forall x | x in s
        ensures x <= top
      {
        if x != y { assert x in rest; }
      }
    }
    assert top in s && forall x :: x in s ==> x <= top;
  }

  /** The largest id of a non-empty set. */
  function Largest(s: set<nat>): (m: nat)
    requires s != {}
    ensures m in s && forall x :: x in s ==> x <= m
  {
    LargestExists(s);
    var m :| m in s && forall x :: x in s ==> x <= m; m
  }

  /** The ids of `s` in the order `ORDER BY id DESC` returns them. */
  function Descending(s: set<nat>): (r: seq<nat>)
    ensures |r| == |s|
    ensures forall x :: x in r <==> x in s
    ensures forall i, j :: 0 <= i < j < |r| ==> r[i] > r[j]
    decreases s
  {
    if s == {} then []
    else
      var m := Largest(s);
      [m] + Descending(s - {m})
  }

  /** ASCII lower-casing, as `ILIKE` compares letters. */
  function Lower(c: char): char
  {
    if 'A' <= c <= 'Z' then (c as int + 32) as char else c
  }

  function LowerAll(s: string): (r: string)
    ensures |r| == |s| && forall i :: 0 <= i < |s| ==> r[i] == Lower(s[i])
  {
    seq(|s|, i requires 0 <= i < |s| => Lower(s[i]))
  }

  /** `q` occurs in `s` starting at index `i`. */
  predicate OccursAt(s: string, q: string, i: int)
  {
    0 <= i <= |s| - |q| && s[i..i + |q|] == q
  }

  /** `q` occurs in `s` as a contiguous piece. */
  predicate Contains(s: string, q: string)
  {
    exists i :: 0 <= i <= |s| - |q| && OccursAt(s, q, i)
  }

  /** `column ILIKE '%q%'`, with `q` read as plain text. */
  predicate ContainsIgnoringCase(s: string, q: string)
  {
    Contains(LowerAll(s), LowerAll(q))
  }

  /** A literal occurrence is always a case-insensitive match, and the empty query matches all. */
  lemma LiteralMatchIsFound(s: string, q: string)
    requires Contains(s, q) || q == ""
    ensures ContainsIgnoringCase(s, q)
  {
    var i: int;
    if q == "" {
      i := 0;
      assert OccursAt(s, q, i);
    } else {
      i :| OccursAt(s, q, i);
      assert OccursAt(s, q, i);
    }
    var ls, lq := LowerAll(s), LowerAll(q);
    assert ls[i..i + |q|] == lq by {
      forall k | 0 <= k < |q|
        ensures ls[i..i + |q|][k] == lq[k]
      {
        assert ls[i + k] == Lower(s[i + k]);
        if q != "" {
          assert s[i..i + |q|][k] == q[k];
        }
      }
    }
    assert OccursAt(ls, lq, i);
  }

  /** `LIMIT 5 OFFSET (page - 1) * 5` over `xs`; `None` when the offset is negative,
      which the database refuses. */
  function PageOf<T>(xs: seq<T>, page: int): (r: Option<seq<T>>)
    ensures r.None? <==> page < 1
    ensures r.Some? ==> |r.value| <= PageLimit
    ensures r.Some? ==> |r.value| == if |xs| <= (page - 1) * PageLimit then 0
                                      else Min(PageLimit, |xs| - (page - 1) * PageLimit)
    ensures r.Some? ==> forall i :: 0 <= i < |r.value| ==> r.value[i] == xs[(page - 1) * PageLimit + i]
  {
    var offset := (page - 1) * PageLimit;
    if offset < 0 then None
    else if |xs| <= offset then Some([])
    else Some(xs[offset..Min(offset + PageLimit, |xs|)])
  }

  function Min(a: int, b: int): int { if a <= b then a else b }

  /** `Math.ceil(total / 5)`. */
  function PageCount(total: nat): (n: nat)
    ensures total <= n * PageLimit
    ensures n == 0 || (n - 1) * PageLimit < total
  {
    (total + PageLimit - 1) / PageLimit
  }

  /** The pages the header announces are exactly the pages that hold rows. */
  lemma PageCountCoversRows<T>(xs: seq<T>, page: int)
    requires page >= 1
    ensures PageOf(xs, page).Some?
    ensures PageOf(xs, page).value != [] <==> page <= PageCount(|xs|)
  {
  }
}

/**
 * The three query shapes the routers use on a table held in store order:
 * `.filter(...).first()`, `.filter(...)` and `.offset(skip).limit(limit)`.
 */
module Queries {
  import opened Wrappers

  function Min(a: int, b: int): int {
    if a <= b then a else b
  }

  /** `.filter(p).first()`: the position of the first row satisfying `p`, if any. */
  function First<T>(rows: seq<T>, p: T -> bool): (r: Option<nat>)
    ensures r.Some? ==> r.value < |rows| && p(rows[r.value])
    ensures r.Some? ==> forall j :: 0 <= j < r.value ==> !p(rows[j])
    ensures r.None? <==> forall j :: 0 <= j < |rows| ==> !p(rows[j])
  {
    if rows == [] then None
    else if p(rows[0]) then Some(0)
    else
      match First(rows[1..], p)
      case None => None
      case Some(k) => Some(k + 1)
  }

  /** `.filter(p)`: the rows satisfying `p`, in store order. */
  function Filter<T>(rows: seq<T>, p: T -> bool): (r: seq<T>)
    ensures |r| <= |rows|
    ensures forall x :: x in r ==> x in rows && p(x)
    ensures forall x :: x in rows && p(x) ==> x in r
  {
    if rows == [] then []
    else (if p(rows[0]) then [rows[0]] else []) + Filter(rows[1..], p)
  }

  lemma {:induction false} FilterConcat<T>(a: seq<T>, b: seq<T>, p: T -> bool)
    ensures Filter(a + b, p) == Filter(a, p) + Filter(b, p)
  {
    if a == [] {
      assert a + b == b;
    } else {
      assert (a + b)[1..] == a[1..] + b;
      FilterConcat(a[1..], b, p);
    }
  }

  /** Filtering a row appended at the end. */
  lemma FilterSnoc<T>(a: seq<T>, x: T, p: T -> bool)
    ensures Filter(a + [x], p) == Filter(a, p) + (if p(x) then [x] else [])
  {
    FilterConcat(a, [x], p);
    assert Filter([x], p) == (if p(x) then [x] else []) + Filter([x][1..], p);
  }

  /** `.offset(skip).limit(limit)`: at most `limit` rows, starting at position `skip`. */
  function Page<T>(rows: seq<T>, skip: nat, limit: nat): (r: seq<T>)
    ensures |r| <= limit
    ensures |r| == if skip >= |rows| then 0 else Min(limit, |rows| - skip)
    ensures forall i :: 0 <= i < |r| ==> r[i] == rows[skip + i]
  {
    if skip >= |rows| then [] else rows[skip .. skip + Min(limit, |rows| - skip)]
  }

  /** Reading two consecutive pages gives the same rows as reading one page of their combined length. */
  lemma PagesConcatenate<T>(rows: seq<T>, skip: nat, a: nat, b: nat)
    ensures Page(rows, skip, a) + Page(rows, skip + a, b) == Page(rows, skip, a + b)
  {
    var p, q, whole := Page(rows, skip, a), Page(rows, skip + a, b), Page(rows, skip, a + b);
    assert |p + q| == |whole|;
    forall i | 0 <= i < |whole| ensures (p + q)[i] == whole[i] {
      if i >= |p| {
        assert |p| == a;
      }
    }
  }

  /** Removing position `k`: the rows before it keep their positions, the rows after it move up by one. */
  lemma RemoveAt<T>(rows: seq<T>, k: nat)
    requires k < |rows|
    ensures var rest := rows[..k] + rows[k + 1..];
      && |rest| == |rows| - 1
      && (forall i :: 0 <= i < k ==> rest[i] == rows[i])
      && (forall i :: k <= i < |rest| ==> rest[i] == rows[i + 1])
  {
  }
}

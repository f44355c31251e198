/** Tables and the sums taken over them.

A table is a sequence of rows in creation order; a row's id is its position, so
ids are fresh, never reused, and `ORDER BY createdAt` is the order of the
sequence. The money and stock identities of this project are equations between
sums over such tables.
*/
module Tables {

  datatype Option<+T> = None | Some(value: T)

  function OrElse<T>(a: Option<T>, b: T): T { if a.Some? then a.value else b }

  function Lookup<K, V>(m: map<K, V>, k: K): Option<V> { if k in m then Some(m[k]) else None }

  function Min(a: int, b: int): int { if a < b then a else b }

  function Max(a: int, b: int): int { if a < b then b else a }

  /** The total of `f` over all rows. */
  function Sum<T>(rows: seq<T>, f: T -> int): int
  {
    if |rows| == 0 then 0 else Sum(rows[..|rows| - 1], f) + f(rows[|rows| - 1])
  }

  lemma SumAppend<T>(rows: seq<T>, row: T, f: T -> int)
    ensures Sum(rows + [row], f) == Sum(rows, f) + f(row)
  {
    assert (rows + [row])[..|rows|] == rows;
  }

  lemma {:induction false} SumUpdate<T>(rows: seq<T>, i: nat, row: T, f: T -> int)
    requires i < |rows|
    ensures Sum(rows[i := row], f) == Sum(rows, f) - f(rows[i]) + f(row)
  {
    var last := |rows| - 1;
    if i == last {
      assert rows[i := row][..last] == rows[..last];
    } else {
      SumUpdate(rows[..last], i, row, f);
      assert rows[i := row][..last] == rows[..last][i := row];
    }
  }

  lemma {:induction false} SumConcat<T>(a: seq<T>, b: seq<T>, f: T -> int)
    ensures Sum(a + b, f) == Sum(a, f) + Sum(b, f)
  {
    if |b| == 0 {
      assert a + b == a;
    } else {
      var last := |b| - 1;
      SumConcat(a, b[..last], f);
      assert (a + b)[..|a + b| - 1] == a + b[..last];
    }
  }

  /** Two tables compared row by row. */
  lemma {:induction false} SumMonotone<A, B>(a: seq<A>, b: seq<B>, f: A -> int, g: B -> int)
    requires |a| == |b|
    requires forall i :: 0 <= i < |a| ==> f(a[i]) <= g(b[i])
    ensures Sum(a, f) <= Sum(b, g)
  {
    if |a| > 0 {
      SumMonotone(a[..|a| - 1], b[..|b| - 1], f, g);
    }
  }

  lemma SumEqual<A, B>(a: seq<A>, b: seq<B>, f: A -> int, g: B -> int)
    requires |a| == |b|
    requires forall i :: 0 <= i < |a| ==> f(a[i]) == g(b[i])
    ensures Sum(a, f) == Sum(b, g)
  {
    SumMonotone(a, b, f, g);
    SumMonotone(b, a, g, f);
  }

  lemma {:induction false} SumNonNegative<T>(rows: seq<T>, f: T -> int)
    requires forall i :: 0 <= i < |rows| ==> 0 <= f(rows[i])
    ensures 0 <= Sum(rows, f)
  {
    if |rows| > 0 {
      SumNonNegative(rows[..|rows| - 1], f);
    }
  }

  /** One row is at most the total when no row is negative. */
  lemma {:induction false} SumMember<T>(rows: seq<T>, i: nat, f: T -> int)
    requires i < |rows|
    requires forall k :: 0 <= k < |rows| ==> 0 <= f(rows[k])
    ensures f(rows[i]) <= Sum(rows, f)
  {
    var last := |rows| - 1;
    if i < last {
      SumMember(rows[..last], i, f);
    } else {
      SumNonNegative(rows[..last], f);
    }
  }

  lemma {:induction false} SumZero<T>(rows: seq<T>, f: T -> int)
    requires forall i :: 0 <= i < |rows| ==> f(rows[i]) == 0
    ensures Sum(rows, f) == 0
  {
    if |rows| > 0 {
      SumZero(rows[..|rows| - 1], f);
    }
  }

  /** One more element of a loop over a sequence. */
  lemma PrefixNext<T>(s: seq<T>, k: nat)
    requires k < |s|
    ensures s[..k + 1] == s[..k] + [s[k]] && s[..k + 1][..k] == s[..k]
  {
  }

  /** The last of a list of ids in order. */
  lemma LastId(ids: seq<nat>)
    requires |ids| > 0 && forall j, k :: 0 <= j < k < |ids| ==> ids[j] < ids[k]
    ensures ids == ids[..|ids| - 1] + [ids[|ids| - 1]]
    ensures ids[|ids| - 1] !in ids[..|ids| - 1]
  {
  }

  /** A run continued by several steps is one continued by all but the last, and then by the last. */
  lemma LastStep<T>(steps: seq<T>, more: seq<T>)
    requires |more| > 0
    ensures steps + more == (steps + more[..|more| - 1]) + [more[|more| - 1]]
  {
  }

  /** One more row of a loop over a table. */
  lemma SumPrefix<T>(rows: seq<T>, k: nat, f: T -> int)
    requires k < |rows|
    ensures Sum(rows[..k + 1], f) == Sum(rows[..k], f) + f(rows[k])
  {
    assert rows[..k + 1] == rows[..k] + [rows[k]];
    SumAppend(rows[..k], rows[k], f);
  }

  /** A column that is the sum of two others. */
  lemma {:induction false} SumSplit<T>(rows: seq<T>, whole: T -> int, f: T -> int, g: T -> int)
    requires forall i :: 0 <= i < |rows| ==> whole(rows[i]) == f(rows[i]) + g(rows[i])
    ensures Sum(rows, whole) == Sum(rows, f) + Sum(rows, g)
  {
    if |rows| > 0 {
      SumSplit(rows[..|rows| - 1], whole, f, g);
    }
  }

  lemma SumOne<T>(row: T, f: T -> int)
    ensures Sum([row], f) == f(row)
  {
    assert [row][..0] == [];
  }

  /** The ids of the rows a query selects, oldest first. */
  function RowsWhere<T>(rows: seq<T>, p: T -> bool): (ids: seq<nat>)
    ensures forall k :: 0 <= k < |ids| ==> ids[k] < |rows| && p(rows[ids[k]])
    ensures forall j, k :: 0 <= j < k < |ids| ==> ids[j] < ids[k]
  {
    if |rows| == 0 then []
    else
      var last := |rows| - 1;
      var before := RowsWhere(rows[..last], p);
      if p(rows[last]) then before + [last] else before
  }

  /** A query selects the rows that meet its condition, and no others. */
  lemma {:induction false} Selects<T>(rows: seq<T>, p: T -> bool)
    ensures forall i: nat :: i in RowsWhere(rows, p) <==> i < |rows| && p(rows[i])
  {
    if |rows| > 0 {
      Selects(rows[..|rows| - 1], p);
    }
  }

  /** An update of the rows with these ids. */
  function UpdateRows<T>(rows: seq<T>, ids: seq<nat>, f: T -> T): (after: seq<T>)
    ensures |after| == |rows|
  {
    seq(|rows|, i requires 0 <= i < |rows| => if i in ids then f(rows[i]) else rows[i])
  }

  lemma {:induction false} SameRowsSameOrder(a: seq<nat>, b: seq<nat>)
    requires forall j, k :: 0 <= j < k < |a| ==> a[j] < a[k]
    requires forall j, k :: 0 <= j < k < |b| ==> b[j] < b[k]
    requires forall i: nat :: i in a <==> i in b
    ensures a == b
  {
    assert |a| > 0 ==> a[0] in a;
    assert |b| > 0 ==> b[0] in b;
    if |a| > 0 && |b| > 0 {
      assert a[0] in b && b[0] in a;
      assert forall i: nat :: i in a[1..] <==> i in a && i != a[0];
      assert forall i: nat :: i in b[1..] <==> i in b && i != b[0];
      SameRowsSameOrder(a[1..], b[1..]);
    }
  }

  lemma RestOf(ids: seq<nat>, n: nat, i: nat)
    requires n <= |ids| && forall j, k :: 0 <= j < k < |ids| ==> ids[j] < ids[k]
    ensures i in ids[n..] <==> i in ids && i !in ids[..n]
    ensures i in ids[..n] ==> i in ids
  {
  }

  /** Taking a batch off a query leaves the rest of it, in order. */
  lemma BatchTaken<T>(rows: seq<T>, p: T -> bool, f: T -> T, n: nat)
    requires n <= |RowsWhere(rows, p)|
    requires forall i :: 0 <= i < |rows| && p(rows[i]) ==> !p(f(rows[i]))
    ensures RowsWhere(UpdateRows(rows, RowsWhere(rows, p)[..n], f), p) == RowsWhere(rows, p)[n..]
  {
    var ids := RowsWhere(rows, p);
    var after := UpdateRows(rows, ids[..n], f);
    var left := RowsWhere(after, p);
    Selects(rows, p);
    Selects(after, p);
    forall i: nat ensures i in left <==> i in ids[n..] {
      RestOf(ids, n, i);
    }
    SameRowsSameOrder(left, ids[n..]);
  }

  /** Two batches in a row are one batch. */
  lemma BatchesJoin<T>(rows: seq<T>, a: seq<nat>, b: seq<nat>, f: T -> T)
    requires forall i :: i in a ==> i !in b
    ensures UpdateRows(UpdateRows(rows, a, f), b, f) == UpdateRows(rows, a + b, f)
  {
  }

  /** `LIMIT`. */
  function FirstOf(ids: seq<nat>, limit: nat): (batch: seq<nat>)
    ensures batch <= ids && |batch| == Min(|ids|, limit)
  {
    ids[..Min(|ids|, limit)]
  }

  /** A query over the first rows selects the first of what it selects over all. */
  lemma {:induction false} SelectedFirst<T>(rows: seq<T>, p: T -> bool, n: nat)
    requires n <= |rows|
    ensures RowsWhere(rows[..n], p) <= RowsWhere(rows, p)
  {
    if n == |rows| {
      assert rows[..n] == rows;
    } else {
      SelectedFirst(rows[..|rows| - 1], p, n);
      assert rows[..|rows| - 1][..n] == rows[..n];
    }
  }

  lemma {:induction false} CountSelected<T>(rows: seq<T>, p: T -> bool, n: nat) returns (selected: set<nat>)
    requires n <= |rows|
    ensures forall j: nat :: j in selected <==> j < n && p(rows[j])
    ensures |selected| == |RowsWhere(rows[..n], p)|
  {
    selected := {};
    if n > 0 {
      assert rows[..n][..n - 1] == rows[..n - 1];
      selected := CountSelected(rows, p, n - 1);
      if p(rows[n - 1]) { selected := selected + {n - 1}; }
    }
  }

  /** A row is in the batch if fewer than `limit` rows before it are selected. */
  lemma EarlyRowsAreFirst<T>(rows: seq<T>, p: T -> bool, limit: nat, i: nat)
    requires i < |rows| && p(rows[i])
    requires |RowsWhere(rows[..i], p)| < limit
    ensures i in FirstOf(RowsWhere(rows, p), limit)
  {
    SelectedFirst(rows, p, i + 1);
    assert rows[..i + 1][..i] == rows[..i];
    var k := |RowsWhere(rows[..i], p)|;
    assert RowsWhere(rows[..i + 1], p)[k] == i;
    assert FirstOf(RowsWhere(rows, p), limit)[k] == i;
  }

  /** What a limited query returns: selected rows, oldest first, and none left out but behind a
      full batch. */
  lemma BatchIsFirst<T>(rows: seq<T>, p: T -> bool, limit: nat)
    ensures var batch := FirstOf(RowsWhere(rows, p), limit);
            && |batch| <= limit
            && (forall j, k :: 0 <= j < k < |batch| ==> batch[j] < batch[k])
            && (forall i :: i in batch ==> i < |rows| && p(rows[i]))
            && forall i: nat :: i < |rows| && p(rows[i]) && i !in batch ==>
                 |batch| == limit && forall k :: 0 <= k < |batch| ==> batch[k] < i
  {
    var ids := RowsWhere(rows, p);
    var batch := FirstOf(ids, limit);
    Selects(rows, p);
    assert forall k :: 0 <= k < |batch| ==> batch[k] == ids[k];
    forall i: nat | i < |rows| && p(rows[i]) && i !in batch
      ensures |batch| == limit && forall k :: 0 <= k < |batch| ==> batch[k] < i
    {
      var m :| 0 <= m < |ids| && ids[m] == i;
    }
  }

  lemma NextPart(ids: seq<nat>, done: nat, limit: nat)
    requires done <= |ids|
    requires forall j, k :: 0 <= j < k < |ids| ==> ids[j] < ids[k]
    ensures var batch := FirstOf(ids[done..], limit);
            && |batch| == Min(|ids| - done, limit)
            && ids[..done] + batch == ids[..done + |batch|]
            && forall i :: i in ids[..done] ==> i !in batch
  {
    var batch := FirstOf(ids[done..], limit);
    assert batch == ids[done..done + |batch|];
  }

  /** One turn of a loop that updates what a query selects a batch at a time. */
  lemma NextBatch<T>(rows: seq<T>, p: T -> bool, f: T -> T, done: nat, limit: nat)
    requires done <= |RowsWhere(rows, p)|
    requires forall i :: 0 <= i < |rows| && p(rows[i]) ==> !p(f(rows[i]))
    ensures var ids := RowsWhere(rows, p);
            var sofar := UpdateRows(rows, ids[..done], f);
            var batch := FirstOf(RowsWhere(sofar, p), limit);
            && batch == FirstOf(ids[done..], limit)
            && |batch| == Min(|ids| - done, limit)
            && ids[..done] + batch == ids[..done + |batch|]
            && UpdateRows(sofar, batch, f) == UpdateRows(rows, ids[..done + |batch|], f)
  {
    BatchTaken(rows, p, f, done);
    JoinPart(rows, RowsWhere(rows, p), f, done, limit);
  }

  lemma JoinPart<T>(rows: seq<T>, ids: seq<nat>, f: T -> T, done: nat, limit: nat)
    requires done <= |ids|
    requires forall j, k :: 0 <= j < k < |ids| ==> ids[j] < ids[k]
    ensures var batch := FirstOf(ids[done..], limit);
            && |batch| == Min(|ids| - done, limit)
            && ids[..done] + batch == ids[..done + |batch|]
            && UpdateRows(UpdateRows(rows, ids[..done], f), batch, f) == UpdateRows(rows, ids[..done + |batch|], f)
  {
    NextPart(ids, done, limit);
    BatchesJoin(rows, ids[..done], FirstOf(ids[done..], limit), f);
  }
}

/** Offset pagination as the services use it: `skip: (page - 1) * limit, take: limit` handed to the
    database, and `Math.ceil(total / limit)` for the page count. */
module Paging {
  import opened Base

  const NEGATIVE_SKIP := "Invalid value for argument `skip`"

  /** The number of rows to skip for a 1-based page number. */
  function Skip(page: int, limit: int): int {
    (page - 1) * limit
  }

  function Abs(x: int): nat {
    if x < 0 then -x else x
  }

  /** How many rows a `skip`/`take` window holds: `|take|` of them, or fewer when not that many
      are left once `skip` rows are passed over. */
  function Length(total: nat, skip: nat, take: int): (r: nat)
    ensures r <= Abs(take)
    ensures skip >= total ==> r == 0
    ensures skip < total ==> r + skip <= total && (r == Abs(take) || r + skip == total)
  {
    if skip >= total then 0 else if Abs(take) <= total - skip then Abs(take) else total - skip
  }

  /** Where the window starts: `skip` rows from the front for a non-negative `take`; for a
      negative one the database reverses the order, skips and takes there, and restores the
      order, so the window ends `skip` rows before the end. */
  function Start(total: nat, skip: nat, take: int): (r: nat)
    ensures r + Length(total, skip, take) <= total || Length(total, skip, take) == 0
    ensures take >= 0 ==> r == skip
    ensures take < 0 && skip < total ==> r + Length(total, skip, take) + skip == total
  {
    if take >= 0 then skip
    else if skip >= total then 0
    else total - skip - Length(total, skip, take)
  }

  /** The rows a `findMany` with this `skip` and `take` returns from the already filtered and
      ordered rows. The database rejects a negative `skip`. */
  function Window<T>(rows: seq<T>, skip: int, take: int): (r: Result<seq<T>>)
    ensures r.Err? <==> skip < 0
    ensures r.Err? ==> r.error == NEGATIVE_SKIP
    ensures r.Ok? ==> |r.value| == Length(|rows|, skip, take) && |r.value| <= Abs(take)
    ensures r.Ok? ==> forall k :: 0 <= k < |r.value| ==>
              Start(|rows|, skip, take) + k < |rows| && r.value[k] == rows[Start(|rows|, skip, take) + k]
    // a non-negative take: the rows from the offset on, as many as asked for when enough are left
    ensures r.Ok? && take >= 0 && skip + take <= |rows| ==> r.value == rows[skip..skip + take]
    ensures r.Ok? && take >= 0 && skip + take > |rows| ==> r.value == if skip < |rows| then rows[skip..] else []
    // a negative take: the last rows before the `skip` rows at the end
    ensures r.Ok? && take < 0 && skip + Abs(take) <= |rows| ==> r.value == rows[|rows| - skip - Abs(take)..|rows| - skip]
    ensures r.Ok? && take < 0 && skip + Abs(take) > |rows| ==> r.value == if skip < |rows| then rows[..|rows| - skip] else []
  {
    if skip < 0 then Err(NEGATIVE_SKIP)
    else
      var start := Start(|rows|, skip, take);
      var n := Length(|rows|, skip, take);
      if n == 0 then Ok([]) else Ok(rows[start..start + n])
  }

  /** The rows a filter keeps, newest first. Rows are stored in creation order, so `orderBy:
      { createdAt: 'desc' }` lists them from the last stored back to the first. */
  function NewestFirst<T>(rows: seq<T>, keep: T -> bool): seq<T>
    decreases |rows|
  {
    if rows == [] then []
    else if keep(rows[|rows| - 1]) then [rows[|rows| - 1]] + NewestFirst(rows[..|rows| - 1], keep)
    else NewestFirst(rows[..|rows| - 1], keep)
  }

  /** The listing holds exactly the rows the filter keeps, and no more of them than are stored. */
  lemma {:induction false} NewestFirstSelects<T>(rows: seq<T>, keep: T -> bool)
    ensures |NewestFirst(rows, keep)| <= |rows|
    ensures forall x :: x in NewestFirst(rows, keep) <==> x in rows && keep(x)
    ensures forall k :: 0 <= k < |NewestFirst(rows, keep)| ==> keep(NewestFirst(rows, keep)[k])
    decreases |rows|
  {
    if rows != [] {
      var init := rows[..|rows| - 1];
      NewestFirstSelects(init, keep);
      assert rows == init + [rows[|rows| - 1]];
    }
  }

  /** The newest row the filter keeps comes first. */
  lemma {:induction false} NewestFirstStartsWithLatest<T>(rows: seq<T>, keep: T -> bool, i: nat)
    requires i < |rows| && keep(rows[i])
    requires forall j :: i < j < |rows| ==> !keep(rows[j])
    ensures NewestFirst(rows, keep) != [] && NewestFirst(rows, keep)[0] == rows[i]
    decreases |rows|
  {
    if i < |rows| - 1 {
      NewestFirstStartsWithLatest(rows[..|rows| - 1], keep, i);
    }
  }

  /** A JavaScript number produced by `Math.ceil(total / limit)`: a division by zero gives
      `Infinity`, or `NaN` when the total is zero too. */
  datatype PageCount = Pages(n: int) | Infinity | NotANumber

  function CeilDiv(total: nat, limit: int): (r: PageCount)
    ensures limit == 0 ==> (r == NotANumber <==> total == 0) && (r == Infinity <==> total > 0)
    ensures limit > 0 ==> r.Pages? && r.n >= 0
    ensures limit > 0 ==> (r.n - 1) * limit < total <= r.n * limit || (total == 0 && r.n == 0)
    ensures limit < 0 ==> r.Pages? && r.n <= 0
  {
    if limit == 0 then (if total == 0 then NotANumber else Infinity)
    else if limit > 0 then Pages((total + limit - 1) / limit)
    else Pages(-(total / -limit))
  }

  /** Walking the pages in order visits every row exactly once: with a positive limit, row `k`
      sits on page `k / limit + 1`, at position `k % limit`, and that page is within the count. */
  lemma {:induction false} RowOnItsPage<T>(rows: seq<T>, limit: int, k: nat)
    requires limit > 0 && k < |rows|
    ensures var page := k / limit + 1;
            && Window(rows, Skip(page, limit), limit).Ok?
            && k % limit < |Window(rows, Skip(page, limit), limit).value|
            && Window(rows, Skip(page, limit), limit).value[k % limit] == rows[k]
            && page <= CeilDiv(|rows|, limit).n
  {
    var page := k / limit + 1;
    assert Skip(page, limit) == (k / limit) * limit;
    assert (k / limit) * limit + k % limit == k;
    var n := CeilDiv(|rows|, limit).n;
    assert (n - 1) * limit < |rows| <= n * limit;
    // n * limit exceeds k, which is at least (k / limit) * limit, so the page count exceeds k / limit
    assert (n - k / limit) * limit == n * limit - (k / limit) * limit;
    assert (n - k / limit) * limit > 0;
  }
}

/**
 * The slice of pandas the dashboard uses, over a table held as a sequence of
 * rows: boolean masks built from column comparisons, `df[mask]` selection,
 * `df[mask]['금액'].sum()` and `df[mask].empty`.
 */
module Frame {
  import opened Text

  /** One spreadsheet row after the amount column has been coerced to a number. */
  datatype Row = Row(actor: string, category: string, item: string, status: string, amount: int)

  /**
   * A boolean mask over rows: `df[col] == v` for the actor and status columns,
   * `df[col].str.contains(k)` for the category and item columns, combined with `&`.
   */
  datatype Mask =
    | ActorIs(actor: string)
    | CategoryHas(keyword: string)
    | ItemHas(keyword: string)
    | StatusIs(status: string)
    | And(left: Mask, right: Mask)

  predicate Holds(m: Mask, r: Row) {
    match m
    case ActorIs(a) => r.actor == a
    case CategoryHas(k) => Contains(r.category, k)
    case ItemHas(k) => Contains(r.item, k)
    case StatusIs(s) => r.status == s
    case And(left, right) => Holds(left, r) && Holds(right, r)
  }

  /** `df[mask]`: the rows the mask selects, in their original order. */
  function Where(rows: seq<Row>, m: Mask): (kept: seq<Row>)
    ensures |kept| <= |rows|
  {
    if rows == [] then []
    else (if Holds(m, rows[0]) then [rows[0]] else []) + Where(rows[1..], m)
  }

  /**
   * `df[mask]` holds exactly the rows of the table that satisfy the mask, each
   * as many times as the table holds it.
   */
  lemma {:induction false} WhereKeepsExactly(rows: seq<Row>, m: Mask)
    ensures forall r :: r in Where(rows, m) <==> r in rows && Holds(m, r)
    ensures forall r :: multiset(Where(rows, m))[r] == if Holds(m, r) then multiset(rows)[r] else 0
  {
    if rows != [] {
      WhereKeepsExactly(rows[1..], m);
      var head := if Holds(m, rows[0]) then [rows[0]] else [];
      assert rows == [rows[0]] + rows[1..];
      assert multiset(rows) == multiset{rows[0]} + multiset(rows[1..]);
      assert multiset(Where(rows, m)) == multiset(head) + multiset(Where(rows[1..], m));
    }
  }

  /** `df['금액'].sum()`; the sum of no rows is 0. */
  function SumAmounts(rows: seq<Row>): int {
    if rows == [] then 0 else rows[0].amount + SumAmounts(rows[1..])
  }

  /** `df[mask]['금액'].sum()`. */
  function MaskedSum(rows: seq<Row>, m: Mask): int {
    SumAmounts(Where(rows, m))
  }

  /** `not df[mask].empty`: some row satisfies the mask. */
  function AnyWhere(rows: seq<Row>, m: Mask): (found: bool)
    ensures found <==> exists i :: 0 <= i < |rows| && Holds(m, rows[i])
  {
    var kept := Where(rows, m);
    WhereKeepsExactly(rows, m);
    if kept != [] then
      assert kept[0] in kept;
      true
    else
      assert forall i :: 0 <= i < |rows| ==> rows[i] in rows;
      false
  }

  lemma {:induction false} WhereAppend(a: seq<Row>, b: seq<Row>, m: Mask)
    ensures Where(a + b, m) == Where(a, m) + Where(b, m)
  {
    if a == [] {
      assert a + b == b;
    } else {
      var head := if Holds(m, a[0]) then [a[0]] else [];
      calc {
        Where(a + b, m);
        head + Where((a + b)[1..], m);
        { assert (a + b)[1..] == a[1..] + b; }
        head + Where(a[1..] + b, m);
        { WhereAppend(a[1..], b, m); }
        head + (Where(a[1..], m) + Where(b, m));
        Where(a, m) + Where(b, m);
      }
    }
  }

  lemma {:induction false} SumAmountsAppend(a: seq<Row>, b: seq<Row>)
    ensures SumAmounts(a + b) == SumAmounts(a) + SumAmounts(b)
  {
    if a != [] {
      assert (a + b)[1..] == a[1..] + b;
      SumAmountsAppend(a[1..], b);
    } else {
      assert a + b == b;
    }
  }

  /** A masked sum over two stacked tables is the sum of their masked sums. */
  lemma MaskedSumAppend(a: seq<Row>, b: seq<Row>, m: Mask)
    ensures MaskedSum(a + b, m) == MaskedSum(a, m) + MaskedSum(b, m)
  {
    WhereAppend(a, b, m);
    SumAmountsAppend(Where(a, m), Where(b, m));
  }

  /** Row by row: the first row adds its amount exactly when the mask selects it. */
  lemma MaskedSumUnfold(rows: seq<Row>, m: Mask)
    requires rows != []
    ensures MaskedSum(rows, m) == (if Holds(m, rows[0]) then rows[0].amount else 0) + MaskedSum(rows[1..], m)
  {
    MaskedSumAppend([rows[0]], rows[1..], m);
    assert [rows[0]] + rows[1..] == rows;
  }

  /**
   * Inserting a row, anywhere in the table, that the mask rejects or whose
   * amount is 0 leaves the masked sum unchanged.
   */
  lemma MaskedSumIgnoresRow(rows: seq<Row>, k: nat, x: Row, m: Mask)
    requires k <= |rows| && (!Holds(m, x) || x.amount == 0)
    ensures MaskedSum(rows[..k] + [x] + rows[k..], m) == MaskedSum(rows, m)
  {
    var front, back := rows[..k], rows[k..];
    assert MaskedSum([x], m) == 0 by { MaskedSumUnfold([x], m); }
    MaskedSumAppend(front + [x], back, m);
    MaskedSumAppend(front, [x], m);
    MaskedSumAppend(front, back, m);
    assert front + back == rows;
  }

  /** A mask that selects no row sums to 0. */
  lemma {:induction false} MaskedSumOfNoMatch(rows: seq<Row>, m: Mask)
    requires forall i :: 0 <= i < |rows| ==> !Holds(m, rows[i])
    ensures MaskedSum(rows, m) == 0
  {
    if rows != [] {
      MaskedSumUnfold(rows, m);
      MaskedSumOfNoMatch(rows[1..], m);
    }
  }

  /**
   * Only the selected rows and their amounts matter: two tables of equal length
   * whose rows are selected at the same positions, with equal amounts there,
   * have the same masked sum.
   */
  lemma {:induction false} MaskedSumAgree(a: seq<Row>, b: seq<Row>, m: Mask)
    requires |a| == |b|
    requires forall i :: 0 <= i < |a| ==> (Holds(m, a[i]) <==> Holds(m, b[i]))
    requires forall i :: 0 <= i < |a| && Holds(m, a[i]) ==> a[i].amount == b[i].amount
    ensures MaskedSum(a, m) == MaskedSum(b, m)
  {
    if a != [] {
      MaskedSumUnfold(a, m);
      MaskedSumUnfold(b, m);
      var a', b' := a[1..], b[1..];
      forall i | 0 <= i < |a'|
        ensures (Holds(m, a'[i]) <==> Holds(m, b'[i]))
        ensures Holds(m, a'[i]) ==> a'[i].amount == b'[i].amount
      {
        assert a'[i] == a[i + 1] && b'[i] == b[i + 1];
      }
      MaskedSumAgree(a', b', m);
    }
  }

  /** Taking row `k` out of a table removes exactly its own contribution from a masked sum. */
  lemma MaskedSumRemoveAt(b: seq<Row>, k: nat, m: Mask)
    requires k < |b|
    ensures MaskedSum(b, m) == (if Holds(m, b[k]) then b[k].amount else 0) + MaskedSum(b[..k] + b[k + 1..], m)
  {
    assert b == b[..k] + [b[k]] + b[k + 1..];
    MaskedSumAppend(b[..k] + [b[k]], b[k + 1..], m);
    MaskedSumAppend(b[..k], [b[k]], m);
    MaskedSumAppend(b[..k], b[k + 1..], m);
    MaskedSumUnfold([b[k]], m);
  }

  /** Removing the same row from two permutations of each other leaves permutations of each other. */
  lemma MultisetRemoveFirst(a: seq<Row>, b: seq<Row>, k: nat)
    requires multiset(a) == multiset(b) && a != [] && k < |b| && b[k] == a[0]
    ensures multiset(a[1..]) == multiset(b[..k] + b[k + 1..])
  {
    var rest := b[..k] + b[k + 1..];
    assert a == [a[0]] + a[1..];
    assert b == b[..k] + [b[k]] + b[k + 1..];
    assert multiset(a) == multiset{a[0]} + multiset(a[1..]);
    assert multiset(b) == multiset(b[..k]) + multiset{b[k]} + multiset(b[k + 1..]);
    assert multiset(rest) == multiset(b[..k]) + multiset(b[k + 1..]);
    forall y ensures multiset(a[1..])[y] == multiset(rest)[y] {
      assert multiset(a)[y] == multiset(b)[y];
    }
  }

  /** The masked sum does not depend on the order of the rows. */
  lemma {:induction false} MaskedSumPermutation(a: seq<Row>, b: seq<Row>, m: Mask)
    requires multiset(a) == multiset(b)
    ensures MaskedSum(a, m) == MaskedSum(b, m)
    decreases |a|
  {
    if a == [] {
      assert b == [] by { assert |b| == |multiset(b)| == 0; }
    } else {
      assert a[0] in multiset(b);
      var k :| 0 <= k < |b| && b[k] == a[0];
      MultisetRemoveFirst(a, b, k);
      MaskedSumPermutation(a[1..], b[..k] + b[k + 1..], m);
      MaskedSumUnfold(a, m);
      MaskedSumRemoveAt(b, k, m);
    }
  }
}

/**
 * `DataFrame.sort_values(by=columns, ascending=flags)` as the pipeline uses
 * it: rows ordered lexicographically by the sort columns, each ascending or
 * descending, with missing cells placed last in either direction (pandas'
 * default `na_position="last"`).  Strings compare by code point, numbers
 * numerically; a column holds one kind of value, and between kinds a fixed
 * rank order is used.
 */
module Ordering {
  import opened Frames

  /** Python's `a <= b` on strings: code-point lexicographic order. */
  predicate StrLeq(a: string, b: string)
    decreases |a|
  {
    |a| == 0 || (|b| > 0 && (a[0] < b[0] || (a[0] == b[0] && StrLeq(a[1..], b[1..]))))
  }

  lemma {:induction false} StrLeqTotal(a: string, b: string)
    ensures StrLeq(a, b) || StrLeq(b, a)
    decreases |a|
  {
    if |a| > 0 && |b| > 0 && a[0] == b[0] {
      StrLeqTotal(a[1..], b[1..]);
    }
  }

  lemma {:induction false} StrLeqTrans(a: string, b: string, c: string)
    requires StrLeq(a, b) && StrLeq(b, c)
    ensures StrLeq(a, c)
    decreases |a|
  {
    if |a| > 0 && a[0] == b[0] && b[0] == c[0] {
      StrLeqTrans(a[1..], b[1..], c[1..]);
    }
  }

  /** The kind of a cell, for comparing cells of different kinds. */
  function Rank(c: Cell): nat
  {
    match c
    case Num(_) => 0
    case Str(_) => 1
    case Strs(_) => 2
    case Null => 3
  }

  /** Ascending order on cells: by kind, then by value (lists of strings are not ordered among themselves). */
  predicate CellLeq(a: Cell, b: Cell)
  {
    if Rank(a) != Rank(b) then Rank(a) < Rank(b)
    else match a
      case Num(n) => n <= b.n
      case Str(s) => StrLeq(s, b.s)
      case Strs(_) => true
      case Null => true
  }

  /**
   * The order of one sort column: a missing cell goes after every present
   * one; present cells compare ascending, or reversed when descending.
   */
  predicate KeyLeq(a: Cell, b: Cell, ascending: bool)
  {
    if a.Null? || b.Null? then b.Null?
    else if ascending then CellLeq(a, b) else CellLeq(b, a)
  }

  lemma KeyLeqTotal(a: Cell, b: Cell, ascending: bool)
    ensures KeyLeq(a, b, ascending) || KeyLeq(b, a, ascending)
  {
    if a.Str? && b.Str? {
      StrLeqTotal(a.s, b.s);
    }
  }

  lemma KeyLeqTrans(a: Cell, b: Cell, c: Cell, ascending: bool)
    requires KeyLeq(a, b, ascending) && KeyLeq(b, c, ascending)
    ensures KeyLeq(a, c, ascending)
  {
    if a.Str? && b.Str? && c.Str? {
      if ascending {
        StrLeqTrans(a.s, b.s, c.s);
      } else {
        StrLeqTrans(c.s, b.s, a.s);
      }
    }
  }

  /** One sort column and its direction. */
  datatype SortKey = SortKey(column: string, ascending: bool)

  /** Row `r` may come before row `s`: lexicographic over the sort keys. */
  predicate RowLeq(r: Row, s: Row, keys: seq<SortKey>)
    decreases |keys|
  {
    if keys == [] then true
    else
      var a, b, asc := Get(r, keys[0].column), Get(s, keys[0].column), keys[0].ascending;
      KeyLeq(a, b, asc) && (!KeyLeq(b, a, asc) || RowLeq(r, s, keys[1..]))
  }

  lemma {:induction false} RowLeqTotal(r: Row, s: Row, keys: seq<SortKey>)
    ensures RowLeq(r, s, keys) || RowLeq(s, r, keys)
    decreases |keys|
  {
    if keys != [] {
      KeyLeqTotal(Get(r, keys[0].column), Get(s, keys[0].column), keys[0].ascending);
      RowLeqTotal(r, s, keys[1..]);
    }
  }

  lemma {:induction false} RowLeqTrans(r: Row, s: Row, t: Row, keys: seq<SortKey>)
    requires RowLeq(r, s, keys) && RowLeq(s, t, keys)
    ensures RowLeq(r, t, keys)
    decreases |keys|
  {
    if keys != [] {
      var c, asc := keys[0].column, keys[0].ascending;
      var a, b, d := Get(r, c), Get(s, c), Get(t, c);
      KeyLeqTrans(a, b, d, asc);
      if KeyLeq(d, a, asc) {
        KeyLeqTrans(b, d, a, asc);
        KeyLeqTrans(d, a, b, asc);
        RowLeqTrans(r, s, t, keys[1..]);
      }
    }
  }

  /** Every row may come before every later row. */
  predicate SortedBy(rows: seq<Row>, keys: seq<SortKey>)
  {
    forall i, j :: 0 <= i < j < |rows| ==> RowLeq(rows[i], rows[j], keys)
  }

  /** Row `x` put into the sorted `rows` before the first row it may precede. */
  function InsertRow(x: Row, rows: seq<Row>, keys: seq<SortKey>): (res: seq<Row>)
    requires SortedBy(rows, keys)
    ensures SortedBy(res, keys) && multiset(res) == multiset(rows) + multiset{x}
    decreases |rows|
  {
    if rows == [] || RowLeq(x, rows[0], keys) then
      assert forall j :: 0 <= j < |rows| ==> RowLeq(x, rows[j], keys) by {
        forall j | 0 <= j < |rows| ensures RowLeq(x, rows[j], keys) {
          if j > 0 {
            RowLeqTrans(x, rows[0], rows[j], keys);
          }
        }
      }
      SortedConsRow(x, rows, keys);
      [x] + rows
    else
      var t := InsertRow(x, rows[1..], keys);
      assert rows == [rows[0]] + rows[1..];
      RowLeqTotal(x, rows[0], keys);
      forall k | 0 <= k < |t| ensures RowLeq(rows[0], t[k], keys) {
        assert t[k] in multiset(rows[1..]) + multiset{x};
      }
      SortedConsRow(rows[0], t, keys);
      [rows[0]] + t
  }

  /** A head that may precede every row of a sorted tail keeps it sorted. */
  lemma SortedConsRow(h: Row, t: seq<Row>, keys: seq<SortKey>)
    requires SortedBy(t, keys) && forall k :: 0 <= k < |t| ==> RowLeq(h, t[k], keys)
    ensures SortedBy([h] + t, keys)
  {
    var r := [h] + t;
    forall i, j | 0 <= i < j < |r| ensures RowLeq(r[i], r[j], keys) {
      if i > 0 {
        assert r[i] == t[i - 1] && r[j] == t[j - 1];
      } else {
        assert r[j] == t[j - 1];
      }
    }
  }

  /** The rows reordered by the keys. */
  function SortRows(rows: seq<Row>, keys: seq<SortKey>): (res: seq<Row>)
    ensures SortedBy(res, keys) && multiset(res) == multiset(rows)
    decreases |rows|
  {
    if rows == [] then []
    else
      assert rows == [rows[0]] + rows[1..];
      InsertRow(rows[0], SortRows(rows[1..], keys), keys)
  }

  /** `df.sort_values(by=..., ascending=...)`: the same columns, the same rows in sorted order. */
  function SortValues(f: Frame, keys: seq<SortKey>): (g: Frame)
    ensures g.columns == f.columns && Len(g) == Len(f)
    ensures multiset(g.rows) == multiset(f.rows) && SortedBy(g.rows, keys)
  {
    var rows := SortRows(f.rows, keys);
    assert |rows| == |multiset(rows)|;
    Frame(f.columns, rows)
  }
}

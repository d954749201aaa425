/**
 * Tables as the pipeline handles them: an ordered list of column names and a
 * list of rows, each row a map from column name to cell.  A cell that a row
 * does not hold reads as `Null` (pandas' NaN), which is also what an outer
 * join or a concatenation of differently shaped tables fills in.
 */
module Frames {

  /** Python's optional value: `None` or a value. */
  datatype Option<T> = None | Some(value: T)

  /** A cell value: missing, a number, a string, or a list of strings
      (the `players_list` column). */
  datatype Cell = Null | Num(n: int) | Str(s: string) | Strs(items: seq<string>)

  type Row = map<string, Cell>

  datatype Frame = Frame(columns: seq<string>, rows: seq<Row>)

  /** The first `m + 1` elements are the first `m` and then element `m`. */
  lemma TakeNext<X>(s: seq<X>, m: nat)
    requires m < |s|
    ensures s[..m + 1] == s[..m] + [s[m]]
  {
  }

  /** Appending is associative. */
  lemma AppendAssoc<X>(a: seq<X>, b: seq<X>, c: seq<X>)
    ensures (a + b) + c == a + (b + c)
  {
  }

  /** Element `i` of `a + b` is taken from `a`, or from `b` past the end of `a`. */
  lemma AppendAt<X>(a: seq<X>, b: seq<X>, i: nat)
    requires i < |a| + |b|
    ensures (a + b)[i] == if i < |a| then a[i] else b[i - |a|]
  {
  }

  /** The first `j` of the first `j + 1` elements are the first `j`. */
  lemma TakeTake<X>(s: seq<X>, j: nat)
    requires j < |s|
    ensures s[..j + 1][..j] == s[..j]
  {
  }

  /** Taking all the elements gives the sequence. */
  lemma TakeAll<X>(s: seq<X>)
    ensures s[..|s|] == s
  {
  }

  /** Appending nothing changes nothing. */
  lemma AppendNothing<X>(s: seq<X>)
    ensures s + [] == s
  {
  }

  /** A non-empty sequence is its first `|s| - 1` elements and then its last. */
  lemma DropLast<X>(s: seq<X>)
    requires s != []
    ensures s[..|s| - 1] + [s[|s| - 1]] == s
  {
  }

  /** `[v] * n`: `n` copies of `v`. */
  function Repeat<X>(v: X, n: nat): (r: seq<X>)
    ensures |r| == n && forall i :: 0 <= i < n ==> r[i] == v
  {
    seq(n, i => v)
  }

  /** One more copy at the end. */
  lemma RepeatSnoc<X>(v: X, n: nat)
    ensures Repeat(v, n) + [v] == Repeat(v, n + 1)
  {
  }

  /** `pd.DataFrame()`: no columns, no rows. */
  const EmptyFrame: Frame := Frame([], [])

  /** The cell of column `c` in row `r`; a cell the row lacks is `Null`. */
  function Get(r: Row, c: string): Cell
  {
    if c in r then r[c] else Null
  }

  /** pandas' `df.empty`: true when either axis has length zero. */
  predicate Empty(f: Frame)
  {
    |f.rows| == 0 || |f.columns| == 0
  }

  /** `len(df)`: the number of rows. */
  function Len(f: Frame): nat
  {
    |f.rows|
  }

  /** `key in df.columns` for every key of `cols`. */
  predicate HasColumns(f: Frame, cols: seq<string>)
  {
    forall c :: c in cols ==> c in f.columns
  }

  /** Column `c` is `v` in every row. */
  predicate Constant(f: Frame, c: string, v: Cell)
  {
    c in f.columns && forall i :: 0 <= i < |f.rows| ==> Get(f.rows[i], c) == v
  }

  /** Every `(column, value)` pair of `tags` holds in every row. */
  predicate Tagged(f: Frame, tags: seq<(string, Cell)>)
  {
    forall j :: 0 <= j < |tags| ==> Constant(f, tags[j].0, tags[j].1)
  }

  /** The column names of `tags` are pairwise distinct. */
  predicate DistinctNames(tags: seq<(string, Cell)>)
  {
    forall j, k :: 0 <= j < k < |tags| ==> tags[j].0 != tags[k].0
  }

  /** The row with only the cells of `cols`. */
  function Restrict(r: Row, cols: seq<string>): (s: Row)
    ensures forall c :: c in cols ==> Get(s, c) == Get(r, c)
    ensures forall c :: c !in cols ==> Get(s, c) == Null
    ensures forall c :: c in s ==> c in cols
  {
    map c | c in r && c in cols :: r[c]
  }

  /**
   * `df[c] = fn(row)` applied row by row: an existing column keeps its
   * position, a new one is appended at the end.
   */
  function MapColumn(f: Frame, c: string, fn: Row -> Cell): (g: Frame)
    ensures Len(g) == Len(f) && c in g.columns
    ensures g.columns == if c in f.columns then f.columns else f.columns + [c]
    ensures forall i :: 0 <= i < |g.rows| ==> Get(g.rows[i], c) == fn(f.rows[i])
    ensures forall i, d :: 0 <= i < |g.rows| && d != c ==> Get(g.rows[i], d) == Get(f.rows[i], d)
  {
    Frame(if c in f.columns then f.columns else f.columns + [c],
          seq(|f.rows|, i requires 0 <= i < |f.rows| => f.rows[i][c := fn(f.rows[i])]))
  }

  /** Writing a column that is not a tag name keeps every tag. */
  lemma MapKeepsTagged(f: Frame, c: string, fn: Row -> Cell, tags: seq<(string, Cell)>)
    requires Tagged(f, tags)
    requires forall j :: 0 <= j < |tags| ==> tags[j].0 != c
    ensures Tagged(MapColumn(f, c, fn), tags)
  {
    var g := MapColumn(f, c, fn);
    forall j | 0 <= j < |tags| ensures Constant(g, tags[j].0, tags[j].1) {
      assert Constant(f, tags[j].0, tags[j].1);
    }
  }

  /** `df[c] = v`: the whole column set to one value. */
  function SetColumn(f: Frame, c: string, v: Cell): (g: Frame)
    ensures Len(g) == Len(f) && Constant(g, c, v)
    ensures g.columns == if c in f.columns then f.columns else f.columns + [c]
    ensures forall i, d :: 0 <= i < |g.rows| && d != c ==> Get(g.rows[i], d) == Get(f.rows[i], d)
    ensures forall d :: d in f.columns ==> d in g.columns
  {
    MapColumn(f, c, (r: Row) => v)
  }

  /** The `df[c] = v` assignments of `tags`, in order. */
  function Tag(f: Frame, tags: seq<(string, Cell)>): (g: Frame)
    ensures Len(g) == Len(f)
    ensures forall d :: d in f.columns ==> d in g.columns
    decreases |tags|
  {
    if tags == [] then f else Tag(SetColumn(f, tags[0].0, tags[0].1), tags[1..])
  }

  /** Tagging never touches a column outside the tag names. */
  lemma {:induction false} TagKeeps(f: Frame, tags: seq<(string, Cell)>, i: nat, d: string)
    requires i < |f.rows|
    requires forall j :: 0 <= j < |tags| ==> tags[j].0 != d
    ensures Get(Tag(f, tags).rows[i], d) == Get(f.rows[i], d)
    decreases |tags|
  {
    if tags != [] {
      var g := SetColumn(f, tags[0].0, tags[0].1);
      TagKeeps(g, tags[1..], i, d);
    }
  }

  /** A column that is constant stays so when tagging does not name it. */
  lemma TagKeepsConstant(f: Frame, tags: seq<(string, Cell)>, c: string, v: Cell)
    requires Constant(f, c, v)
    requires forall j :: 0 <= j < |tags| ==> tags[j].0 != c
    ensures Constant(Tag(f, tags), c, v)
  {
    var g := Tag(f, tags);
    forall i | 0 <= i < |g.rows| ensures Get(g.rows[i], c) == v {
      TagKeeps(f, tags, i, c);
    }
  }

  /** With distinct names, a tagged frame carries every tag in every row. */
  lemma {:induction false} TagSetsAll(f: Frame, tags: seq<(string, Cell)>)
    requires DistinctNames(tags)
    ensures Tagged(Tag(f, tags), tags)
    decreases |tags|
  {
    if tags != [] {
      var g := SetColumn(f, tags[0].0, tags[0].1);
      var rest := tags[1..];
      assert DistinctNames(rest) by {
        forall j, k | 0 <= j < k < |rest| ensures rest[j].0 != rest[k].0 {
          assert rest[j] == tags[j + 1] && rest[k] == tags[k + 1];
        }
      }
      TagSetsAll(g, rest);
      var h := Tag(g, rest);
      assert h == Tag(f, tags);
      forall j | 0 <= j < |tags| ensures Constant(h, tags[j].0, tags[j].1) {
        if j == 0 {
          forall i | 0 <= i < |h.rows| ensures Get(h.rows[i], tags[0].0) == tags[0].1 {
            forall k | 0 <= k < |rest| ensures rest[k].0 != tags[0].0 {
              assert rest[k] == tags[k + 1];
            }
            TagKeeps(g, rest, i, tags[0].0);
          }
        } else {
          assert tags[j] == rest[j - 1];
        }
      }
    }
  }

  /** Tagging adds exactly the tag names to the columns. */
  lemma {:induction false} TagColumns(f: Frame, tags: seq<(string, Cell)>)
    ensures forall x :: x in Tag(f, tags).columns <==> x in f.columns || exists j :: 0 <= j < |tags| && tags[j].0 == x
    decreases |tags|
  {
    if tags != [] {
      var g := SetColumn(f, tags[0].0, tags[0].1);
      TagColumns(g, tags[1..]);
      forall x ensures x in Tag(f, tags).columns <==> x in f.columns || exists j :: 0 <= j < |tags| && tags[j].0 == x {
        if exists j :: 0 <= j < |tags[1..]| && tags[1..][j].0 == x {
          var j :| 0 <= j < |tags[1..]| && tags[1..][j].0 == x;
          assert tags[j + 1].0 == x;
        }
        if j :| 0 <= j < |tags| && tags[j].0 == x {
          if j > 0 {
            assert tags[1..][j - 1].0 == x;
          }
        }
      }
    }
  }

  /** The columns of `a` followed by those of `b` that are new, in order. */
  function UnionColumns(a: seq<string>, b: seq<string>): (u: seq<string>)
    ensures forall c :: c in u <==> c in a || c in b
    ensures |a| <= |u| && u[..|a|] == a
    decreases |b|
  {
    if b == [] then a
    else if b[0] in a then UnionColumns(a, b[1..])
    else
      var u := UnionColumns(a + [b[0]], b[1..]);
      assert u[..|a|] == u[..|a| + 1][..|a|];
      u
  }

  /** The rows of `f`, each holding only the columns of `f`. */
  function FrameRows(f: Frame): (rs: seq<Row>)
    ensures |rs| == |f.rows|
  {
    seq(|f.rows|, i requires 0 <= i < |f.rows| => Restrict(f.rows[i], f.columns))
  }

  /**
   * `pd.concat(frames, ignore_index=True)`: the union of the columns in
   * order of first appearance and the rows of every frame, one frame after
   * the other; cells a frame lacks read as `Null`.
   */
  function Concat(fs: seq<Frame>): (g: Frame)
    decreases |fs|
  {
    if fs == [] then EmptyFrame
    else
      var init := Concat(fs[..|fs| - 1]);
      var last := fs[|fs| - 1];
      Frame(UnionColumns(init.columns, last.columns), init.rows + FrameRows(last))
  }

  /** The sum of the row counts of `fs`. */
  function SumLen(fs: seq<Frame>): nat
    decreases |fs|
  {
    if fs == [] then 0 else SumLen(fs[..|fs| - 1]) + Len(fs[|fs| - 1])
  }

  /** One more frame adds its columns that are new and its rows. */
  lemma ConcatSnoc(fs: seq<Frame>, x: Frame)
    ensures Concat(fs + [x]) == Frame(UnionColumns(Concat(fs).columns, x.columns), Concat(fs).rows + FrameRows(x))
  {
    assert (fs + [x])[..|fs|] == fs;
  }

  /** A single frame keeps its columns and its rows. */
  lemma ConcatOne(a: Frame)
    ensures Concat([a]) == Frame(UnionColumns([], a.columns), FrameRows(a))
  {
    ConcatSnoc([], a);
    assert [] + [a] == [a];
  }

  /** `pd.concat([a, b])`: the rows of `a`, then those of `b`, under the columns of both. */
  lemma ConcatPair(a: Frame, b: Frame)
    ensures Concat([a, b]).rows == FrameRows(a) + FrameRows(b)
    ensures forall c :: c in a.columns || c in b.columns ==> c in Concat([a, b]).columns
  {
    ConcatOne(a);
    ConcatSnoc([a], b);
    assert [a] + [b] == [a, b];
  }

  /** The row count of a concatenation is the sum of the row counts. */
  lemma {:induction false} ConcatLen(fs: seq<Frame>)
    ensures Len(Concat(fs)) == SumLen(fs)
    decreases |fs|
  {
    if fs != [] {
      ConcatLen(fs[..|fs| - 1]);
    }
  }

  /** Every column of every concatenated frame is a column of the result. */
  lemma {:induction false} ConcatColumns(fs: seq<Frame>)
    ensures forall j, c :: 0 <= j < |fs| && c in fs[j].columns ==> c in Concat(fs).columns
    decreases |fs|
  {
    if fs != [] {
      ConcatColumns(fs[..|fs| - 1]);
      forall j, c | 0 <= j < |fs| && c in fs[j].columns ensures c in Concat(fs).columns {
        if j < |fs| - 1 {
          assert fs[j] == fs[..|fs| - 1][j];
        }
      }
    }
  }

  /** The concatenation is empty of rows exactly when every frame is. */
  lemma {:induction false} SumLenZero(fs: seq<Frame>)
    ensures SumLen(fs) == 0 <==> forall j :: 0 <= j < |fs| ==> Len(fs[j]) == 0
    decreases |fs|
  {
    if fs != [] {
      var init := fs[..|fs| - 1];
      SumLenZero(init);
      assert forall j :: 0 <= j < |init| ==> init[j] == fs[j];
    }
  }

  /** Row counts add up over an appended frame (a convenience unfolding). */
  lemma SumLenSnoc(fs: seq<Frame>, f: Frame)
    ensures SumLen(fs + [f]) == SumLen(fs) + Len(f)
  {
    assert (fs + [f])[..|fs|] == fs;
  }
}

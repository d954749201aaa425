/**
 * `merge_measure_types` (pipeline/utils.py): one frame per measure type,
 * merged on a key column.  Each frame keeps the key and only the columns no
 * earlier frame has already introduced, and the kept frames are combined by
 * a left fold of outer joins on the key.
 *
 * The outer join follows pandas' `how="outer"` semantics on the row level:
 * every pair of a left and a right row with equal keys, every left row no
 * right row matches, and every right row no left row matches.  The order in
 * which pandas lists those rows is not modelled.
 */
module Merge {
  import opened Frames

  /** The key values of the rows of `f`. */
  function Keys(f: Frame, key: string): set<Cell>
  {
    set r | r in f.rows :: Get(r, key)
  }

  /** Every row of `f` holds cells of the columns of `f` only. */
  predicate RowsWithin(f: Frame)
  {
    forall r, c :: r in f.rows && c in r ==> c in f.columns
  }

  /** The cell of `c` in a row made of `l` overlaid with `m`. */
  lemma GetUnion(l: Row, m: Row, c: string)
    ensures Get(l + m, c) == if c in m then m[c] else Get(l, c)
  {
  }

  /** The rows of `rs` whose key is `k`, in order. */
  function Matching(rs: seq<Row>, key: string, k: Cell): (ms: seq<Row>)
    ensures forall m :: m in ms <==> m in rs && Get(m, key) == k
    decreases |rs|
  {
    if rs == [] then []
    else (if Get(rs[0], key) == k then [rs[0]] else []) + Matching(rs[1..], key, k)
  }

  /** The columns of `cols` other than `key`, in order. */
  function Without(cols: seq<string>, key: string): (ws: seq<string>)
    ensures forall c :: c in ws <==> c in cols && c != key
    decreases |cols|
  {
    if cols == [] then []
    else (if cols[0] != key then [cols[0]] else []) + Without(cols[1..], key)
  }

  /**
   * The rows the outer join makes of the left row `l`: `l` combined with
   * every right row of the same key, or `l` alone when there is none.
   */
  function JoinOne(l: Row, right: Frame, key: string): (xs: seq<Row>)
    ensures |xs| >= 1
    ensures forall x :: x in xs ==> Get(x, key) == Get(l, key)
    ensures forall x :: x in xs ==>
              (x == l && Get(l, key) !in Keys(right, key))
              || exists m :: m in right.rows && Get(m, key) == Get(l, key) && x == l + m
  {
    var ms := Matching(right.rows, key, Get(l, key));
    if ms == [] then [l]
    else
      var xs := seq(|ms|, i requires 0 <= i < |ms| => l + ms[i]);
      assert forall x :: x in xs ==> exists i :: 0 <= i < |ms| && x == l + ms[i];
      forall i | 0 <= i < |ms| ensures Get(l + ms[i], key) == Get(l, key) {
        assert ms[i] in ms;
        GetUnion(l, ms[i], key);
      }
      xs
  }

  /** The joined rows of the left rows `ls`, one left row after the other. */
  function JoinLeft(ls: seq<Row>, right: Frame, key: string): seq<Row>
    decreases |ls|
  {
    if ls == [] then [] else JoinOne(ls[0], right, key) + JoinLeft(ls[1..], right, key)
  }

  /** The rows of `rs` whose key is not in `ks`, in order. */
  function Unmatched(rs: seq<Row>, key: string, ks: set<Cell>): (us: seq<Row>)
    ensures forall u :: u in us <==> u in rs && Get(u, key) !in ks
    decreases |rs|
  {
    if rs == [] then []
    else (if Get(rs[0], key) !in ks then [rs[0]] else []) + Unmatched(rs[1..], key, ks)
  }

  /**
   * `pd.merge(left, right, on=key, how="outer")`: the left columns, then the
   * right columns but the key; the joined rows of every left row, then the
   * right rows whose key no left row has.
   */
  function OuterJoin(left: Frame, right: Frame, key: string): Frame
  {
    Frame(left.columns + Without(right.columns, key),
          JoinLeft(left.rows, right, key) + Unmatched(right.rows, key, Keys(left, key)))
  }

  /** A row of `JoinLeft` comes from one of the left rows. */
  lemma {:induction false} JoinLeftFrom(ls: seq<Row>, right: Frame, key: string, x: Row) returns (l: Row)
    requires x in JoinLeft(ls, right, key)
    ensures l in ls && x in JoinOne(l, right, key)
    decreases |ls|
  {
    if x in JoinOne(ls[0], right, key) {
      l := ls[0];
    } else {
      l := JoinLeftFrom(ls[1..], right, key, x);
    }
  }

  /** Every row a left row makes is a row of `JoinLeft`. */
  lemma {:induction false} JoinLeftHas(ls: seq<Row>, right: Frame, key: string, l: Row)
    requires l in ls
    ensures forall x :: x in JoinOne(l, right, key) ==> x in JoinLeft(ls, right, key)
    decreases |ls|
  {
    if ls[0] != l {
      JoinLeftHas(ls[1..], right, key, l);
    }
  }

  /**
   * Each row of an outer join is a left row `l` overlaid with a right row
   * `m`, where either side may be missing (the empty row): both present with
   * equal keys, a left row no right row matches, or a right row no left row
   * matches.
   */
  lemma JoinedFrom(left: Frame, right: Frame, key: string, x: Row) returns (l: Row, m: Row)
    requires x in OuterJoin(left, right, key).rows
    ensures x == l + m
    ensures || (l in left.rows && m in right.rows && Get(m, key) == Get(l, key))
            || (l in left.rows && m == map[] && Get(l, key) !in Keys(right, key))
            || (l == map[] && m in right.rows && Get(m, key) !in Keys(left, key))
  {
    var jl := JoinLeft(left.rows, right, key);
    var un := Unmatched(right.rows, key, Keys(left, key));
    assert x in jl + un;
    if x in jl {
      l := JoinLeftFrom(left.rows, right, key, x);
      m := JoinOneFrom(l, right, key, x);
    } else {
      assert x in un;
      l, m := map[], x;
      assert x == l + m;
    }
  }

  /** A row `l` makes is `l` with a matching right row, or `l` alone when none matches. */
  lemma JoinOneFrom(l: Row, right: Frame, key: string, x: Row) returns (m: Row)
    requires x in JoinOne(l, right, key)
    ensures x == l + m
    ensures (m in right.rows && Get(m, key) == Get(l, key)) || (m == map[] && Get(l, key) !in Keys(right, key))
  {
    if x == l && Get(l, key) !in Keys(right, key) {
      m := map[];
      assert x == l + m;
    } else {
      m :| m in right.rows && Get(m, key) == Get(l, key) && x == l + m;
    }
  }

  /** The key values of an outer join are those of either side. */
  lemma JoinKeys(left: Frame, right: Frame, key: string)
    ensures Keys(OuterJoin(left, right, key), key) == Keys(left, key) + Keys(right, key)
  {
    var j := OuterJoin(left, right, key);
    forall k | k in Keys(j, key) ensures k in Keys(left, key) + Keys(right, key) {
      var x :| x in j.rows && Get(x, key) == k;
      var l, m := JoinedFrom(left, right, key, x);
      GetUnion(l, m, key);
    }
    forall k | k in Keys(left, key) + Keys(right, key) ensures k in Keys(j, key) {
      if k in Keys(left, key) {
        var l :| l in left.rows && Get(l, key) == k;
        JoinLeftHas(left.rows, right, key, l);
        var xs := JoinOne(l, right, key);
        assert xs[0] in j.rows;
      } else {
        var m :| m in right.rows && Get(m, key) == k;
        assert m in j.rows;
      }
    }
  }

  /** An outer join keeps at least one row per left row. */
  lemma {:induction false} JoinLeftLen(ls: seq<Row>, right: Frame, key: string)
    ensures |JoinLeft(ls, right, key)| >= |ls|
    decreases |ls|
  {
    if ls != [] {
      JoinLeftLen(ls[1..], right, key);
    }
  }

  /** The left fold of outer joins `reduce(merge, fs)`. */
  function FoldJoin(fs: seq<Frame>, key: string): Frame
    requires |fs| >= 1
    decreases |fs|
  {
    if |fs| == 1 then fs[0]
    else OuterJoin(FoldJoin(fs[..|fs| - 1], key), fs[|fs| - 1], key)
  }

  /** Each frame holds the key and no cells outside its columns. */
  predicate KeyedFrames(fs: seq<Frame>, key: string)
  {
    forall j :: 0 <= j < |fs| ==> key in fs[j].columns && RowsWithin(fs[j])
  }

  /** No two frames share a column other than the key. */
  predicate DisjointColumns(fs: seq<Frame>, key: string)
  {
    forall i, j, c :: 0 <= i < j < |fs| && c in fs[i].columns && c in fs[j].columns ==> c == key
  }

  /**
   * The cell of column `c` in row `r` was taken from frame `f`: from a row of
   * `f` with the same key, or `Null` when `f` has no row of that key.
   */
  ghost predicate CellFrom(r: Row, f: Frame, key: string, c: string)
  {
    (exists s :: s in f.rows && Get(s, key) == Get(r, key) && Get(s, c) == Get(r, c))
    || (Get(r, c) == Null && Get(r, key) !in Keys(f, key))
  }

  /** The fold holds the columns of every frame and nothing else, and keeps its rows within them. */
  lemma {:induction false} FoldShape(fs: seq<Frame>, key: string)
    requires |fs| >= 1 && KeyedFrames(fs, key)
    ensures key in FoldJoin(fs, key).columns && RowsWithin(FoldJoin(fs, key))
    ensures forall c :: c in FoldJoin(fs, key).columns <==> exists j :: 0 <= j < |fs| && c in fs[j].columns
    ensures |FoldJoin(fs, key).rows| >= |fs[0].rows|
    decreases |fs|
  {
    if |fs| > 1 {
      var init, g := fs[..|fs| - 1], fs[|fs| - 1];
      assert forall j :: 0 <= j < |init| ==> init[j] == fs[j];
      FoldShape(init, key);
      var acc := FoldJoin(init, key);
      var res := OuterJoin(acc, g, key);
      JoinLeftLen(acc.rows, g, key);
      forall x, c | x in res.rows && c in x ensures c in res.columns {
        var l, m := JoinedFrom(acc, g, key, x);
        assert c in l || c in m;
      }
      forall c | c in res.columns ensures exists j :: 0 <= j < |fs| && c in fs[j].columns {
        if c in acc.columns {
          var j :| 0 <= j < |init| && c in init[j].columns;
          assert c in fs[j].columns;
        } else {
          assert c in fs[|fs| - 1].columns;
        }
      }
      forall c | exists j :: 0 <= j < |fs| && c in fs[j].columns ensures c in res.columns {
        var j :| 0 <= j < |fs| && c in fs[j].columns;
        if j < |fs| - 1 {
          assert c in init[j].columns;
        }
      }
    }
  }

  /** The key values of all the frames of `fs`. */
  function AllKeys(fs: seq<Frame>, key: string): set<Cell>
    decreases |fs|
  {
    if fs == [] then {} else AllKeys(fs[..|fs| - 1], key) + Keys(fs[|fs| - 1], key)
  }

  /** Each frame's keys are among all the keys. */
  lemma {:induction false} AllKeysHas(fs: seq<Frame>, key: string, j: nat)
    requires j < |fs|
    ensures Keys(fs[j], key) <= AllKeys(fs, key)
    decreases |fs|
  {
    if j < |fs| - 1 {
      AllKeysHas(fs[..|fs| - 1], key, j);
    }
  }

  /** Every key comes from one of the frames. */
  lemma {:induction false} AllKeysFrom(fs: seq<Frame>, key: string, k: Cell) returns (j: nat)
    requires k in AllKeys(fs, key)
    ensures j < |fs| && k in Keys(fs[j], key)
    decreases |fs|
  {
    if k in Keys(fs[|fs| - 1], key) {
      j := |fs| - 1;
    } else {
      j := AllKeysFrom(fs[..|fs| - 1], key, k);
    }
  }

  /** The key values of the fold are those of all the frames. */
  lemma {:induction false} FoldKeys(fs: seq<Frame>, key: string)
    requires |fs| >= 1
    ensures Keys(FoldJoin(fs, key), key) == AllKeys(fs, key)
    decreases |fs|
  {
    var init := fs[..|fs| - 1];
    if |fs| == 1 {
      assert init == [];
    } else {
      FoldKeys(init, key);
      JoinKeys(FoldJoin(init, key), fs[|fs| - 1], key);
    }
  }

  /**
   * A column from an earlier frame `f`, not a column of the joined frame
   * `g`, keeps its provenance through the join.
   */
  lemma CellFromOld(acc: Frame, g: Frame, f: Frame, key: string, c: string, r: Row)
    requires r in OuterJoin(acc, g, key).rows
    requires RowsWithin(g) && c !in g.columns
    requires forall x :: x in acc.rows ==> CellFrom(x, f, key, c)
    requires Keys(f, key) <= Keys(acc, key)
    ensures CellFrom(r, f, key, c)
  {
    var l, m := JoinedFrom(acc, g, key, r);
    GetUnion(l, m, c);
    GetUnion(l, m, key);
    assert c !in m;
    if l in acc.rows {
      assert CellFrom(l, f, key, c);
    }
  }

  /** A column that only the joined frame `g` holds takes its cells from `g`. */
  lemma CellFromNew(acc: Frame, g: Frame, key: string, c: string, r: Row)
    requires r in OuterJoin(acc, g, key).rows
    requires RowsWithin(acc) && c !in acc.columns
    ensures CellFrom(r, g, key, c)
  {
    var l, m := JoinedFrom(acc, g, key, r);
    GetUnion(l, m, c);
    GetUnion(l, m, key);
    assert c !in l;
    if l in acc.rows && m in g.rows && Get(m, key) == Get(l, key) {
      assert Get(m, key) == Get(r, key) && Get(m, c) == Get(r, c);
    } else if l == map[] && m in g.rows {
      assert Get(m, key) == Get(r, key) && Get(m, c) == Get(r, c);
    }
  }

  /**
   * Every cell of a column a frame brings into the fold comes from that
   * frame: a later join never overwrites it and never invents a value for it.
   */
  lemma {:induction false} FoldCells(fs: seq<Frame>, key: string)
    requires |fs| >= 1 && KeyedFrames(fs, key) && DisjointColumns(fs, key)
    ensures forall j, c, r :: 0 <= j < |fs| && c in fs[j].columns && c != key && r in FoldJoin(fs, key).rows
              ==> CellFrom(r, fs[j], key, c)
    decreases |fs|
  {
    if |fs| == 1 {
      forall c, r | c in fs[0].columns && r in fs[0].rows ensures CellFrom(r, fs[0], key, c) {
        assert Get(r, key) == Get(r, key) && Get(r, c) == Get(r, c);
      }
    } else {
      var n := |fs|;
      var init, g := fs[..n - 1], fs[n - 1];
      assert forall j :: 0 <= j < |init| ==> init[j] == fs[j];
      assert KeyedFrames(init, key) && DisjointColumns(init, key);
      FoldCells(init, key);
      FoldShape(init, key);
      FoldKeys(init, key);
      var acc := FoldJoin(init, key);
      forall j, c, r | 0 <= j < n && c in fs[j].columns && c != key && r in FoldJoin(fs, key).rows
        ensures CellFrom(r, fs[j], key, c)
      {
        if j < n - 1 {
          AllKeysHas(init, key, j);
          assert c in init[j].columns;
          CellFromOld(acc, g, init[j], key, c, r);
        } else {
          assert c !in acc.columns;
          CellFromNew(acc, g, key, c, r);
        }
      }
    }
  }

  /** A measure type's frame takes part in the merge: present, not empty, and holding the key. */
  predicate Contributes(df: Option<Frame>, key: string)
  {
    df.Some? && !Empty(df.value) && key in df.value.columns
  }

  /** The columns of `cols` not yet seen, and the key, in order. */
  function NewColumns(cols: seq<string>, seen: set<string>, key: string): (nc: seq<string>)
    ensures forall c :: c in nc <==> c in cols && (c !in seen || c == key)
    decreases |cols|
  {
    if cols == [] then []
    else (if cols[0] !in seen || cols[0] == key then [cols[0]] else []) + NewColumns(cols[1..], seen, key)
  }

  /** `df[cols]`: the frame cut down to the columns `cols`. */
  function Project(f: Frame, cols: seq<string>): (p: Frame)
    ensures p.columns == cols && |p.rows| == |f.rows|
    ensures RowsWithin(p)
  {
    Frame(cols, seq(|f.rows|, i requires 0 <= i < |f.rows| => Restrict(f.rows[i], cols)))
  }

  /** A projection that keeps the key keeps the key values. */
  lemma ProjectKeys(f: Frame, cols: seq<string>, key: string)
    requires key in cols
    ensures Keys(Project(f, cols), key) == Keys(f, key)
  {
    var p := Project(f, cols);
    forall k | k in Keys(f, key) ensures k in Keys(p, key) {
      var r :| r in f.rows && Get(r, key) == k;
      var i :| 0 <= i < |f.rows| && f.rows[i] == r;
      assert p.rows[i] in p.rows;
    }
  }

  /** A cell taken from a projection was taken from the projected frame. */
  lemma ProjectCellFrom(f: Frame, cols: seq<string>, key: string, c: string, r: Row)
    requires key in cols && c in cols
    requires CellFrom(r, Project(f, cols), key, c)
    ensures CellFrom(r, f, key, c)
  {
    var p := Project(f, cols);
    ProjectKeys(f, cols, key);
    if s :| s in p.rows && Get(s, key) == Get(r, key) && Get(s, c) == Get(r, c) {
      var i :| 0 <= i < |p.rows| && p.rows[i] == s;
      assert f.rows[i] in f.rows;
    }
  }

  /** The state of the claiming loop: the frames kept so far and the columns seen. */
  datatype Claims = Claims(frames: seq<Frame>, seen: set<string>)

  /**
   * The loop of `merge_measure_types` over the measure types in order: a
   * missing or empty frame is skipped; otherwise its unseen columns and the
   * key are kept, the frame is skipped when they do not include the key,
   * and the kept columns join the seen ones.
   */
  function Claim(ms: seq<(string, Option<Frame>)>, key: string): Claims
    decreases |ms|
  {
    if ms == [] then Claims([], {key})
    else
      var c := Claim(ms[..|ms| - 1], key);
      var df := ms[|ms| - 1].1;
      if df.None? || Empty(df.value) then c
      else
        var cols := NewColumns(df.value.columns, c.seen, key);
        if cols == [] || key !in cols then c
        else Claims(c.frames + [Project(df.value, cols)], c.seen + set x | x in cols)
  }

  /**
   * `merge_measure_types(dataframes_dict, merge_key)`: an empty dictionary
   * or no kept frame gives the empty frame, otherwise the fold of outer
   * joins of the kept frames.
   */
  function Merged(ms: seq<(string, Option<Frame>)>, key: string): Frame
  {
    if ms == [] then EmptyFrame
    else
      var fs := Claim(ms, key).frames;
      if fs == [] then EmptyFrame else FoldJoin(fs, key)
  }

  /** The positions of the measure types that take part, in order. */
  function Contributors(ms: seq<(string, Option<Frame>)>, key: string): (src: seq<nat>)
    ensures forall k :: 0 <= k < |src| ==> src[k] < |ms| && Contributes(ms[src[k]].1, key)
    ensures forall a, b :: 0 <= a < b < |src| ==> src[a] < src[b]
    ensures forall j :: 0 <= j < |ms| && Contributes(ms[j].1, key) ==> j in src
    decreases |ms|
  {
    if ms == [] then []
    else
      var init := ms[..|ms| - 1];
      assert forall j :: 0 <= j < |init| ==> init[j] == ms[j];
      Contributors(init, key) + if Contributes(ms[|ms| - 1].1, key) then [|ms| - 1] else []
  }

  /** Column `c` belongs to a measure type before position `j` that takes part. */
  ghost predicate ClaimedBefore(ms: seq<(string, Option<Frame>)>, key: string, j: nat, c: string)
  {
    exists i :: 0 <= i < j && i < |ms| && Contributes(ms[i].1, key) && c in ms[i].1.value.columns
  }

  /** Whether a column was claimed before `j` depends only on the measure types before `j`. */
  lemma ClaimedBeforePrefix(ms: seq<(string, Option<Frame>)>, key: string, j: nat, c: string)
    requires 0 < |ms| && j < |ms|
    ensures ClaimedBefore(ms, key, j, c) <==> ClaimedBefore(ms[..|ms| - 1], key, j, c)
  {
    var init := ms[..|ms| - 1];
    if ClaimedBefore(ms, key, j, c) {
      var i :| 0 <= i < j && i < |ms| && Contributes(ms[i].1, key) && c in ms[i].1.value.columns;
      assert init[i] == ms[i];
    }
    if ClaimedBefore(init, key, j, c) {
      var i :| 0 <= i < j && i < |init| && Contributes(init[i].1, key) && c in init[i].1.value.columns;
      assert init[i] == ms[i];
    }
  }

  /** One more measure type claims a column only when it takes part and holds it. */
  lemma ClaimedBeforeStep(ms: seq<(string, Option<Frame>)>, key: string, c: string)
    requires 0 < |ms|
    ensures ClaimedBefore(ms, key, |ms|, c)
        <==> ClaimedBefore(ms, key, |ms| - 1, c)
             || (Contributes(ms[|ms| - 1].1, key) && c in ms[|ms| - 1].1.value.columns)
  {
  }

  /** The seen columns are the key and every column of a measure type that took part. */
  lemma {:induction false} ClaimSeen(ms: seq<(string, Option<Frame>)>, key: string)
    ensures forall c :: c in Claim(ms, key).seen <==> c == key || ClaimedBefore(ms, key, |ms|, c)
    decreases |ms|
  {
    if ms != [] {
      var init := ms[..|ms| - 1];
      ClaimSeen(init, key);
      forall c ensures c in Claim(ms, key).seen <==> c == key || ClaimedBefore(ms, key, |ms|, c) {
        ClaimedBeforeStep(ms, key, c);
        ClaimedBeforePrefix(ms, key, |ms| - 1, c);
        assert ClaimedBefore(init, key, |init|, c) <==> ClaimedBefore(init, key, |ms| - 1, c);
      }
    }
  }

  /**
   * The kept frames correspond one to one, in order, to the measure types
   * that take part: each is its measure type's frame cut down to the key
   * and the columns no earlier participant holds.
   */
  lemma {:induction false} ClaimFrames(ms: seq<(string, Option<Frame>)>, key: string)
    ensures |Claim(ms, key).frames| == |Contributors(ms, key)|
    ensures forall k :: 0 <= k < |Contributors(ms, key)| ==>
              var f := Claim(ms, key).frames[k];
              var df := ms[Contributors(ms, key)[k]].1.value;
              key in f.columns && f == Project(df, f.columns)
              && forall c :: c != key ==>
                   (c in f.columns <==> c in df.columns && !ClaimedBefore(ms, key, Contributors(ms, key)[k], c))
    decreases |ms|
  {
    if ms != [] {
      var n := |ms|;
      var init := ms[..n - 1];
      assert forall j :: 0 <= j < |init| ==> init[j] == ms[j];
      ClaimFrames(init, key);
      ClaimSeen(init, key);
      var src, src0 := Contributors(ms, key), Contributors(init, key);
      var fs, fs0 := Claim(ms, key).frames, Claim(init, key).frames;
      var df := ms[n - 1].1;
      assert |src0| <= |src| && src[..|src0|] == src0;
      forall k | 0 <= k < |src| ensures
        var f := fs[k];
        var d := ms[src[k]].1.value;
        key in f.columns && f == Project(d, f.columns)
        && forall c :: c != key ==> (c in f.columns <==> c in d.columns && !ClaimedBefore(ms, key, src[k], c))
      {
        if k < |src0| {
          assert src[k] == src0[k] && fs[k] == fs0[k];
          forall c ensures ClaimedBefore(ms, key, src[k], c) <==> ClaimedBefore(init, key, src[k], c) {
            ClaimedBeforePrefix(ms, key, src[k], c);
          }
        } else {
          assert src[k] == n - 1 && Contributes(df, key);
          forall c | c != key ensures ClaimedBefore(ms, key, n - 1, c) <==> ClaimedBefore(init, key, |init|, c) {
            ClaimedBeforePrefix(ms, key, n - 1, c);
          }
        }
      }
    }
  }

  /** The kept frames hold the key, stay within their columns, and share no other column. */
  lemma ClaimJoinable(ms: seq<(string, Option<Frame>)>, key: string)
    ensures KeyedFrames(Claim(ms, key).frames, key)
    ensures DisjointColumns(Claim(ms, key).frames, key)
  {
    ClaimFrames(ms, key);
    var fs, src := Claim(ms, key).frames, Contributors(ms, key);
    forall a, b, c | 0 <= a < b < |fs| && c in fs[a].columns && c in fs[b].columns ensures c == key {
      if c != key {
        assert src[a] < src[b];
        assert ClaimedBefore(ms, key, src[b], c);
      }
    }
  }

  /** The merge is empty exactly when no measure type takes part. */
  lemma MergedEmpty(ms: seq<(string, Option<Frame>)>, key: string)
    ensures Empty(Merged(ms, key)) <==> forall j :: 0 <= j < |ms| ==> !Contributes(ms[j].1, key)
  {
    ClaimFrames(ms, key);
    ClaimJoinable(ms, key);
    var fs, src := Claim(ms, key).frames, Contributors(ms, key);
    if j :| 0 <= j < |ms| && Contributes(ms[j].1, key) {
      assert j in src;
      FoldShape(fs, key);
      assert |fs[0].rows| == |ms[src[0]].1.value.rows|;
    }
  }

  /** The first measure type that takes part and holds column `c`. */
  lemma FirstClaimer(ms: seq<(string, Option<Frame>)>, key: string, j: nat, c: string) returns (i: nat)
    requires j < |ms| && Contributes(ms[j].1, key) && c in ms[j].1.value.columns
    ensures i <= j && Contributes(ms[i].1, key) && c in ms[i].1.value.columns
    ensures !ClaimedBefore(ms, key, i, c)
    decreases j
  {
    if ClaimedBefore(ms, key, j, c) {
      var i' :| 0 <= i' < j && i' < |ms| && Contributes(ms[i'].1, key) && c in ms[i'].1.value.columns;
      i := FirstClaimer(ms, key, i', c);
    } else {
      i := j;
    }
  }

  /** The merged columns are exactly the columns of the measure types that take part. */
  lemma MergedColumns(ms: seq<(string, Option<Frame>)>, key: string)
    ensures forall c :: c in Merged(ms, key).columns
              <==> exists j :: 0 <= j < |ms| && Contributes(ms[j].1, key) && c in ms[j].1.value.columns
  {
    forall c ensures c in Merged(ms, key).columns
              <==> exists j :: 0 <= j < |ms| && Contributes(ms[j].1, key) && c in ms[j].1.value.columns
    {
      if c in Merged(ms, key).columns {
        var j := MergedColumnFrom(ms, key, c);
      }
      if j :| 0 <= j < |ms| && Contributes(ms[j].1, key) && c in ms[j].1.value.columns {
        MergedColumnHas(ms, key, j, c);
      }
    }
  }

  /** A merged column comes from a measure type that takes part. */
  lemma MergedColumnFrom(ms: seq<(string, Option<Frame>)>, key: string, c: string) returns (j: nat)
    requires c in Merged(ms, key).columns
    ensures j < |ms| && Contributes(ms[j].1, key) && c in ms[j].1.value.columns
  {
    ClaimFrames(ms, key);
    ClaimJoinable(ms, key);
    var fs, src := Claim(ms, key).frames, Contributors(ms, key);
    FoldShape(fs, key);
    var k :| 0 <= k < |fs| && c in fs[k].columns;
    j := src[k];
  }

  /** Every column of a measure type that takes part is merged. */
  lemma MergedColumnHas(ms: seq<(string, Option<Frame>)>, key: string, j: nat, c: string)
    requires j < |ms| && Contributes(ms[j].1, key) && c in ms[j].1.value.columns
    ensures c in Merged(ms, key).columns
  {
    ClaimFrames(ms, key);
    ClaimJoinable(ms, key);
    var fs, src := Claim(ms, key).frames, Contributors(ms, key);
    var i := FirstClaimer(ms, key, j, c);
    assert i in src;
    var k :| 0 <= k < |src| && src[k] == i;
    assert c in fs[k].columns;
    FoldShape(fs, key);
  }

  /** The merged key values are exactly those of the measure types that take part. */
  lemma MergedKeys(ms: seq<(string, Option<Frame>)>, key: string)
    ensures forall k :: k in Keys(Merged(ms, key), key)
              <==> exists j :: 0 <= j < |ms| && Contributes(ms[j].1, key) && k in Keys(ms[j].1.value, key)
  {
    ClaimFrames(ms, key);
    var fs, src := Claim(ms, key).frames, Contributors(ms, key);
    if fs != [] {
      FoldKeys(fs, key);
      forall k | k in Keys(Merged(ms, key), key)
        ensures exists j :: 0 <= j < |ms| && Contributes(ms[j].1, key) && k in Keys(ms[j].1.value, key)
      {
        var a := AllKeysFrom(fs, key, k);
        ProjectKeys(ms[src[a]].1.value, fs[a].columns, key);
      }
      forall k | exists j :: 0 <= j < |ms| && Contributes(ms[j].1, key) && k in Keys(ms[j].1.value, key)
        ensures k in Keys(Merged(ms, key), key)
      {
        var j :| 0 <= j < |ms| && Contributes(ms[j].1, key) && k in Keys(ms[j].1.value, key);
        assert j in src;
        var a :| 0 <= a < |src| && src[a] == j;
        ProjectKeys(ms[j].1.value, fs[a].columns, key);
        AllKeysHas(fs, key, a);
      }
    }
  }

  /**
   * First writer wins: a column other than the key that measure type `j`
   * is the first participant to hold takes every merged cell from `j`'s
   * frame, matched on the key, or `Null` where `j`'s frame lacks that key.
   */
  lemma FirstWriterWins(ms: seq<(string, Option<Frame>)>, key: string, j: nat, c: string)
    requires j < |ms| && Contributes(ms[j].1, key) && c in ms[j].1.value.columns && c != key
    requires !ClaimedBefore(ms, key, j, c)
    ensures c in Merged(ms, key).columns
    ensures forall r :: r in Merged(ms, key).rows ==> CellFrom(r, ms[j].1.value, key, c)
  {
    ClaimFrames(ms, key);
    ClaimJoinable(ms, key);
    MergedColumnHas(ms, key, j, c);
    var fs, src := Claim(ms, key).frames, Contributors(ms, key);
    assert j in src;
    var k :| 0 <= k < |src| && src[k] == j;
    assert c in fs[k].columns;
    FoldCells(fs, key);
    forall r | r in Merged(ms, key).rows ensures CellFrom(r, ms[j].1.value, key, c) {
      ProjectCellFrom(ms[j].1.value, fs[k].columns, key, c, r);
    }
  }

  /**
   * `merge_measure_types`: the claiming loop over the measure types in
   * order, then the fold of outer joins of the kept frames.
   */
  method MergeMeasureTypes(ms: seq<(string, Option<Frame>)>, key: string) returns (merged: Frame)
    ensures merged == Merged(ms, key)
  {
    if |ms| == 0 {
      return EmptyFrame;
    }
    var frames: seq<Frame> := [];
    var seen: set<string> := {key};
    for i := 0 to |ms|
      invariant Claims(frames, seen) == Claim(ms[..i], key)
    {
      TakeTake(ms, i);
      var df := ms[i].1;
      if df.None? || Empty(df.value) {
        continue;
      }
      var newCols := NewColumns(df.value.columns, seen, key);
      if newCols == [] || key !in newCols {
        continue;
      }
      frames := frames + [Project(df.value, newCols)];
      seen := seen + set c | c in newCols;
    }
    TakeAll(ms);
    if frames == [] {
      return EmptyFrame;
    }
    merged := FoldJoin(frames, key);
  }
}

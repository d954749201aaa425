/**
 * What every sweep fetcher of the pipeline shares (pipeline/fetch_lineups.py,
 * pipeline/fetch_supplementary.py): a fixed list of parameter points, one
 * retry call per point made with the default settings, failures isolated at
 * the point, accepted tables tagged with the point's axis values and
 * collected in sweep order, and at the end the non-empty collected tables
 * concatenated, or `None` when there are none.
 */
module Sweep {
  import opened Frames
  import Config
  import opened Retry

  /** One parameter point: its request and the `(column, value)` tags its tables receive. */
  datatype Point = Point(req: Request, tags: seq<(string, Cell)>)

  /** The calls of a run of consecutive retry calls: each call's outcome, the counter after the last, and the waits. */
  datatype Session = Session(outcomes: seq<Outcome>, end: nat, waits: seq<nat>)

  /**
   * The retry calls for `reqs`, one after the other, with the default
   * settings, the first starting when the counter reads `start`.  Every
   * request is attempted at least once and at most `API_RETRIES` times.
   */
  function RunCalls(world: World, start: nat, reqs: seq<Request>): (s: Session)
    ensures |s.outcomes| == |reqs| && start <= s.end
    decreases |reqs|
  {
    if reqs == [] then Session([], start, [])
    else
      var p := RunCalls(world, start, reqs[..|reqs| - 1]);
      var r := Retry.Retry(world, p.end, reqs[|reqs| - 1], Config.ApiRetries, Config.ApiBaseDelay);
      Session(p.outcomes + [r.outcome], p.end + r.attempts, p.waits + r.waits)
  }

  /** Every request is attempted at least once and at most `API_RETRIES` times. */
  lemma {:induction false} RunCallsBounds(world: World, start: nat, reqs: seq<Request>)
    ensures start + |reqs| <= RunCalls(world, start, reqs).end <= start + Config.ApiRetries * |reqs|
    decreases |reqs|
  {
    if reqs != [] {
      var n := |reqs| - 1;
      RunCallsBounds(world, start, reqs[..n]);
      assert Config.ApiRetries * |reqs| == Config.ApiRetries * n + Config.ApiRetries;
    }
  }

  /** The calls for two runs of requests, one after the other, are the calls for the first run followed by those for the second. */
  lemma {:induction false} RunCallsAppend(world: World, start: nat, a: seq<Request>, b: seq<Request>)
    ensures var p := RunCalls(world, start, a);
            var q := RunCalls(world, p.end, b);
            RunCalls(world, start, a + b) == Session(p.outcomes + q.outcomes, q.end, p.waits + q.waits)
    decreases |b|
  {
    var p := RunCalls(world, start, a);
    if b == [] {
      assert a + b == a;
    } else {
      var n := |b| - 1;
      var b' := b[..n];
      var q' := RunCalls(world, p.end, b');
      assert RunCalls(world, start, a + b') == Session(p.outcomes + q'.outcomes, q'.end, p.waits + q'.waits) by {
        RunCallsAppend(world, start, a, b');
      }
      var c := Retry.Retry(world, q'.end, b[n], Config.ApiRetries, Config.ApiBaseDelay);
      assert RunCalls(world, start, a + b)
          == Session((p.outcomes + q'.outcomes) + [c.outcome], q'.end + c.attempts, (p.waits + q'.waits) + c.waits) by {
        DropLast(b);
        AppendAssoc(a, b', [b[n]]);
        RunCallsSnoc(world, start, a + b', b[n]);
      }
      assert RunCalls(world, p.end, b) == Session(q'.outcomes + [c.outcome], q'.end + c.attempts, q'.waits + c.waits) by {
        DropLast(b);
        RunCallsSnoc(world, p.end, b', b[n]);
      }
      AppendAssoc(p.outcomes, q'.outcomes, [c.outcome]);
      AppendAssoc(p.waits, q'.waits, c.waits);
    }
  }

  /** One more request adds its retry call, started where the previous calls left the counter. */
  lemma RunCallsSnoc(world: World, start: nat, reqs: seq<Request>, r: Request)
    ensures var p := RunCalls(world, start, reqs);
            var c := Retry.Retry(world, p.end, r, Config.ApiRetries, Config.ApiBaseDelay);
            RunCalls(world, start, reqs + [r]) == Session(p.outcomes + [c.outcome], p.end + c.attempts, p.waits + c.waits)
  {
    assert (reqs + [r])[..|reqs|] == reqs;
  }

  /** The calls for the first `m + 1` requests are those for the first `m`, then the retry call for request `m`. */
  lemma RunCallsStep(world: World, start: nat, reqs: seq<Request>, m: nat)
    requires m < |reqs|
    ensures var s := RunCalls(world, start, reqs[..m]);
            var c := Retry.Retry(world, s.end, reqs[m], Config.ApiRetries, Config.ApiBaseDelay);
            RunCalls(world, start, reqs[..m + 1]) == Session(s.outcomes + [c.outcome], s.end + c.attempts, s.waits + c.waits)
  {
    TakeNext(reqs, m);
    RunCallsSnoc(world, start, reqs[..m], reqs[m]);
  }

  /** The calls for a prefix of the requests are a prefix of the calls. */
  lemma {:induction false} RunCallsPrefix(world: World, start: nat, reqs: seq<Request>, k: nat)
    requires k <= |reqs|
    ensures RunCalls(world, start, reqs[..k]).outcomes == RunCalls(world, start, reqs).outcomes[..k]
    decreases |reqs|
  {
    if k < |reqs| {
      var init := reqs[..|reqs| - 1];
      assert init[..k] == reqs[..k];
      RunCallsPrefix(world, start, init, k);
    } else {
      assert reqs[..k] == reqs;
    }
  }

  /** The outcome of call `i` is the retry call for request `i`, started where call `i - 1` left the counter. */
  lemma RunCallsAt(world: World, start: nat, reqs: seq<Request>, i: nat)
    requires i < |reqs|
    ensures RunCalls(world, start, reqs).outcomes[i]
         == Retry.Retry(world, RunCalls(world, start, reqs[..i]).end, reqs[i], Config.ApiRetries, Config.ApiBaseDelay).outcome
  {
    var pre := reqs[..i + 1];
    RunCallsPrefix(world, start, reqs, i + 1);
    assert pre[..i] == reqs[..i] && pre[i] == reqs[i];
    RunCallsLast(world, start, pre);
  }

  /** The outcome of the last call is the retry call for the last request. */
  lemma RunCallsLast(world: World, start: nat, reqs: seq<Request>)
    requires reqs != []
    ensures var n := |reqs| - 1;
            RunCalls(world, start, reqs).outcomes[n]
              == Retry.Retry(world, RunCalls(world, start, reqs[..n]).end, reqs[n], Config.ApiRetries, Config.ApiBaseDelay).outcome
  {
  }

  /** The requests of the points, in order. */
  function Requests(pts: seq<Point>): (reqs: seq<Request>)
    ensures |reqs| == |pts| && forall i :: 0 <= i < |pts| ==> reqs[i] == pts[i].req
  {
    seq(|pts|, i requires 0 <= i < |pts| => pts[i].req)
  }

  /**
   * The common acceptance test of the single-table fetchers: the call
   * returned, its first table exists and is not empty; the table is then
   * tagged with the point's values.
   */
  function FirstTable(o: Outcome, p: Point): Option<Frame>
  {
    if o.Returned? && |o.tables| > 0 && !Empty(o.tables[0]) then Some(Tag(o.tables[0], p.tags)) else None
  }

  /** An accepted first table keeps its rows, is not empty, and carries every tag of its point. */
  lemma FirstTableAccepted(o: Outcome, p: Point)
    requires DistinctNames(p.tags)
    ensures FirstTable(o, p).Some? <==> o.Returned? && |o.tables| > 0 && !Empty(o.tables[0])
    ensures FirstTable(o, p).Some? ==>
              var f := FirstTable(o, p).value;
              !Empty(f) && Len(f) == Len(o.tables[0]) && Tagged(f, p.tags)
  {
    if FirstTable(o, p).Some? {
      TagSetsAll(o.tables[0], p.tags);
    }
  }

  /** What one point contributes: its accepted table, or nothing. */
  function Kept(acc: Option<Frame>): (fs: seq<Frame>)
    ensures acc.None? ==> fs == []
    ensures acc.Some? ==> fs == [acc.value]
  {
    match acc
    case Some(f) => [f]
    case None => []
  }

  /** The tables the accepted points contribute, in sweep order. */
  function Collect(outs: seq<Outcome>, pts: seq<Point>, accept: (Outcome, Point) -> Option<Frame>): seq<Frame>
    requires |outs| == |pts|
    decreases |pts|
  {
    if pts == [] then []
    else
      var n := |pts| - 1;
      Collect(outs[..n], pts[..n], accept) + Kept(accept(outs[n], pts[n]))
  }

  /** One more point adds its accepted table, if any, at the end. */
  lemma CollectSnoc(outs: seq<Outcome>, pts: seq<Point>, o: Outcome, p: Point, accept: (Outcome, Point) -> Option<Frame>)
    requires |outs| == |pts|
    ensures Collect(outs + [o], pts + [p], accept)
         == Collect(outs, pts, accept) + Kept(accept(o, p))
  {
    assert (outs + [o])[..|outs|] == outs && (pts + [p])[..|pts|] == pts;
  }

  /** Positions `src` (ascending) of the points that contribute; `fs[k]` comes from point `src[k]`. */
  ghost predicate CollectedFrom(fs: seq<Frame>, src: seq<nat>, outs: seq<Outcome>, pts: seq<Point>,
                                accept: (Outcome, Point) -> Option<Frame>)
    requires |outs| == |pts|
  {
    && |src| == |fs|
    && (forall k :: 0 <= k < |src| ==> src[k] < |pts| && accept(outs[src[k]], pts[src[k]]) == Some(fs[k]))
    && (forall a, b :: 0 <= a < b < |src| ==> src[a] < src[b])
    && (forall i :: 0 <= i < |pts| && accept(outs[i], pts[i]).Some? ==> i in src)
  }

  /**
   * Only accepted points contribute, each exactly once and in sweep order:
   * the collected tables are the accepted tables of the points, listed by
   * ascending point position, and no accepted point is missed.
   */
  lemma {:induction false} CollectSources(outs: seq<Outcome>, pts: seq<Point>, accept: (Outcome, Point) -> Option<Frame>)
    returns (src: seq<nat>)
    requires |outs| == |pts|
    ensures CollectedFrom(Collect(outs, pts, accept), src, outs, pts, accept)
    decreases |pts|
  {
    if pts == [] {
      src := [];
    } else {
      var n := |pts| - 1;
      var init := CollectSources(outs[..n], pts[..n], accept);
      DropLast(outs);
      DropLast(pts);
      CollectSnoc(outs[..n], pts[..n], outs[n], pts[n], accept);
      src := CollectedFromSnoc(Collect(outs[..n], pts[..n], accept), init, outs[..n], pts[..n], outs[n], pts[n], accept);
    }
  }

  /** The sources after one more point: its position joins them when it contributes. */
  lemma CollectedFromSnoc(fs: seq<Frame>, src: seq<nat>, outs: seq<Outcome>, pts: seq<Point>, o: Outcome, p: Point,
                          accept: (Outcome, Point) -> Option<Frame>)
    returns (src': seq<nat>)
    requires |outs| == |pts| && CollectedFrom(fs, src, outs, pts, accept)
    ensures CollectedFrom(fs + Kept(accept(o, p)), src', outs + [o], pts + [p], accept)
  {
    var n := |pts|;
    var outs', pts', fs' := outs + [o], pts + [p], fs + Kept(accept(o, p));
    src' := if accept(o, p).Some? then src + [n] else src;
    forall k | 0 <= k < |src'|
      ensures src'[k] < |pts'| && accept(outs'[src'[k]], pts'[src'[k]]) == Some(fs'[k])
    {
      if k < |src| {
        assert src'[k] == src[k] && fs'[k] == fs[k];
        assert outs'[src[k]] == outs[src[k]] && pts'[src[k]] == pts[src[k]];
      }
    }
    forall i | 0 <= i < |pts'| && accept(outs'[i], pts'[i]).Some? ensures i in src' {
      if i < n {
        assert outs'[i] == outs[i] && pts'[i] == pts[i];
        assert i in src;
      }
    }
  }

  /** Collecting accepted first tables keeps every tag of each table's point. */
  lemma CollectTagged(outs: seq<Outcome>, pts: seq<Point>, src: seq<nat>)
    requires |outs| == |pts| && forall i :: 0 <= i < |pts| ==> DistinctNames(pts[i].tags)
    requires CollectedFrom(Collect(outs, pts, FirstTable), src, outs, pts, FirstTable)
    ensures forall k :: 0 <= k < |src| ==>
              var f := Collect(outs, pts, FirstTable)[k];
              !Empty(f) && Tagged(f, pts[src[k]].tags)
  {
    forall k | 0 <= k < |src|
      ensures var f := Collect(outs, pts, FirstTable)[k]; !Empty(f) && Tagged(f, pts[src[k]].tags)
    {
      FirstTableAccepted(outs[src[k]], pts[src[k]]);
    }
  }

  /** `[f for f in frames if not f.empty]`. */
  function NonEmpty(fs: seq<Frame>): (kept: seq<Frame>)
    ensures forall f :: f in kept <==> f in fs && !Empty(f)
    ensures |kept| <= |fs|
    decreases |fs|
  {
    if fs == [] then []
    else (if Empty(fs[0]) then [] else [fs[0]]) + NonEmpty(fs[1..])
  }

  /** Dropping empty tables drops nothing when there are none. */
  lemma {:induction false} NonEmptyKeepsAll(fs: seq<Frame>)
    requires forall i :: 0 <= i < |fs| ==> !Empty(fs[i])
    ensures NonEmpty(fs) == fs
    decreases |fs|
  {
    if fs != [] {
      NonEmptyKeepsAll(fs[1..]);
      assert fs == [fs[0]] + fs[1..];
    }
  }

  /** The end of every single-table fetcher: drop empty tables, then `None` or their concatenation. */
  function Finish(fs: seq<Frame>): Option<Frame>
  {
    var kept := NonEmpty(fs);
    if kept == [] then None else Some(Concat(kept))
  }

  /**
   * A fetcher returns `None` exactly when every collected table is empty,
   * and otherwise a table whose row count is the sum of the row counts of
   * the non-empty collected tables.
   */
  lemma FinishSpec(fs: seq<Frame>)
    ensures Finish(fs).None? <==> forall i :: 0 <= i < |fs| ==> Empty(fs[i])
    ensures Finish(fs).Some? ==> Len(Finish(fs).value) == SumLen(NonEmpty(fs)) > 0
  {
    var kept := NonEmpty(fs);
    if kept != [] {
      ConcatLen(kept);
      SumLenZero(kept);
      assert !Empty(kept[0]) && kept[0] in kept;
    } else {
      forall i | 0 <= i < |fs| ensures Empty(fs[i]) {
        assert fs[i] in fs;
      }
    }
  }

  /**
   * A sweep ends with `None` exactly when no point contributed a table with
   * data: every point was rejected or its accepted table was empty.
   */
  lemma FinishCollected(outs: seq<Outcome>, pts: seq<Point>, accept: (Outcome, Point) -> Option<Frame>)
    requires |outs| == |pts|
    ensures Finish(Collect(outs, pts, accept)).None?
        <==> forall i :: 0 <= i < |pts| ==> accept(outs[i], pts[i]).None? || Empty(accept(outs[i], pts[i]).value)
  {
    var fs := Collect(outs, pts, accept);
    var src := CollectSources(outs, pts, accept);
    FinishSpec(fs);
    if Finish(fs).None? {
      forall i | 0 <= i < |pts| && accept(outs[i], pts[i]).Some? ensures Empty(accept(outs[i], pts[i]).value) {
        var k :| 0 <= k < |src| && src[k] == i;
      }
    } else {
      var k :| 0 <= k < |fs| && !Empty(fs[k]);
      var i := src[k];
      assert accept(outs[i], pts[i]).Some? && !Empty(accept(outs[i], pts[i]).value);
    }
  }

  /**
   * A single-table sweep ends with `None` exactly when no point was
   * accepted; otherwise with all accepted tables concatenated in sweep
   * order, as many rows as they hold together.
   */
  lemma FirstTablesResult(outs: seq<Outcome>, pts: seq<Point>)
    requires |outs| == |pts|
    ensures Finish(Collect(outs, pts, FirstTable)).None? <==> forall i :: 0 <= i < |pts| ==> FirstTable(outs[i], pts[i]).None?
    ensures Finish(Collect(outs, pts, FirstTable)).Some? ==>
              var fs := Collect(outs, pts, FirstTable);
              Finish(fs).value == Concat(fs) && Len(Finish(fs).value) == SumLen(fs)
  {
    var fs := Collect(outs, pts, FirstTable);
    FinishCollected(outs, pts, FirstTable);
    forall i | 0 <= i < |pts| ensures FirstTable(outs[i], pts[i]).Some? ==> !Empty(FirstTable(outs[i], pts[i]).value) {
      FirstTableNonEmpty(outs[i], pts[i]);
    }
    FirstTablesNonEmpty(outs, pts);
    NonEmptyKeepsAll(fs);
    ConcatLen(fs);
  }

  /** An accepted first table is not empty. */
  lemma FirstTableNonEmpty(o: Outcome, p: Point)
    ensures FirstTable(o, p).Some? ==> !Empty(FirstTable(o, p).value)
  {
  }

  /** The collected first tables are all non-empty. */
  lemma FirstTablesNonEmpty(outs: seq<Outcome>, pts: seq<Point>)
    requires |outs| == |pts|
    ensures forall k :: 0 <= k < |Collect(outs, pts, FirstTable)| ==> !Empty(Collect(outs, pts, FirstTable)[k])
  {
    var fs := Collect(outs, pts, FirstTable);
    var src := CollectSources(outs, pts, FirstTable);
    forall k | 0 <= k < |fs| ensures !Empty(fs[k]) {
      assert FirstTable(outs[src[k]], pts[src[k]]) == Some(fs[k]);
      FirstTableNonEmpty(outs[src[k]], pts[src[k]]);
    }
  }

  /** `for x in xs: for y in ys:` as one list: the pairs in nesting order. */
  function Pairs<A, B>(xs: seq<A>, ys: seq<B>): (ps: seq<(A, B)>)
    ensures |ps| == |xs| * |ys|
    decreases |xs|
  {
    if xs == [] then []
    else
      var rest := Pairs(xs[1..], ys);
      seq(|ys|, j requires 0 <= j < |ys| => (xs[0], ys[j])) + rest
  }

  /** Pair `(xs[i], ys[j])` sits at position `i * |ys| + j`. */
  lemma {:induction false} PairsAt<A, B>(xs: seq<A>, ys: seq<B>, i: nat, j: nat)
    requires i < |xs| && j < |ys|
    ensures i * |ys| + j < |Pairs(xs, ys)|
    ensures Pairs(xs, ys)[i * |ys| + j] == (xs[i], ys[j])
    decreases i
  {
    if i > 0 {
      PairsAt(xs[1..], ys, i - 1, j);
      assert i * |ys| + j == |ys| + ((i - 1) * |ys| + j);
    }
  }

  /** Every position holds some pair `(xs[i], ys[j])` with `i * |ys| + j` equal to the position. */
  lemma {:induction false} PairsCover<A, B>(xs: seq<A>, ys: seq<B>, k: nat) returns (i: nat, j: nat)
    requires k < |Pairs(xs, ys)|
    ensures i < |xs| && j < |ys| && k == i * |ys| + j
    ensures Pairs(xs, ys)[k] == (xs[i], ys[j])
    decreases |xs|
  {
    var rest := Pairs(xs[1..], ys);
    assert Pairs(xs, ys) == seq(|ys|, j requires 0 <= j < |ys| => (xs[0], ys[j])) + rest;
    if k < |ys| {
      i, j := 0, k;
    } else {
      assert k - |ys| < |rest|;
      var i', j' := PairsCover(xs[1..], ys, k - |ys|);
      i, j := i' + 1, j';
      assert (i' + 1) * |ys| == i' * |ys| + |ys|;
    }
  }

  /** One point further into a sweep: the calls and the collected tables each grow by that point's call. */
  lemma SweepStep(world: World, start: nat, pts: seq<Point>, accept: (Outcome, Point) -> Option<Frame>, i: nat)
    requires i < |pts|
    ensures var s := RunCalls(world, start, Requests(pts)[..i]);
            var c := Retry.Retry(world, s.end, pts[i].req, Config.ApiRetries, Config.ApiBaseDelay);
            var t := RunCalls(world, start, Requests(pts)[..i + 1]);
            && t == Session(s.outcomes + [c.outcome], s.end + c.attempts, s.waits + c.waits)
            && Collect(t.outcomes, pts[..i + 1], accept)
               == Collect(s.outcomes, pts[..i], accept) + Kept(accept(c.outcome, pts[i]))
  {
    var reqs := Requests(pts);
    var s := RunCalls(world, start, reqs[..i]);
    var c := Retry.Retry(world, s.end, pts[i].req, Config.ApiRetries, Config.ApiBaseDelay);
    TakeNext(pts, i);
    RunCallsStep(world, start, reqs, i);
    CollectSnoc(s.outcomes, pts[..i], c.outcome, pts[i], accept);
  }

  /**
   * One point of a sweep: the retry call, its table kept when accepted (a
   * raised call keeps nothing), then one `pace()` whatever the outcome.
   */
  method SweepPoint(api: Api, p: Point, accept: (Outcome, Point) -> Option<Frame>) returns (kept: seq<Frame>)
    modifies api`calls, api`waits, api`paces
    ensures var c := Retry.Retry(api.world, old(api.calls), p.req, Config.ApiRetries, Config.ApiBaseDelay);
            && kept == Kept(accept(c.outcome, p))
            && api.calls == old(api.calls) + c.attempts && api.waits == old(api.waits) + c.waits
    ensures api.paces == old(api.paces) + 1
  {
    var o := api.CallWithRetry(p.req, Config.ApiRetries, Config.ApiBaseDelay);
    kept := Kept(accept(o, p));
    api.Pace();
  }

  /**
   * The loop shared by the supplementary sweeps: a retry call for each
   * point, its table kept when accepted, an exception caught and the sweep
   * moved on, and one `pace()` per point whatever the outcome.
   */
  method CollectTables(api: Api, pts: seq<Point>, accept: (Outcome, Point) -> Option<Frame>) returns (fs: seq<Frame>)
    modifies api
    ensures var s := RunCalls(api.world, old(api.calls), Requests(pts));
            fs == Collect(s.outcomes, pts, accept)
            && api.calls == s.end && api.waits == old(api.waits) + s.waits
    ensures api.paces == old(api.paces) + |pts| && api.pauses == old(api.pauses)
  {
    ghost var world, start, waits0 := api.world, api.calls, api.waits;
    ghost var reqs := Requests(pts);
    fs := [];
    for i := 0 to |pts|
      invariant api.calls == RunCalls(world, start, reqs[..i]).end
      invariant api.waits == waits0 + RunCalls(world, start, reqs[..i]).waits
      invariant fs == Collect(RunCalls(world, start, reqs[..i]).outcomes, pts[..i], accept)
      invariant api.paces == old(api.paces) + i && api.pauses == old(api.pauses)
    {
      ghost var s := RunCalls(world, start, reqs[..i]);
      SweepStep(world, start, pts, accept, i);
      AppendAssoc(waits0, s.waits, Retry.Retry(world, s.end, pts[i].req, Config.ApiRetries, Config.ApiBaseDelay).waits);
      var kept := SweepPoint(api, pts[i], accept);
      fs := fs + kept;
    }
    assert pts[..|pts|] == pts && reqs[..|pts|] == reqs;
  }
}

/**
 * The legacy lineup script (fetchlineups.py): a team-name dictionary, its
 * own retry loop that gives up with `None`, a Base/Advanced inner merge
 * per team and season type, the league table grown by concatenation, and
 * the final `players_list` column, sort and output file name.
 *
 * The script keeps no call counter.  The service it calls is the same kind
 * of oracle as the pipeline's, indexed here by the number of requests the
 * script has sent so far; its sleeps are recorded in tenths of a second.
 */
module Legacy {
  import opened Frames
  import opened Retry
  import Merge
  import Ordering
  import Text
  import Teams
  import Lineups
  import Config

  // ---------------------------------------------------------------------
  // The team dictionary
  // ---------------------------------------------------------------------

  /** A dict from team name to team id, as its items in insertion order. */
  type Dict = seq<(string, int)>

  /** No name is a key twice. */
  predicate DistinctKeys(d: Dict)
  {
    forall i, j :: 0 <= i < j < |d| ==> d[i].0 != d[j].0
  }

  /** `k` is a key of `d`. */
  predicate HasKey(d: Dict, k: string)
  {
    exists j :: 0 <= j < |d| && d[j].0 == k
  }

  /** The position of key `k` in `d`, or `|d|` when it is not a key. */
  function IndexOf(d: Dict, k: string): (i: nat)
    ensures i <= |d| && (i < |d| ==> d[i].0 == k)
    ensures forall j :: 0 <= j < i ==> d[j].0 != k
    decreases |d|
  {
    if d == [] then 0 else if d[0].0 == k then 0 else 1 + IndexOf(d[1..], k)
  }

  /**
   * `d[k] = v`: an existing key keeps its position and takes the new
   * value; a new key goes at the end.
   */
  function Put(d: Dict, k: string, v: int): (e: Dict)
    requires DistinctKeys(d)
    ensures DistinctKeys(e)
    ensures HasKey(d, k) ==> |e| == |d| && forall j :: 0 <= j < |d| ==> e[j] == (if d[j].0 == k then (k, v) else d[j])
    ensures !HasKey(d, k) ==> e == d + [(k, v)]
  {
    var i := IndexOf(d, k);
    if i < |d| then d[i := (k, v)] else d + [(k, v)]
  }

  /** A key stays a key, and the key written is one. */
  lemma PutKeys(d: Dict, k: string, v: int, x: string)
    requires DistinctKeys(d)
    ensures HasKey(Put(d, k, v), x) <==> HasKey(d, x) || x == k
  {
    var e := Put(d, k, v);
    if HasKey(d, k) {
      if HasKey(d, x) {
        var j :| 0 <= j < |d| && d[j].0 == x;
        assert e[j].0 == x;
      }
      if HasKey(e, x) {
        var j :| 0 <= j < |e| && e[j].0 == x;
        assert d[j].0 == x || x == k;
      }
      var j :| 0 <= j < |d| && d[j].0 == k;
      assert e[j].0 == k;
    } else {
      if HasKey(d, x) {
        var j :| 0 <= j < |d| && d[j].0 == x;
        assert e[j].0 == x;
      }
      if HasKey(e, x) {
        var j :| 0 <= j < |e| && e[j].0 == x;
        assert j < |d| ==> e[j] == d[j];
      }
      assert e[|d|].0 == k;
    }
  }

  /** `team_dict` after the teams `records`, one assignment per team in order. */
  function TeamDict(records: seq<Teams.TeamRecord>): (d: Dict)
    ensures DistinctKeys(d)
    decreases |records|
  {
    if records == [] then []
    else
      var n := |records| - 1;
      Put(TeamDict(records[..n]), records[n].fullName, records[n].id)
  }

  /** No later team in `records` has the name of team `i`. */
  predicate LastNamed(records: seq<Teams.TeamRecord>, i: nat)
    requires i < |records|
  {
    forall j :: i < j < |records| ==> records[j].fullName != records[i].fullName
  }

  /** Every team's name is a key of the dictionary, and nothing else is. */
  lemma {:induction false} TeamDictKeys(records: seq<Teams.TeamRecord>)
    ensures forall x :: HasKey(TeamDict(records), x) <==> exists i :: 0 <= i < |records| && records[i].fullName == x
    decreases |records|
  {
    if records != [] {
      var n := |records| - 1;
      var init := records[..n];
      TeamDictKeys(init);
      var p := TeamDict(init);
      assert TeamDict(records) == Put(p, records[n].fullName, records[n].id);
      forall x ensures HasKey(TeamDict(records), x) <==> exists i :: 0 <= i < |records| && records[i].fullName == x {
        PutKeys(p, records[n].fullName, records[n].id, x);
        if HasKey(p, x) {
          var i :| 0 <= i < n && init[i].fullName == x;
          assert records[i].fullName == x;
        }
        if x == records[n].fullName {
          assert records[n].fullName == x;
        }
        if exists i :: 0 <= i < |records| && records[i].fullName == x {
          var i :| 0 <= i < |records| && records[i].fullName == x;
          if i < n {
            assert init[i].fullName == x;
          }
        }
      }
    }
  }

  /** Entry `j` of `d` is the name and id of a team of `records` that no later team shares its name with. */
  predicate FromLastNamed(records: seq<Teams.TeamRecord>, d: Dict, j: nat)
    requires j < |d|
  {
    exists i :: 0 <= i < |records| && LastNamed(records, i) && d[j] == (records[i].fullName, records[i].id)
  }

  /** Each key holds the id of the last team of that name: a later team of the same name overwrites the earlier id. */
  lemma {:induction false} TeamDictLast(records: seq<Teams.TeamRecord>)
    ensures forall j :: 0 <= j < |TeamDict(records)| ==> FromLastNamed(records, TeamDict(records), j)
    decreases |records|
  {
    if records != [] {
      var n := |records| - 1;
      var init := records[..n];
      TeamDictLast(init);
      var p := TeamDict(init);
      var d := TeamDict(records);
      var r := records[n];
      forall j | 0 <= j < |d| ensures FromLastNamed(records, d, j) {
        if d[j] == (r.fullName, r.id) {
          assert LastNamed(records, n);
        } else {
          assert j < |p| && d[j] == p[j] && p[j].0 != r.fullName;
          assert FromLastNamed(init, p, j);
          var i :| 0 <= i < |init| && LastNamed(init, i) && p[j] == (init[i].fullName, init[i].id);
          assert init[i] == records[i];
          assert LastNamed(records, i);
        }
      }
    }
  }

  /** The loop that builds `team_dict` from the static team list. */
  method BuildTeamDict(records: seq<Teams.TeamRecord>) returns (d: Dict)
    ensures d == TeamDict(records)
  {
    d := [];
    for i := 0 to |records|
      invariant d == TeamDict(records[..i])
    {
      TakeTake(records, i);
      d := Put(d, records[i].fullName, records[i].id);
    }
    TakeAll(records);
  }

  // ---------------------------------------------------------------------
  // get_lineups
  // ---------------------------------------------------------------------

  /** The `TeamDashLineups` parameters that do not depend on the team, measure type, season type or season. */
  const LineupFixedParams: map<string, Cell> :=
    map["date_from_nullable" := Str(""), "date_to_nullable" := Str(""), "game_id_nullable" := Str(""),
        "game_segment_nullable" := Str(""), "group_quantity" := Num(5), "last_n_games" := Num(0),
        "league_id_nullable" := Str("00"), "location_nullable" := Str(""), "month" := Num(0),
        "opponent_team_id" := Num(0), "outcome_nullable" := Str(""), "pace_adjust" := Str("N"),
        "plus_minus" := Str("N"), "po_round_nullable" := Str(""), "per_mode_detailed" := Str("Totals"),
        "period" := Num(0), "rank" := Str("N"), "season_segment_nullable" := Str(""),
        "shot_clock_range_nullable" := Str(""), "vs_conference_nullable" := Str(""), "vs_division_nullable" := Str("")]

  /** The `TeamDashLineups` request for one team, measure type, season type and season. */
  function LineupRequest(teamId: int, measureType: string, seasonType: string, season: string): Request
  {
    Request("TeamDashLineups",
            LineupFixedParams["measure_type_detailed_defense" := Str(measureType)]["season" := Str(season)]
                             ["season_type_all_star" := Str(seasonType)]["team_id" := Num(teamId)])
  }

  /** What one `get_lineups` call returns, the requests it sends and the sleeps it takes. */
  datatype LineupsRun = LineupsRun(result: Option<Frame>, attempts: nat, sleeps: seq<nat>)

  /** The lineup table of a reply: the second table, with the season type written into every row. */
  function SecondTable(tables: seq<Frame>, seasonType: string): Option<Frame>
  {
    if |tables| > 1 then Some(SetColumn(tables[1], "SEASON_TYPE", Str(seasonType))) else None
  }

  /**
   * `get_lineups(...)` started when `start` requests have been sent: the
   * first reply that does not fail ends the call, with its second table
   * when it has one and with `None` when it does not; a failure sleeps
   * `delay` seconds unless it was the last attempt, after which the call
   * gives up with `None`.
   */
  function GetLineupsRun(world: World, start: nat, req: Request, seasonType: string, retries: int, delay: nat): LineupsRun
  {
    if retries <= 0 then LineupsRun(None, 0, [])
    else
      var k := FirstOk(world, start, req, retries);
      if k < retries then LineupsRun(SecondTable(world(start + k, req).tables, seasonType), k + 1, Repeat(10 * delay, k))
      else LineupsRun(None, retries, Repeat(10 * delay, retries - 1))
  }

  /**
   * What one `get_lineups` call does: at most `retries` requests, all but
   * the last failing; a `delay`-second sleep between consecutive requests
   * and none after the last; a result only from a reply with at least two
   * tables; and `None`, never an exception, once every attempt has failed.
   */
  lemma GetLineupsSpec(world: World, start: nat, req: Request, seasonType: string, retries: int, delay: nat)
    ensures var run := GetLineupsRun(world, start, req, seasonType, retries, delay);
            && (retries <= 0 ==> run == LineupsRun(None, 0, []))
            && (retries > 0 ==> 1 <= run.attempts <= retries)
            && (run.attempts > 0 ==> AllFail(world, start, start + run.attempts - 1, req))
            && (run.attempts > 0 ==> run.sleeps == Repeat(10 * delay, run.attempts - 1))
            && (run.result.Some? ==>
                  var reply := world(start + run.attempts - 1, req);
                  reply.Ok? && |reply.tables| > 1 && run.result == SecondTable(reply.tables, seasonType))
            && (retries > 0 && AllFail(world, start, start + retries, req) ==> run.result.None?)
  {
    if retries > 0 && AllFail(world, start, start + retries, req) {
      var k := FirstOk(world, start, req, retries);
      if k < retries {
        FailsWithin(world, start, start + retries, req, start + k);
      }
    }
  }

  /**
   * A reply with fewer than two tables after `k` failures ends the call at
   * once with `None`: the remaining attempts are not made.
   */
  lemma ShortReplyStops(world: World, start: nat, req: Request, seasonType: string, retries: int, delay: nat, k: nat)
    requires k < retries && AllFail(world, start, start + k, req)
    requires world(start + k, req).Ok? && |world(start + k, req).tables| < 2
    ensures GetLineupsRun(world, start, req, seasonType, retries, delay) == LineupsRun(None, k + 1, Repeat(10 * delay, k))
  {
    FirstOkUnique(world, start, req, retries, k);
  }

  /** A reply that does not fail after `k` failures ends the call with its second table, if any. */
  lemma FirstReplyEnds(world: World, start: nat, req: Request, seasonType: string, retries: int, delay: nat, k: nat)
    requires k < retries && AllFail(world, start, start + k, req) && world(start + k, req).Ok?
    ensures GetLineupsRun(world, start, req, seasonType, retries, delay)
         == LineupsRun(SecondTable(world(start + k, req).tables, seasonType), k + 1, Repeat(10 * delay, k))
  {
    FirstOkUnique(world, start, req, retries, k);
  }

  /** When every one of the `retries` attempts fails, the call gives up with `None`. */
  lemma AllFailGivesUp(world: World, start: nat, req: Request, seasonType: string, retries: int, delay: nat)
    requires retries > 0 && AllFail(world, start, start + retries, req)
    ensures GetLineupsRun(world, start, req, seasonType, retries, delay) == LineupsRun(None, retries, Repeat(10 * delay, retries - 1))
  {
    FirstOkUnique(world, start, req, retries, retries);
  }

  // ---------------------------------------------------------------------
  // The Base/Advanced merge
  // ---------------------------------------------------------------------

  /** A frame that is there and not empty. */
  predicate Usable(df: Option<Frame>)
  {
    df.Some? && !Empty(df.value)
  }

  /** The columns of `cols` that `base` lacks, other than `SEASON_TYPE`, in order. */
  function Unclaimed(cols: seq<string>, base: seq<string>): (u: seq<string>)
    ensures forall c :: c in u <==> c in cols && c !in base && c != "SEASON_TYPE"
    decreases |cols|
  {
    if cols == [] then []
    else (if cols[0] !in base && cols[0] != "SEASON_TYPE" then [cols[0]] else []) + Unclaimed(cols[1..], base)
  }

  /** The names of `cols` that are columns of `f`, in order. */
  function PresentIn(cols: seq<string>, f: Frame): (p: seq<string>)
    ensures forall c :: c in p <==> c in cols && c in f.columns
    decreases |cols|
  {
    if cols == [] then []
    else (if cols[0] in f.columns then [cols[0]] else []) + PresentIn(cols[1..], f)
  }

  /**
   * `cols_to_keep`: `GROUP_ID` and the Advanced columns Base does not
   * have, `SEASON_TYPE` aside, that Advanced really has.
   */
  function AdvancedColumns(base: Frame, adv: Frame): (keep: seq<string>)
    ensures forall c :: c in keep <==> c in adv.columns && (c == "GROUP_ID" || (c !in base.columns && c != "SEASON_TYPE"))
  {
    PresentIn(["GROUP_ID"] + Unclaimed(adv.columns, base.columns), adv)
  }

  /** How often `c` occurs among the names left after dropping Base's columns and `SEASON_TYPE`. */
  lemma {:induction false} UnclaimedCount(cols: seq<string>, base: seq<string>, c: string)
    ensures multiset(Unclaimed(cols, base))[c] == if c !in base && c != "SEASON_TYPE" then multiset(cols)[c] else 0
    decreases |cols|
  {
    if cols != [] {
      UnclaimedCount(cols[1..], base, c);
      assert cols == [cols[0]] + cols[1..];
    }
  }

  /** Keeping the names that are columns of `f` keeps every occurrence of a column and drops every other name. */
  lemma {:induction false} PresentInCount(cols: seq<string>, f: Frame, c: string)
    ensures multiset(PresentIn(cols, f))[c] == if c in f.columns then multiset(cols)[c] else 0
    decreases |cols|
  {
    if cols != [] {
      PresentInCount(cols[1..], f, c);
      assert cols == [cols[0]] + cols[1..];
    }
  }

  /**
   * `cols_to_keep` names `GROUP_ID` twice or more exactly when Advanced has
   * it and Base does not: it is then also one of the Advanced columns
   * Base lacks.
   */
  lemma AdvancedColumnsKeyTwice(base: Frame, adv: Frame)
    ensures multiset(AdvancedColumns(base, adv))["GROUP_ID"] >= 2 <==>
              "GROUP_ID" in adv.columns && "GROUP_ID" !in base.columns
  {
    var u := Unclaimed(adv.columns, base.columns);
    UnclaimedCount(adv.columns, base.columns, "GROUP_ID");
    PresentInCount(["GROUP_ID"] + u, adv, "GROUP_ID");
    assert multiset(["GROUP_ID"] + u)["GROUP_ID"] == 1 + multiset(u)["GROUP_ID"];
  }

  /** The rows `l + m` for every right row `m` in `ms`, in order. */
  function JoinPairs(l: Row, ms: seq<Row>): (xs: seq<Row>)
    ensures |xs| == |ms| && forall i :: 0 <= i < |ms| ==> xs[i] == l + ms[i]
  {
    seq(|ms|, i requires 0 <= i < |ms| => l + ms[i])
  }

  /** The inner-join rows of the left rows `ls`: each combined with every right row of its key, in order. */
  function InnerRows(ls: seq<Row>, right: Frame, key: string): seq<Row>
    decreases |ls|
  {
    if ls == [] then []
    else JoinPairs(ls[0], Merge.Matching(right.rows, key, Get(ls[0], key))) + InnerRows(ls[1..], right, key)
  }

  /** `pd.merge(left, right, on=key, how="inner")` when only the key is shared. */
  function InnerJoin(left: Frame, right: Frame, key: string): Frame
  {
    Frame(left.columns + Merge.Without(right.columns, key), InnerRows(left.rows, right, key))
  }

  /** Every inner-join row is a left row combined with a right row of the same key. */
  lemma {:induction false} InnerRowsFrom(ls: seq<Row>, right: Frame, key: string)
    ensures forall x :: x in InnerRows(ls, right, key) ==>
              exists l, m :: l in ls && m in right.rows && Get(m, key) == Get(l, key) && x == l + m
    decreases |ls|
  {
    if ls != [] {
      InnerRowsFrom(ls[1..], right, key);
      var ms := Merge.Matching(right.rows, key, Get(ls[0], key));
      forall x | x in InnerRows(ls, right, key)
        ensures exists l, m :: l in ls && m in right.rows && Get(m, key) == Get(l, key) && x == l + m
      {
        if x in JoinPairs(ls[0], ms) {
          var i :| 0 <= i < |ms| && JoinPairs(ls[0], ms)[i] == x;
          assert ms[i] in ms;
        } else {
          assert x in InnerRows(ls[1..], right, key);
          var l, m :| l in ls[1..] && m in right.rows && Get(m, key) == Get(l, key) && x == l + m;
          assert l in ls;
        }
      }
    }
  }

  /** The key values of the rows `rs`. */
  function RowKeys(rs: seq<Row>, key: string): set<Cell>
  {
    set r | r in rs :: Get(r, key)
  }

  /** The inner join's key values are those the left rows and the right frame have in common. */
  lemma {:induction false} InnerRowsKeys(ls: seq<Row>, right: Frame, key: string)
    ensures RowKeys(InnerRows(ls, right, key), key) == RowKeys(ls, key) * Merge.Keys(right, key)
    decreases |ls|
  {
    if ls != [] {
      InnerRowsKeys(ls[1..], right, key);
      var l := ls[0];
      var ms := Merge.Matching(right.rows, key, Get(l, key));
      var ps := JoinPairs(l, ms);
      var rest := InnerRows(ls[1..], right, key);
      assert RowKeys(ps + rest, key) == RowKeys(ps, key) + RowKeys(rest, key);
      assert RowKeys(ls, key) == {Get(l, key)} + RowKeys(ls[1..], key) by {
        assert ls == [l] + ls[1..];
      }
      if ms == [] {
        assert RowKeys(ps, key) == {};
        assert Get(l, key) !in Merge.Keys(right, key);
      } else {
        assert ms[0] in ms;
        forall x | x in ps ensures Get(x, key) == Get(l, key) {
          var i :| 0 <= i < |ms| && ps[i] == x;
          assert ms[i] in ms;
          Merge.GetUnion(l, ms[i], key);
        }
        Merge.GetUnion(l, ms[0], key);
        assert ps[0] in ps;
        assert RowKeys(ps, key) == {Get(l, key)};
      }
    }
  }

  /** The `team` and `team_id` tags. */
  function TeamTags(name: string, id: int): seq<(string, Cell)>
  {
    [("team", Str(name)), ("team_id", Num(id))]
  }

  /** Base inner-merged on `GROUP_ID` with the Advanced columns it keeps. */
  function InnerMerge(base: Frame, adv: Frame): Frame
  {
    InnerJoin(base, Merge.Project(adv, AdvancedColumns(base, adv)), "GROUP_ID")
  }

  /**
   * The merge raises an error that nothing catches: with usable Base and
   * Advanced frames, when `cols_to_keep` names `GROUP_ID` more than once,
   * the Advanced subset has a merge key that is not unique, and `pd.merge`
   * raises `ValueError`, which the `except KeyError` lets through.
   */
  predicate MergeAborts(base: Option<Frame>, adv: Option<Frame>)
  {
    Usable(base) && Usable(adv) && multiset(AdvancedColumns(base.value, adv.value))["GROUP_ID"] >= 2
  }

  /**
   * The merge case analysis for one team and season type: with usable Base
   * and Advanced frames, their inner merge (nothing when the merge raises
   * `KeyError` for want of its key, or when no lineup is common); with
   * usable Base only, Base itself; otherwise nothing.  A contribution is
   * tagged with the team's name and id.  When the merge aborts
   * (`MergeAborts`) there is nothing either: the script stops there.
   */
  function MergeCase(base: Option<Frame>, adv: Option<Frame>, name: string, id: int): Option<Frame>
  {
    if Usable(base) && Usable(adv) then
      if "GROUP_ID" !in base.value.columns || "GROUP_ID" !in AdvancedColumns(base.value, adv.value) then None
      else
        var merged := InnerMerge(base.value, adv.value);
        if Empty(merged) then None else Some(Tag(merged, TeamTags(name, id)))
    else if Usable(base) then Some(Tag(base.value, TeamTags(name, id)))
    else None
  }

  /** The inner merge has exactly the lineups Base and Advanced have in common. */
  lemma InnerMergeKeys(base: Frame, adv: Frame)
    requires "GROUP_ID" in adv.columns
    ensures Merge.Keys(InnerMerge(base, adv), "GROUP_ID") == Merge.Keys(base, "GROUP_ID") * Merge.Keys(adv, "GROUP_ID")
  {
    var right := Merge.Project(adv, AdvancedColumns(base, adv));
    Merge.ProjectKeys(adv, AdvancedColumns(base, adv), "GROUP_ID");
    InnerRowsKeys(base.rows, right, "GROUP_ID");
    assert Merge.Keys(InnerMerge(base, adv), "GROUP_ID") == RowKeys(InnerRows(base.rows, right, "GROUP_ID"), "GROUP_ID");
    assert Merge.Keys(base, "GROUP_ID") == RowKeys(base.rows, "GROUP_ID");
  }

  /** The inner merge's columns: Base's and Advanced's, its `SEASON_TYPE` aside. */
  lemma InnerMergeColumns(base: Frame, adv: Frame)
    requires "GROUP_ID" in base.columns
    ensures forall c :: c in InnerMerge(base, adv).columns <==>
              c in base.columns || (c in adv.columns && c != "SEASON_TYPE")
  {
  }

  /** Every row of the inner merge takes its `SEASON_TYPE` from its Base row. */
  lemma InnerMergeSeasonType(base: Frame, adv: Frame, st: string)
    requires Constant(base, "SEASON_TYPE", Str(st))
    ensures forall i :: 0 <= i < |InnerMerge(base, adv).rows| ==> Get(InnerMerge(base, adv).rows[i], "SEASON_TYPE") == Str(st)
  {
    var right := Merge.Project(adv, AdvancedColumns(base, adv));
    var f := InnerMerge(base, adv);
    InnerRowsFrom(base.rows, right, "GROUP_ID");
    forall i | 0 <= i < |f.rows| ensures Get(f.rows[i], "SEASON_TYPE") == Str(st) {
      assert f.rows[i] in InnerRows(base.rows, right, "GROUP_ID");
      var l, m :| l in base.rows && m in right.rows && Get(m, "GROUP_ID") == Get(l, "GROUP_ID") && f.rows[i] == l + m;
      var k :| 0 <= k < |base.rows| && base.rows[k] == l;
      var q :| 0 <= q < |right.rows| && right.rows[q] == m;
      assert m == Restrict(adv.rows[q], AdvancedColumns(base, adv));
      Merge.GetUnion(l, m, "SEASON_TYPE");
    }
  }

  /** Tagging with names other than the key keeps every key value. */
  lemma TagKeys(f: Frame, tags: seq<(string, Cell)>, key: string)
    requires forall j :: 0 <= j < |tags| ==> tags[j].0 != key
    ensures Merge.Keys(Tag(f, tags), key) == Merge.Keys(f, key)
  {
    var g := Tag(f, tags);
    forall k | k in Merge.Keys(g, key) ensures k in Merge.Keys(f, key) {
      var r :| r in g.rows && Get(r, key) == k;
      var i :| 0 <= i < |g.rows| && g.rows[i] == r;
      TagKeeps(f, tags, i, key);
      assert f.rows[i] in f.rows;
    }
    forall k | k in Merge.Keys(f, key) ensures k in Merge.Keys(g, key) {
      var r :| r in f.rows && Get(r, key) == k;
      var i :| 0 <= i < |f.rows| && f.rows[i] == r;
      TagKeeps(f, tags, i, key);
      assert g.rows[i] in g.rows;
    }
  }

  /** A frame with a column is empty exactly when it has no key values. */
  lemma EmptyKeys(f: Frame, key: string)
    requires key in f.columns
    ensures Empty(f) <==> Merge.Keys(f, key) == {}
  {
    if |f.rows| > 0 {
      assert Get(f.rows[0], key) in Merge.Keys(f, key);
    }
  }

  /**
   * The fallbacks: without usable Base nothing is contributed, even when
   * Advanced has data; with usable Base and no usable Advanced, Base itself
   * is, tagged with the team's name and id.
   */
  lemma MergeCaseFallbacks(base: Option<Frame>, adv: Option<Frame>, name: string, id: int)
    ensures !Usable(base) ==> MergeCase(base, adv, name, id) == None
    ensures Usable(base) && !Usable(adv) ==>
              var r := MergeCase(base, adv, name, id);
              && r == Some(Tag(base.value, TeamTags(name, id)))
              && Len(r.value) == Len(base.value)
              && Tagged(r.value, TeamTags(name, id))
  {
    TagSetsAll(if base.Some? then base.value else EmptyFrame, TeamTags(name, id));
  }

  /**
   * When Advanced lacks `GROUP_ID`, the merge raises `KeyError`, which is
   * caught: the script goes on, and nothing is contributed.
   */
  lemma MergeCaseKeyMissing(base: Option<Frame>, adv: Option<Frame>, name: string, id: int)
    requires Usable(base) && Usable(adv)
    requires "GROUP_ID" !in adv.value.columns
    ensures !MergeAborts(base, adv) && MergeCase(base, adv, name, id) == None
  {
    AdvancedColumnsKeyTwice(base.value, adv.value);
  }

  /**
   * With usable Base and Advanced frames, the merge aborts the script
   * exactly when Advanced has `GROUP_ID` and Base does not; nothing is
   * contributed then.
   */
  lemma MergeAbortsWhen(base: Option<Frame>, adv: Option<Frame>, name: string, id: int)
    requires Usable(base) && Usable(adv)
    ensures MergeAborts(base, adv) <==> "GROUP_ID" in adv.value.columns && "GROUP_ID" !in base.value.columns
    ensures MergeAborts(base, adv) ==> MergeCase(base, adv, name, id) == None
  {
    AdvancedColumnsKeyTwice(base.value, adv.value);
  }

  /**
   * With usable Base and Advanced that both have `GROUP_ID`, the result is
   * the inner merge: it has exactly the lineups the two have in common, and
   * nothing is contributed when they have none; its columns are Base's,
   * the Advanced columns other than `SEASON_TYPE`, and the team tags, which
   * every row carries.
   */
  lemma MergeCaseInner(base: Option<Frame>, adv: Option<Frame>, name: string, id: int)
    requires Usable(base) && Usable(adv)
    requires "GROUP_ID" in base.value.columns && "GROUP_ID" in adv.value.columns
    ensures var common := Merge.Keys(base.value, "GROUP_ID") * Merge.Keys(adv.value, "GROUP_ID");
            var r := MergeCase(base, adv, name, id);
            && (r.Some? <==> common != {})
            && (r.Some? ==> Merge.Keys(r.value, "GROUP_ID") == common)
            && (r.Some? ==> Tagged(r.value, TeamTags(name, id)))
            && (r.Some? ==> forall c :: c in r.value.columns <==>
                  c in base.value.columns || (c in adv.value.columns && c != "SEASON_TYPE") || c == "team" || c == "team_id")
  {
    var merged := InnerMerge(base.value, adv.value);
    var tags := TeamTags(name, id);
    MergeCaseIsInner(base, adv, name, id);
    if !Empty(merged) {
      InnerMergeColumns(base.value, adv.value);
      TagKeys(merged, tags, "GROUP_ID");
      TagSetsAll(merged, tags);
      TeamTagColumns(merged, name, id);
    }
  }

  /** Tagging with the team adds the columns `team` and `team_id` and no others. */
  lemma TeamTagColumns(f: Frame, name: string, id: int)
    ensures forall c :: c in Tag(f, TeamTags(name, id)).columns <==> c in f.columns || c == "team" || c == "team_id"
  {
    var tags := TeamTags(name, id);
    TagColumns(f, tags);
    assert tags[0].0 == "team" && tags[1].0 == "team_id";
  }

  /** With both frames usable and keyed, the case is the tagged inner merge, absent when the two share no lineup. */
  lemma MergeCaseIsInner(base: Option<Frame>, adv: Option<Frame>, name: string, id: int)
    requires Usable(base) && Usable(adv)
    requires "GROUP_ID" in base.value.columns && "GROUP_ID" in adv.value.columns
    ensures var merged := InnerMerge(base.value, adv.value);
            && MergeCase(base, adv, name, id) == (if Empty(merged) then None else Some(Tag(merged, TeamTags(name, id))))
            && (Empty(merged) <==> Merge.Keys(base.value, "GROUP_ID") * Merge.Keys(adv.value, "GROUP_ID") == {})
            && Merge.Keys(merged, "GROUP_ID") == Merge.Keys(base.value, "GROUP_ID") * Merge.Keys(adv.value, "GROUP_ID")
  {
    var merged := InnerMerge(base.value, adv.value);
    InnerMergeKeys(base.value, adv.value);
    InnerMergeColumns(base.value, adv.value);
    EmptyKeys(merged, "GROUP_ID");
  }

  /** A contribution keeps Base's `SEASON_TYPE` in every row. */
  lemma MergeCaseSeasonType(base: Option<Frame>, adv: Option<Frame>, name: string, id: int, st: string)
    requires Usable(base) && Constant(base.value, "SEASON_TYPE", Str(st))
    ensures var r := MergeCase(base, adv, name, id);
            r.Some? ==> Constant(r.value, "SEASON_TYPE", Str(st))
  {
    var r := MergeCase(base, adv, name, id);
    if r.Some? {
      var tags := TeamTags(name, id);
      assert forall j :: 0 <= j < |tags| ==> tags[j].0 != "SEASON_TYPE";
      if Usable(adv) {
        var merged := InnerMerge(base.value, adv.value);
        MergeCaseIsInner(base, adv, name, id);
        InnerMergeSeasonType(base.value, adv.value, st);
        InnerMergeColumns(base.value, adv.value);
        TagKeepsConstant(merged, tags, "SEASON_TYPE", Str(st));
      } else {
        TagKeepsConstant(base.value, tags, "SEASON_TYPE", Str(st));
      }
    }
  }

  // ---------------------------------------------------------------------
  // The league table, grown by concatenation
  // ---------------------------------------------------------------------

  /** Adding columns that are new and distinct to distinct columns appends them. */
  lemma {:induction false} UnionColumnsFresh(a: seq<string>, b: seq<string>)
    requires Config.Distinct(a + b)
    ensures UnionColumns(a, b) == a + b
    decreases |b|
  {
    if b != [] {
      assert b[0] == (a + b)[|a|];
      forall i | 0 <= i < |a| ensures a[i] != b[0] {
        assert a[i] == (a + b)[i];
      }
      assert (a + [b[0]]) + b[1..] == a + b;
      UnionColumnsFresh(a + [b[0]], b[1..]);
    }
  }

  /** The union of columns stays free of repeats. */
  lemma {:induction false} UnionColumnsDistinct(a: seq<string>, b: seq<string>)
    requires Config.Distinct(a)
    ensures Config.Distinct(UnionColumns(a, b))
    decreases |b|
  {
    if b != [] {
      if b[0] !in a {
        assert Config.Distinct(a + [b[0]]);
      }
      UnionColumnsDistinct(if b[0] in a then a else a + [b[0]], b[1..]);
    }
  }

  /** A row whose cells all lie within `cols` is its own restriction. */
  lemma RestrictWithin(r: Row, cols: seq<string>)
    requires forall c :: c in r ==> c in cols
    ensures Restrict(r, cols) == r
  {
  }

  /** A concatenation has columns without repeats and rows within them. */
  lemma {:induction false} ConcatWellFormed(fs: seq<Frame>)
    ensures Config.Distinct(Concat(fs).columns) && Merge.RowsWithin(Concat(fs))
    decreases |fs|
  {
    if fs != [] {
      var init := Concat(fs[..|fs| - 1]);
      var last := fs[|fs| - 1];
      ConcatWellFormed(fs[..|fs| - 1]);
      UnionColumnsDistinct(init.columns, last.columns);
      var g := Concat(fs);
      forall r, c | r in g.rows && c in r ensures c in g.columns {
        if r in init.rows {
          assert c in init.columns;
        } else {
          var i :| 0 <= i < |last.rows| && FrameRows(last)[i] == r;
        }
      }
    }
  }

  /**
   * `league_lineup = pd.concat([league_lineup, part], ignore_index=True)`
   * repeated from an empty frame is one concatenation of all the parts: the
   * rows of each part, in order, under the columns of all of them.
   */
  lemma ConcatGrow(fs: seq<Frame>, x: Frame)
    ensures Concat([Concat(fs), x]) == Concat(fs + [x])
  {
    var a := Concat(fs);
    ConcatWellFormed(fs);
    UnionColumnsFresh([], a.columns);
    forall i | 0 <= i < |a.rows| ensures FrameRows(a)[i] == a.rows[i] {
      assert a.rows[i] in a.rows;
      RestrictWithin(a.rows[i], a.columns);
    }
    assert FrameRows(a) == a.rows;
    ConcatOne(a);
    assert Concat([a]) == a;
    ConcatSnoc([a], x);
    assert [a] + [x] == [a, x];
    ConcatSnoc(fs, x);
  }

  // ---------------------------------------------------------------------
  // The sweep over teams and season types
  // ---------------------------------------------------------------------

  /** `season_types_to_fetch`. */
  const LegacySeasonTypes: seq<string> := ["Regular Season", "Playoffs"]

  /** What one season type of one team fetched: its Base and its Advanced frame. */
  datatype Fetch = Fetch(base: Option<Frame>, adv: Option<Frame>)

  /**
   * The requests sent, the sleeps taken and the fetches made so far, in
   * order, and whether a merge has aborted the script.
   */
  datatype Progress = Progress(sent: nat, sleeps: seq<nat>, fetches: seq<Fetch>, halted: bool)

  /**
   * What `get_lineups` does for one team id, measure type and season type,
   * started when a given number of requests have been sent.
   */
  type Runner = (nat, int, string, string) -> LineupsRun

  /** `get_lineups` against the service for `season`, with the default three attempts and two-second delay. */
  function Served(world: World, sent: nat, id: int, measureType: string, st: string, season: string): LineupsRun
  {
    GetLineupsRun(world, sent, LineupRequest(id, measureType, st, season), st, 3, 2)
  }

  /** The script's `get_lineups` calls for `season`. */
  function Runs(world: World, season: string): Runner
  {
    (sent: nat, id: int, measureType: string, st: string) => Served(world, sent, id, measureType, st, season)
  }

  /** `run` does what the script's `get_lineups` calls for `season` do. */
  ghost predicate Serves(run: Runner, world: World, season: string)
  {
    forall sent: nat, id: int, measureType: string, st: string {:trigger Served(world, sent, id, measureType, st, season)} ::
      run(sent, id, measureType, st) == Served(world, sent, id, measureType, st, season)
  }

  /** `Runs` serves. */
  lemma RunsServe(world: World, season: string)
    ensures Serves(Runs(world, season), world, season)
  {
  }

  /** Every call makes one to three requests and returns, if anything, a frame of its season type. */
  ghost predicate LikeGetLineups(run: Runner)
  {
    forall sent: nat, id: int, measureType: string, st: string ::
      && 1 <= run(sent, id, measureType, st).attempts <= 3
      && (run(sent, id, measureType, st).result.Some? ==>
            Constant(run(sent, id, measureType, st).result.value, "SEASON_TYPE", Str(st)))
  }

  /** The script's `get_lineups` calls are of that kind. */
  lemma ServesLikeGetLineups(run: Runner, world: World, season: string)
    requires Serves(run, world, season)
    ensures LikeGetLineups(run)
  {
    forall sent: nat, id: int, measureType: string, st: string
      ensures var r := run(sent, id, measureType, st);
              1 <= r.attempts <= 3 && (r.result.Some? ==> Constant(r.result.value, "SEASON_TYPE", Str(st)))
    {
      assert run(sent, id, measureType, st) == Served(world, sent, id, measureType, st, season);
      GetLineupsSpec(world, sent, LineupRequest(id, measureType, st, season), st, 3, 2);
    }
  }

  /**
   * One season type of one team: Base, a 0.6-second sleep, Advanced, and,
   * once the two are merged, a 0.5-second sleep.  A merge that aborts
   * halts the script before that sleep, and a halted script does nothing
   * more.
   */
  function SeasonStep(run: Runner, p: Progress, id: int, st: string): Progress
  {
    if p.halted then p
    else
      var b := run(p.sent, id, "Base", st);
      var a := run(p.sent + b.attempts, id, "Advanced", st);
      var sent := p.sent + b.attempts + a.attempts;
      var sleeps := p.sleeps + b.sleeps + [6] + a.sleeps;
      if MergeAborts(b.result, a.result) then Progress(sent, sleeps, p.fetches + [Fetch(b.result, a.result)], true)
      else Progress(sent, sleeps + [5], p.fetches + [Fetch(b.result, a.result)], false)
  }

  /** A season step is the two fetches it makes, then, unless the merge aborts, the 0.5-second sleep. */
  lemma SeasonStepAfter(run: Runner, p: Progress, id: int, st: string, f: Fetch, sent: nat, sleeps: seq<nat>)
    requires !p.halted
    requires var b := run(p.sent, id, "Base", st);
             var a := run(p.sent + b.attempts, id, "Advanced", st);
             f == Fetch(b.result, a.result) && sent == p.sent + b.attempts + a.attempts
             && sleeps == p.sleeps + b.sleeps + [6] + a.sleeps
    ensures SeasonStep(run, p, id, st) ==
              if MergeAborts(f.base, f.adv) then Progress(sent, sleeps, p.fetches + [f], true)
              else Progress(sent, sleeps + [5], p.fetches + [f], false)
  {
  }

  /** The season types `sts` of one team, in order. */
  function SeasonSteps(run: Runner, p: Progress, id: int, sts: seq<string>): Progress
    decreases |sts|
  {
    if sts == [] then p
    else SeasonStep(run, SeasonSteps(run, p, id, sts[..|sts| - 1]), id, sts[|sts| - 1])
  }

  /** One team: both season types, then, unless the script has halted, a one-second sleep. */
  function TeamStep(run: Runner, p: Progress, id: int): Progress
  {
    var q := SeasonSteps(run, p, id, LegacySeasonTypes);
    if q.halted then q else q.(sleeps := q.sleeps + [10])
  }

  /** The teams of `d`, in the dictionary's order. */
  function LeagueSweep(run: Runner, p: Progress, d: Dict): Progress
    decreases |d|
  {
    if d == [] then p
    else TeamStep(run, LeagueSweep(run, p, d[..|d| - 1]), d[|d| - 1].1)
  }

  /** Both frames of a fetch, when there, have season type `st` in every row. */
  predicate SeasonTyped(f: Fetch, st: string)
  {
    && (f.base.Some? ==> Constant(f.base.value, "SEASON_TYPE", Str(st)))
    && (f.adv.Some? ==> Constant(f.adv.value, "SEASON_TYPE", Str(st)))
  }

  /** Fetch `k` of a sweep is for season type `k % 2`. */
  predicate SweepTyped(fetches: seq<Fetch>)
  {
    forall k :: 0 <= k < |fetches| ==> SeasonTyped(fetches[k], LegacySeasonTypes[k % 2])
  }

  /** Fetch `f` aborts the script. */
  predicate Aborts(f: Fetch)
  {
    MergeAborts(f.base, f.adv)
  }

  /**
   * One season type adds one fetch, of that season type, after two to six
   * requests, and halts the script exactly when that fetch's merge aborts.
   */
  lemma SeasonStepFetch(run: Runner, p: Progress, id: int, st: string)
    requires LikeGetLineups(run) && !p.halted
    ensures var q := SeasonStep(run, p, id, st);
            && q.fetches == p.fetches + [q.fetches[|p.fetches|]]
            && SeasonTyped(q.fetches[|p.fetches|], st)
            && (q.halted <==> Aborts(q.fetches[|p.fetches|]))
            && p.sent + 2 <= q.sent <= p.sent + 6
  {
    var b := run(p.sent, id, "Base", st);
    var a := run(p.sent + b.attempts, id, "Advanced", st);
  }

  /** A halted script's season steps do nothing. */
  lemma {:induction false} SeasonStepsHalted(run: Runner, p: Progress, id: int, sts: seq<string>)
    requires p.halted
    ensures SeasonSteps(run, p, id, sts) == p
    decreases |sts|
  {
    if sts != [] {
      SeasonStepsHalted(run, p, id, sts[..|sts| - 1]);
    }
  }

  /** The season types `sts` and then `st`. */
  lemma SeasonStepsSnoc(run: Runner, p: Progress, id: int, sts: seq<string>, st: string)
    ensures SeasonSteps(run, p, id, sts + [st]) == SeasonStep(run, SeasonSteps(run, p, id, sts), id, st)
  {
    assert (sts + [st])[..|sts|] == sts;
  }

  /** A halted script's team step does nothing. */
  lemma TeamStepHalted(run: Runner, p: Progress, id: int)
    requires p.halted
    ensures TeamStep(run, p, id) == p
  {
    SeasonStepsHalted(run, p, id, LegacySeasonTypes);
  }

  /**
   * The fetches after the first `n` are the season types of the sweep,
   * fetch `k` for season type `k % 2`, and the script has halted exactly
   * when its last fetch aborts, and no earlier one does.
   */
  predicate StopsAtAbort(q: Progress, n: nat)
  {
    && (q.halted ==> |q.fetches| > n)
    && forall k :: n <= k < |q.fetches| ==> (Aborts(q.fetches[k]) <==> q.halted && k == |q.fetches| - 1)
  }

  /** A team step is its two season steps, then the one-second sleep unless they halted the script. */
  lemma TeamStepTwo(run: Runner, p: Progress, id: int)
    ensures var q := SeasonStep(run, SeasonStep(run, p, id, LegacySeasonTypes[0]), id, LegacySeasonTypes[1]);
            TeamStep(run, p, id) == if q.halted then q else q.(sleeps := q.sleeps + [10])
  {
    SeasonStepsSnoc(run, p, id, [], LegacySeasonTypes[0]);
    SeasonStepsSnoc(run, p, id, [LegacySeasonTypes[0]], LegacySeasonTypes[1]);
    assert [] + [LegacySeasonTypes[0]] == [LegacySeasonTypes[0]];
    assert [LegacySeasonTypes[0]] + [LegacySeasonTypes[1]] == LegacySeasonTypes;
  }

  /** A team whose Regular Season merge aborts adds that one fetch and halts. */
  lemma TeamFetchesOne(p: Progress, q: Progress, x: Fetch)
    requires |p.fetches| % 2 == 0 && q.fetches == p.fetches + [x]
    requires SeasonTyped(x, LegacySeasonTypes[0]) && q.halted && Aborts(x)
    ensures |p.fetches| < |q.fetches| <= |p.fetches| + 2 && q.fetches[..|p.fetches|] == p.fetches
    ensures forall k :: |p.fetches| <= k < |q.fetches| ==> SeasonTyped(q.fetches[k], LegacySeasonTypes[k % 2])
    ensures StopsAtAbort(q, |p.fetches|)
  {
  }

  /** A team that makes both fetches adds them in season-type order and halts exactly when the second aborts. */
  lemma TeamFetchesTwo(p: Progress, q: Progress, x: Fetch, y: Fetch)
    requires |p.fetches| % 2 == 0 && q.fetches == p.fetches + [x, y]
    requires SeasonTyped(x, LegacySeasonTypes[0]) && SeasonTyped(y, LegacySeasonTypes[1])
    requires !Aborts(x) && (q.halted <==> Aborts(y))
    ensures |p.fetches| < |q.fetches| <= |p.fetches| + 2 && q.fetches[..|p.fetches|] == p.fetches
    ensures forall k :: |p.fetches| <= k < |q.fetches| ==> SeasonTyped(q.fetches[k], LegacySeasonTypes[k % 2])
    ensures StopsAtAbort(q, |p.fetches|)
  {
    var n := |p.fetches|;
    assert q.fetches[n] == x && q.fetches[n + 1] == y;
    assert n % 2 == 0 && (n + 1) % 2 == 1;
  }

  /**
   * One team adds a Regular Season fetch and then, unless its merge aborts
   * the script, a Playoffs one, after at most twelve requests, four at
   * least when the script goes on; the script halts exactly at a fetch
   * whose merge aborts.
   */
  lemma TeamStepFetches(run: Runner, p: Progress, id: int)
    requires LikeGetLineups(run) && !p.halted && |p.fetches| % 2 == 0
    ensures var q := TeamStep(run, p, id);
            && |p.fetches| < |q.fetches| <= |p.fetches| + 2 && q.fetches[..|p.fetches|] == p.fetches
            && (forall k :: |p.fetches| <= k < |q.fetches| ==> SeasonTyped(q.fetches[k], LegacySeasonTypes[k % 2]))
            && StopsAtAbort(q, |p.fetches|)
            && (!q.halted ==> |q.fetches| == |p.fetches| + 2 && p.sent + 4 <= q.sent)
            && q.sent <= p.sent + 12
  {
    var n := |p.fetches|;
    var q1 := SeasonStep(run, p, id, LegacySeasonTypes[0]);
    var q2 := SeasonStep(run, q1, id, LegacySeasonTypes[1]);
    TeamStepTwo(run, p, id);
    SeasonStepFetch(run, p, id, LegacySeasonTypes[0]);
    if q1.halted {
      assert q2 == q1;
      TeamFetchesOne(p, q1, q1.fetches[n]);
    } else {
      SeasonStepFetch(run, q1, id, LegacySeasonTypes[1]);
      assert q2.fetches == p.fetches + [q1.fetches[n], q2.fetches[n + 1]];
      TeamFetchesTwo(p, TeamStep(run, p, id), q1.fetches[n], q2.fetches[n + 1]);
    }
  }

  /**
   * The sweep over `d` makes fetch `k` for season type `k % 2` and sends at
   * most twelve requests per team.  It halts exactly at the first fetch
   * whose merge aborts; until then it makes two fetches and sends at least
   * four requests per team.
   */
  lemma {:induction false} LeagueSweepFetches(run: Runner, p: Progress, d: Dict)
    requires LikeGetLineups(run) && p.fetches == [] && !p.halted
    ensures var q := LeagueSweep(run, p, d);
            && |q.fetches| <= 2 * |d| && SweepTyped(q.fetches) && StopsAtAbort(q, 0)
            && (!q.halted ==> |q.fetches| == 2 * |d| && p.sent + 4 * |d| <= q.sent)
            && q.sent <= p.sent + 12 * |d|
    decreases |d|
  {
    if d != [] {
      var n := |d| - 1;
      LeagueSweepFetches(run, p, d[..n]);
      var q0 := LeagueSweep(run, p, d[..n]);
      if q0.halted {
        TeamStepHalted(run, q0, d[n].1);
      } else {
        TeamStepFetches(run, q0, d[n].1);
        SweepStepOn(q0, LeagueSweep(run, p, d));
      }
    }
  }

  /** A sweep that has not halted, extended by one team's fetches, keeps its typing and stops at the first abort. */
  lemma SweepStepOn(q0: Progress, q: Progress)
    requires SweepTyped(q0.fetches) && StopsAtAbort(q0, 0) && !q0.halted
    requires |q0.fetches| < |q.fetches| && q.fetches[..|q0.fetches|] == q0.fetches
    requires forall k :: |q0.fetches| <= k < |q.fetches| ==> SeasonTyped(q.fetches[k], LegacySeasonTypes[k % 2])
    requires StopsAtAbort(q, |q0.fetches|)
    ensures SweepTyped(q.fetches) && StopsAtAbort(q, 0)
  {
    var m := |q0.fetches|;
    forall k | 0 <= k < m ensures q.fetches[k] == q0.fetches[k] && !Aborts(q.fetches[k]) {
      assert q.fetches[..m][k] == q.fetches[k];
    }
  }

  // ---------------------------------------------------------------------
  // What the sweep contributes to league_lineup
  // ---------------------------------------------------------------------

  /** What fetch `k` of the sweep over `d`, one of team `k / 2`, contributes: its merge, when there and not empty. */
  function Contribution(d: Dict, f: Fetch, k: nat): Option<Frame>
    requires k / 2 < |d|
  {
    var m := MergeCase(f.base, f.adv, d[k / 2].0, d[k / 2].1);
    if m.Some? && !Empty(m.value) then m else None
  }

  /** The frames concatenated onto `league_lineup` for the fetches `fetches`, in order. */
  function Parts(d: Dict, fetches: seq<Fetch>): seq<Frame>
    requires |fetches| <= 2 * |d|
    decreases |fetches|
  {
    if fetches == [] then []
    else
      var n := |fetches| - 1;
      var c := Contribution(d, fetches[n], n);
      Parts(d, fetches[..n]) + (if c.Some? then [c.value] else [])
  }

  /** One more fetch adds its contribution, if any, to the parts. */
  lemma PartsSnoc(d: Dict, fetches: seq<Fetch>, f: Fetch)
    requires |fetches| < 2 * |d|
    ensures Contribution(d, f, |fetches|).Some? ==>
              Parts(d, fetches + [f]) == Parts(d, fetches) + [Contribution(d, f, |fetches|).value]
    ensures Contribution(d, f, |fetches|).None? ==> Parts(d, fetches + [f]) == Parts(d, fetches)
  {
    assert (fetches + [f])[..|fetches|] == fetches;
  }

  /** A contribution made from a Base frame of season type `st` is never empty, tagged and of that season type. */
  lemma MergeCasePart(base: Option<Frame>, adv: Option<Frame>, name: string, id: int, st: string)
    requires base.Some? ==> Constant(base.value, "SEASON_TYPE", Str(st))
    ensures var r := MergeCase(base, adv, name, id);
            r.Some? ==> !Empty(r.value) && Tagged(r.value, TeamTags(name, id)) && Constant(r.value, "SEASON_TYPE", Str(st))
  {
    MergeCaseContributes(base, adv, name, id);
    if Usable(base) {
      MergeCaseSeasonType(base, adv, name, id, st);
    } else {
      MergeCaseFallbacks(base, adv, name, id);
    }
  }

  /** A contribution of the merge case analysis is never empty and carries the team's tags. */
  lemma MergeCaseContributes(base: Option<Frame>, adv: Option<Frame>, name: string, id: int)
    ensures var r := MergeCase(base, adv, name, id);
            r.Some? ==> !Empty(r.value) && Tagged(r.value, TeamTags(name, id))
  {
    var r := MergeCase(base, adv, name, id);
    if r.Some? {
      if Usable(adv) {
        MergeCaseInner(base, adv, name, id);
      } else {
        MergeCaseFallbacks(base, adv, name, id);
        TagColumns(base.value, TeamTags(name, id));
      }
    }
  }

  /** Frame `f` is the contribution of team `key.0` of `d` for season type `key.1`: not empty, tagged, of that season type. */
  predicate PartOf(f: Frame, d: Dict, key: (nat, nat))
  {
    && key.0 < |d| && key.1 < |LegacySeasonTypes| && !Empty(f)
    && Tagged(f, TeamTags(d[key.0].0, d[key.0].1))
    && Constant(f, "SEASON_TYPE", Str(LegacySeasonTypes[key.1]))
  }

  /** Team-major, then season-type order. */
  predicate Before(a: (nat, nat), b: (nat, nat))
  {
    a.0 < b.0 || (a.0 == b.0 && a.1 < b.1)
  }

  /** The position of a (team, season type) pair in the sweep. */
  function Position(key: (nat, nat)): nat
  {
    2 * key.0 + key.1
  }

  /** A contribution of a sweep-typed fetch is a part of its team and season type. */
  lemma ContributionPart(d: Dict, f: Fetch, k: nat)
    requires k / 2 < |d| && SeasonTyped(f, LegacySeasonTypes[k % 2])
    ensures var c := Contribution(d, f, k);
            c.Some? ==> PartOf(c.value, d, (k / 2, k % 2)) && Position((k / 2, k % 2)) == k
  {
    MergeCasePart(f.base, f.adv, d[k / 2].0, d[k / 2].1, LegacySeasonTypes[k % 2]);
  }

  /**
   * `league_lineup` grows only with non-empty results, in team and then
   * season-type order: every part is the contribution of one team of the
   * dictionary for one season type, tagged with that team's name and id
   * and carrying that season type, and no (team, season type) pair
   * contributes twice or out of order.
   */
  lemma {:induction false} PartsOrdered(d: Dict, fetches: seq<Fetch>) returns (keys: seq<(nat, nat)>)
    requires |fetches| <= 2 * |d| && SweepTyped(fetches)
    ensures |keys| == |Parts(d, fetches)|
    ensures forall j :: 0 <= j < |keys| ==> PartOf(Parts(d, fetches)[j], d, keys[j]) && Position(keys[j]) < |fetches|
    ensures forall i, j :: 0 <= i < j < |keys| ==> Before(keys[i], keys[j])
    decreases |fetches|
  {
    if fetches == [] {
      keys := [];
    } else {
      var n := |fetches| - 1;
      var init := fetches[..n];
      assert SweepTyped(init) by {
        forall k | 0 <= k < n ensures SeasonTyped(init[k], LegacySeasonTypes[k % 2]) {
          assert init[k] == fetches[k];
        }
      }
      keys := PartsOrdered(d, init);
      ContributionPart(d, fetches[n], n);
      DropLast(fetches);
      PartsSnoc(d, init, fetches[n]);
      keys := KeysSnoc(Parts(d, init), keys, d, n, Contribution(d, fetches[n], n));
    }
  }

  /** Appending the part, if any, of fetch `n` keeps the keys in order, each under `n + 1`. */
  lemma KeysSnoc(ps: seq<Frame>, keys: seq<(nat, nat)>, d: Dict, n: nat, x: Option<Frame>)
    returns (keys': seq<(nat, nat)>)
    requires |keys| == |ps|
    requires forall j :: 0 <= j < |keys| ==> PartOf(ps[j], d, keys[j]) && Position(keys[j]) < n
    requires forall i, j :: 0 <= i < j < |keys| ==> Before(keys[i], keys[j])
    requires x.Some? ==> PartOf(x.value, d, (n / 2, n % 2)) && Position((n / 2, n % 2)) == n
    ensures var ps' := ps + (if x.Some? then [x.value] else []);
            && |keys'| == |ps'|
            && (forall j :: 0 <= j < |keys'| ==> PartOf(ps'[j], d, keys'[j]) && Position(keys'[j]) < n + 1)
            && (forall i, j :: 0 <= i < j < |keys'| ==> Before(keys'[i], keys'[j]))
  {
    keys' := keys;
    if x.Some? {
      var last := (n / 2, n % 2);
      forall i | 0 <= i < |keys| ensures Before(keys[i], last) {
        assert Position(keys[i]) < Position(last);
      }
      keys' := keys + [last];
    }
  }

  /** Row `r` belongs to a team of `d` and to one of the two season types. */
  predicate RowOfSweep(r: Row, d: Dict)
  {
    && (exists j :: 0 <= j < |d| && Get(r, "team") == Str(d[j].0) && Get(r, "team_id") == Num(d[j].1))
    && (Get(r, "SEASON_TYPE") == Str(LegacySeasonTypes[0]) || Get(r, "SEASON_TYPE") == Str(LegacySeasonTypes[1]))
  }

  /** Each row of a part, as concatenated, belongs to the part's team and season type. */
  lemma PartRows(f: Frame, d: Dict, key: (nat, nat))
    requires PartOf(f, d, key)
    ensures forall k :: 0 <= k < |f.rows| ==> RowOfSweep(FrameRows(f)[k], d)
  {
    var tags := TeamTags(d[key.0].0, d[key.0].1);
    assert Constant(f, tags[0].0, tags[0].1) && Constant(f, tags[1].0, tags[1].1);
    forall k | 0 <= k < |f.rows| ensures RowOfSweep(FrameRows(f)[k], d) {
      var r := FrameRows(f)[k];
      assert r == Restrict(f.rows[k], f.columns);
      assert Get(r, "team") == Str(d[key.0].0) && Get(r, "team_id") == Num(d[key.0].1);
      assert Get(r, "SEASON_TYPE") == Str(LegacySeasonTypes[key.1]);
    }
  }

  /** Every row of a concatenation of parts belongs to a team of `d` and one of the two season types. */
  lemma {:induction false} ConcatRowsOfSweep(parts: seq<Frame>, d: Dict, keys: seq<(nat, nat)>)
    requires |keys| == |parts| && forall j :: 0 <= j < |parts| ==> PartOf(parts[j], d, keys[j])
    ensures forall i :: 0 <= i < |Concat(parts).rows| ==> RowOfSweep(Concat(parts).rows[i], d)
    decreases |parts|
  {
    if parts != [] {
      var n := |parts| - 1;
      ConcatRowsOfSweep(parts[..n], d, keys[..n]);
      PartRows(parts[n], d, keys[n]);
      var g := Concat(parts);
      var init := Concat(parts[..n]);
      forall i | 0 <= i < |g.rows| ensures RowOfSweep(g.rows[i], d) {
        if i < |init.rows| {
          assert g.rows[i] == init.rows[i];
        } else {
          assert g.rows[i] == FrameRows(parts[n])[i - |init.rows|];
        }
      }
    }
  }

  /**
   * `league_lineup` after the sweep: as many rows as its parts together,
   * and every row belongs to a team of the dictionary, with its name and
   * id, and to one of the two season types.
   */
  lemma LeagueRows(run: Runner, p: Progress, d: Dict)
    requires LikeGetLineups(run) && p.fetches == [] && !p.halted
    ensures var fetches := LeagueSweep(run, p, d).fetches;
            |fetches| <= 2 * |d| &&
            var league := Concat(Parts(d, fetches));
            && Len(league) == SumLen(Parts(d, fetches))
            && forall i :: 0 <= i < |league.rows| ==> RowOfSweep(league.rows[i], d)
  {
    var fetches := LeagueSweep(run, p, d).fetches;
    LeagueSweepFetches(run, p, d);
    var keys := PartsOrdered(d, fetches);
    ConcatRowsOfSweep(Parts(d, fetches), d, keys);
    ConcatLen(Parts(d, fetches));
  }

  // ---------------------------------------------------------------------
  // Post-processing and the output file
  // ---------------------------------------------------------------------

  /** What the script ends with: no data, an error nothing catches, or the table it saves and the file it saves it to. */
  datatype Output = NoData | Crashed | Saved(table: Frame, path: string)

  /** `sort_values(by=["team", "SEASON_TYPE", "MIN"], ascending=[True, True, False])`. */
  const LegacySortKeys: seq<Ordering.SortKey> :=
    [Ordering.SortKey("team", true), Ordering.SortKey("SEASON_TYPE", true), Ordering.SortKey("MIN", false)]

  /** The output file: the season without its dashes, in the fixed name under `data`. */
  function OutputFilename(season: string): (path: string)
    ensures path == "data/NBALineup" + Text.RemoveChar(season, '-') + "_RegSeason_Playoffs_BaseAdvanced.csv"
  {
    "data/NBALineup" + Text.RemoveChar(season, '-') + "_RegSeason_Playoffs_BaseAdvanced.csv"
  }

  /**
   * A dash in the season does not reach the file name: `2025-26` names the
   * same file as `202526`, and a season without dashes appears as it is.
   */
  lemma OutputFilenameDash(a: string, b: string)
    ensures OutputFilename(a + "-" + b) == OutputFilename(a + b)
    ensures '-' !in a + b ==>
              OutputFilename(a + b) == "data/NBALineup" + (a + b) + "_RegSeason_Playoffs_BaseAdvanced.csv"
  {
    Text.RemoveCharAround(a, b, '-');
    Text.RemoveCharAppend(a, b, '-');
    assert a + "-" + b == a + ['-'] + b;
    if '-' !in a + b {
      Text.RemoveCharAbsent(a + b, '-');
    }
  }

  /**
   * The post-processing of `league_lineup`: nothing when it is empty;
   * otherwise its `players_list` column from `GROUP_NAME`, and the table
   * sorted by team, season type and minutes, saved under the output name.
   * A missing `GROUP_NAME` or sort column raises `KeyError`, which nothing
   * catches.
   */
  function PostProcess(league: Frame, season: string): Output
  {
    if Empty(league) then NoData
    else if "GROUP_NAME" !in league.columns then Crashed
    else
      var listed := MapColumn(league, "players_list", (r: Row) => Lineups.PlayersList(Get(r, "GROUP_NAME")));
      if "team" !in listed.columns || "SEASON_TYPE" !in listed.columns || "MIN" !in listed.columns then Crashed
      else Saved(Ordering.SortValues(listed, LegacySortKeys), OutputFilename(season))
  }

  /**
   * The saved table holds the rows of `league_lineup`, each with its
   * `players_list` made from its own `GROUP_NAME`, sorted by team and
   * season type ascending and minutes descending; nothing is saved for an
   * empty league table.
   */
  lemma PostProcessSpec(league: Frame, season: string)
    ensures PostProcess(league, season).NoData? <==> Empty(league)
    ensures PostProcess(league, season).Saved? ==>
              var t := PostProcess(league, season).table;
              && Len(t) == Len(league)
              && (forall c :: c in t.columns <==> c in league.columns || c == "players_list")
              && Ordering.SortedBy(t.rows, LegacySortKeys)
              && (forall i :: 0 <= i < |t.rows| ==>
                    Get(t.rows[i], "players_list") == Lineups.PlayersList(Get(t.rows[i], "GROUP_NAME")))
              && multiset(t.rows) == multiset(MapColumn(league, "players_list", (r: Row) => Lineups.PlayersList(Get(r, "GROUP_NAME"))).rows)
              && PostProcess(league, season).path == OutputFilename(season)
  {
    if PostProcess(league, season).Saved? {
      var listed := MapColumn(league, "players_list", (r: Row) => Lineups.PlayersList(Get(r, "GROUP_NAME")));
      var t := PostProcess(league, season).table;
      forall i | 0 <= i < |t.rows| ensures Get(t.rows[i], "players_list") == Lineups.PlayersList(Get(t.rows[i], "GROUP_NAME")) {
        assert t.rows[i] in multiset(listed.rows);
        var k :| 0 <= k < |listed.rows| && listed.rows[k] == t.rows[i];
      }
    }
  }

  /**
   * A non-empty concatenation of the parts has its `team` and
   * `SEASON_TYPE` columns, so post-processing it can only crash for want
   * of `GROUP_NAME` or `MIN`.
   */
  lemma PartsOutput(d: Dict, fetches: seq<Fetch>, season: string)
    requires |fetches| <= 2 * |d| && SweepTyped(fetches)
    ensures var league := Concat(Parts(d, fetches));
            PostProcess(league, season) == Crashed ==> "GROUP_NAME" !in league.columns || "MIN" !in league.columns
  {
    var parts := Parts(d, fetches);
    var keys := PartsOrdered(d, fetches);
    ConcatColumns(parts);
    if |parts| > 0 {
      assert PartOf(parts[0], d, keys[0]);
      var tags := TeamTags(d[keys[0].0].0, d[keys[0].0].1);
      assert Constant(parts[0], tags[0].0, tags[0].1);
    } else {
      assert Concat(parts) == EmptyFrame;
    }
  }

  /** Post-processing what the sweep concatenated can only crash for want of `GROUP_NAME` or `MIN`. */
  lemma SweepOutput(run: Runner, p: Progress, d: Dict, season: string)
    requires LikeGetLineups(run) && p.fetches == [] && !p.halted
    ensures var fetches := LeagueSweep(run, p, d).fetches;
            |fetches| <= 2 * |d| &&
            var league := Concat(Parts(d, fetches));
            PostProcess(league, season) == Crashed ==> "GROUP_NAME" !in league.columns || "MIN" !in league.columns
  {
    LeagueSweepFetches(run, p, d);
    PartsOutput(d, LeagueSweep(run, p, d).fetches, season);
  }

  /** No season types leave the progress as it was; the first `i + 1` are the first `i` and then season type `i`; all of them are the list itself. */
  lemma SeasonStepsNext(run: Runner, p: Progress, id: int, i: nat)
    requires i <= |LegacySeasonTypes|
    ensures i < |LegacySeasonTypes| ==>
              SeasonSteps(run, p, id, LegacySeasonTypes[..i + 1]) ==
              SeasonStep(run, SeasonSteps(run, p, id, LegacySeasonTypes[..i]), id, LegacySeasonTypes[i])
    ensures i == |LegacySeasonTypes| ==> SeasonSteps(run, p, id, LegacySeasonTypes[..i]) == SeasonSteps(run, p, id, LegacySeasonTypes)
    ensures SeasonSteps(run, p, id, LegacySeasonTypes[..0]) == p
  {
    assert LegacySeasonTypes[..0] == [];
    if i < |LegacySeasonTypes| {
      TakeNext(LegacySeasonTypes, i);
      SeasonStepsSnoc(run, p, id, LegacySeasonTypes[..i], LegacySeasonTypes[i]);
    } else {
      assert LegacySeasonTypes[..i] == LegacySeasonTypes;
    }
  }

  /** Once the first `i` season types have halted the script, the rest do nothing. */
  lemma SeasonStepsRest(run: Runner, p: Progress, id: int, i: nat)
    requires i <= |LegacySeasonTypes| && SeasonSteps(run, p, id, LegacySeasonTypes[..i]).halted
    ensures SeasonSteps(run, p, id, LegacySeasonTypes) == SeasonSteps(run, p, id, LegacySeasonTypes[..i])
  {
    if i == 0 {
      SeasonStepsNext(run, p, id, 0);
      SeasonStepsHalted(run, p, id, LegacySeasonTypes);
    } else if i == 1 {
      var q := SeasonSteps(run, p, id, LegacySeasonTypes[..1]);
      SeasonStepsNext(run, p, id, 1);
      assert SeasonStep(run, q, id, LegacySeasonTypes[1]) == q;
      assert LegacySeasonTypes[..2] == LegacySeasonTypes;
    } else {
      SeasonStepsNext(run, p, id, 2);
    }
  }

  /**
   * A team's season steps end when both have run or the script has
   * halted; the team step is then their progress, with the one-second
   * sleep unless the script has halted.
   */
  lemma TeamStepEnd(run: Runner, p: Progress, id: int, i: nat)
    requires i <= |LegacySeasonTypes|
    requires i == |LegacySeasonTypes| || SeasonSteps(run, p, id, LegacySeasonTypes[..i]).halted
    ensures var q := SeasonSteps(run, p, id, LegacySeasonTypes[..i]);
            TeamStep(run, p, id) == if q.halted then q else q.(sleeps := q.sleeps + [10])
  {
    if i == |LegacySeasonTypes| {
      SeasonStepsNext(run, p, id, i);
    } else {
      SeasonStepsRest(run, p, id, i);
    }
  }

  /** No teams leave the progress as it was; the first `j + 1` are the first `j` and then team `j`; all of them are the dictionary itself. */
  lemma LeagueSweepNext(run: Runner, p: Progress, d: Dict, j: nat)
    requires j <= |d|
    ensures j < |d| ==> LeagueSweep(run, p, d[..j + 1]) == TeamStep(run, LeagueSweep(run, p, d[..j]), d[j].1)
    ensures j == |d| ==> LeagueSweep(run, p, d[..j]) == LeagueSweep(run, p, d)
    ensures LeagueSweep(run, p, d[..0]) == p
  {
    assert d[..0] == [];
    if j < |d| {
      TakeTake(d, j);
    } else {
      assert d[..j] == d;
    }
  }

  /** Once the first `j` teams have halted the script, the rest of the sweep does nothing. */
  lemma {:induction false} LeagueSweepHalted(run: Runner, p: Progress, d: Dict, j: nat)
    requires j <= |d| && LeagueSweep(run, p, d[..j]).halted
    ensures LeagueSweep(run, p, d) == LeagueSweep(run, p, d[..j])
    decreases |d| - j
  {
    if j == |d| {
      LeagueSweepNext(run, p, d, j);
    } else {
      LeagueSweepNext(run, p, d, j);
      TeamStepHalted(run, LeagueSweep(run, p, d[..j]), d[j].1);
      LeagueSweepHalted(run, p, d, j + 1);
    }
  }

  /**
   * The merge case analysis for fetch `k` and, when it gives a non-empty
   * frame, `league_lineup = pd.concat([league_lineup, merged])`.
   */
  method Contribute(d: Dict, k: nat, f: Fetch, ghost fetches: seq<Fetch>, league: Frame) returns (league': Frame)
    requires k == |fetches| && k < 2 * |d| && league == Concat(Parts(d, fetches))
    ensures league' == Concat(Parts(d, fetches + [f]))
  {
    var c := Contribution(d, f, k);
    PartsSnoc(d, fetches, f);
    if c.Some? {
      ConcatGrow(Parts(d, fetches), c.value);
      league' := Concat([league, c.value]);
    } else {
      league' := league;
    }
  }

  /**
   * The script's run: the service it calls, its target season, the
   * requests it has sent and the sleeps it has taken, in tenths of a
   * second.  `run` is what its `get_lineups` calls do.
   */
  class LegacyScript {
    const world: World
    const season: string
    ghost const run: Runner
    var sent: nat
    var sleeps: seq<nat>

    constructor (world: World, season: string)
      ensures this.world == world && this.season == season && run == Runs(world, season)
      ensures sent == 0 && sleeps == [] && Valid()
    {
      this.world, this.season, run := world, season, Runs(world, season);
      sent, sleeps := 0, [];
      RunsServe(world, season);
    }

    /** `run` serves the script's target season. */
    ghost predicate Valid()
    {
      Serves(run, world, season)
    }

    /** `time.sleep(t / 10)`. */
    method Sleep(t: nat)
      modifies this`sleeps
      ensures sleeps == old(sleeps) + [t]
    {
      sleeps := sleeps + [t];
    }

    /** `get_lineups(team_id_i, measure_type, season_type, season, retries, delay)`. */
    method GetLineups(teamId: int, measureType: string, seasonType: string, season: string, retries: int, delay: nat)
      returns (r: Option<Frame>)
      modifies this`sent, this`sleeps
      ensures var run := GetLineupsRun(world, old(sent), LineupRequest(teamId, measureType, seasonType, season),
                                       seasonType, retries, delay);
              r == run.result && sent == old(sent) + run.attempts && sleeps == old(sleeps) + run.sleeps
    {
      var req := LineupRequest(teamId, measureType, seasonType, season);
      var attempt: nat := 0;
      while attempt < retries
        invariant if retries > 0 then attempt < retries else attempt == 0
        invariant sent == old(sent) + attempt
        invariant AllFail(world, old(sent), old(sent) + attempt, req)
        invariant sleeps == old(sleeps) + Repeat(10 * delay, attempt)
        decreases retries - attempt
      {
        var reply := world(sent, req);
        sent := sent + 1;
        if reply.Ok? {
          FirstReplyEnds(world, old(sent), req, seasonType, retries, delay, attempt);
          if |reply.tables| > 1 {
            return Some(SetColumn(reply.tables[1], "SEASON_TYPE", Str(seasonType)));
          }
          return None;
        }
        if attempt < retries - 1 {
          RepeatSnoc(10 * delay, attempt);
          Sleep(10 * delay);
        } else {
          AllFailGivesUp(world, old(sent), req, seasonType, retries, delay);
          return None;
        }
        attempt := attempt + 1;
      }
      return None;
    }

    /** Base, a 0.6-second sleep, then Advanced, for one team and season type. */
    method FetchSeason(id: int, st: string) returns (f: Fetch)
      requires Valid()
      modifies this`sent, this`sleeps
      ensures var b := run(old(sent), id, "Base", st);
              var a := run(old(sent) + b.attempts, id, "Advanced", st);
              && f == Fetch(b.result, a.result) && sent == old(sent) + b.attempts + a.attempts
              && sleeps == old(sleeps) + b.sleeps + [6] + a.sleeps
    {
      assert run(sent, id, "Base", st) == Served(world, sent, id, "Base", st, season);
      var base := GetLineups(id, "Base", st, season, 3, 2);
      Sleep(6);
      assert run(sent, id, "Advanced", st) == Served(world, sent, id, "Advanced", st, season);
      var adv := GetLineups(id, "Advanced", st, season, 3, 2);
      f := Fetch(base, adv);
    }

    /**
     * One season type of team `k / 2`: the fetches, then the merge and
     * concatenation and a 0.5-second sleep, unless the merge aborts the
     * script.
     */
    method SeasonRound(d: Dict, k: nat, st: string, ghost fetches: seq<Fetch>, league: Frame)
      returns (f: Fetch, league': Frame, halted: bool)
      requires Valid() && k == |fetches| && k < 2 * |d| && league == Concat(Parts(d, fetches))
      modifies this`sent, this`sleeps
      ensures Progress(sent, sleeps, fetches + [f], halted) ==
              SeasonStep(run, Progress(old(sent), old(sleeps), fetches, false), d[k / 2].1, st)
      ensures league' == Concat(Parts(d, fetches + [f]))
    {
      ghost var p := Progress(sent, sleeps, fetches, false);
      f := FetchSeason(d[k / 2].1, st);
      SeasonStepAfter(run, p, d[k / 2].1, st, f, sent, sleeps);
      halted := MergeAborts(f.base, f.adv);
      if halted {
        MergeAbortsWhen(f.base, f.adv, d[k / 2].0, d[k / 2].1);
        PartsSnoc(d, fetches, f);
        return f, league, true;
      }
      league' := Contribute(d, k, f, fetches, league);
      Sleep(5);
    }

    /** Team `j` of `d`: both season types, until a merge aborts the script, then a one-second sleep. */
    method TeamRound(d: Dict, j: nat, ghost fetches: seq<Fetch>, league: Frame)
      returns (ghost fs: seq<Fetch>, league': Frame, halted: bool)
      requires Valid() && j < |d| && |fetches| == 2 * j && league == Concat(Parts(d, fetches))
      modifies this`sent, this`sleeps
      ensures 1 <= |fs| <= 2 && (!halted ==> |fs| == 2)
      ensures Progress(sent, sleeps, fetches + fs, halted) ==
              TeamStep(run, Progress(old(sent), old(sleeps), fetches, false), d[j].1)
      ensures league' == Concat(Parts(d, fetches + fs))
    {
      ghost var p := Progress(sent, sleeps, fetches, false);
      fs, league', halted := [], league, false;
      AppendNothing(fetches);
      SeasonStepsNext(run, p, d[j].1, 0);
      var i := 0;
      while i < |LegacySeasonTypes| && !halted
        invariant 0 <= i <= |LegacySeasonTypes| && |fs| == i && (halted ==> i >= 1)
        invariant Progress(sent, sleeps, fetches + fs, halted) == SeasonSteps(run, p, d[j].1, LegacySeasonTypes[..i])
        invariant league' == Concat(Parts(d, fetches + fs))
      {
        var f;
        assert (2 * j + i) / 2 == j;
        f, league', halted := SeasonRound(d, 2 * j + i, LegacySeasonTypes[i], fetches + fs, league');
        SeasonStepsNext(run, p, d[j].1, i);
        AppendAssoc(fetches, fs, [f]);
        fs := fs + [f];
        i := i + 1;
        assert Progress(sent, sleeps, fetches + fs, halted) == SeasonSteps(run, p, d[j].1, LegacySeasonTypes[..i]);
      }
      TeamStepEnd(run, p, d[j].1, i);
      if !halted {
        Sleep(10);
      }
    }

    /** The loop over `team_dict.items()`, from an empty `league_lineup`, until a merge aborts the script. */
    method SweepLeague(d: Dict) returns (league: Frame, ghost fetches: seq<Fetch>, halted: bool)
      requires Valid()
      modifies this`sent, this`sleeps
      ensures |fetches| <= 2 * |d|
      ensures Progress(sent, sleeps, fetches, halted) == LeagueSweep(run, Progress(old(sent), old(sleeps), [], false), d)
      ensures league == Concat(Parts(d, fetches))
    {
      ghost var p := Progress(sent, sleeps, [], false);
      league, fetches, halted := EmptyFrame, [], false;
      LeagueSweepNext(run, p, d, 0);
      var j := 0;
      while j < |d| && !halted
        invariant 0 <= j <= |d| && |fetches| <= 2 * j && (!halted ==> |fetches| == 2 * j)
        invariant Progress(sent, sleeps, fetches, halted) == LeagueSweep(run, p, d[..j])
        invariant league == Concat(Parts(d, fetches))
      {
        ghost var fs;
        fs, league, halted := TeamRound(d, j, fetches, league);
        LeagueSweepNext(run, p, d, j);
        fetches := fetches + fs;
        j := j + 1;
      }
      if halted {
        LeagueSweepHalted(run, p, d, j);
      } else {
        LeagueSweepNext(run, p, d, |d|);
      }
    }

    /**
     * The whole script: the team dictionary, the sweep, then the
     * post-processing of `league_lineup`, unless a merge aborted the script.
     */
    method RunScript(records: seq<Teams.TeamRecord>) returns (out: Output)
      requires Valid()
      modifies this`sent, this`sleeps
      ensures var d := TeamDict(records);
              var q := LeagueSweep(run, Progress(old(sent), old(sleeps), [], false), d);
              && sent == q.sent && sleeps == q.sleeps && |q.fetches| <= 2 * |d|
              && out == if q.halted then Crashed else PostProcess(Concat(Parts(d, q.fetches)), season)
    {
      var d := BuildTeamDict(records);
      var league;
      ghost var fetches;
      var halted;
      league, fetches, halted := SweepLeague(d);
      if halted {
        return Crashed;
      }
      out := PostProcess(league, season);
    }
  }
}

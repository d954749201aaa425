/**
 * The league-wide lineup sweep (pipeline/fetch_lineups.py): for every
 * (season type, group size, per-mode) combination, one `LeagueDashLineups`
 * call per measure type; the frames of a combination are merged on
 * `GROUP_ID`, tagged with the combination and given the `team` and
 * `players_list` columns, and collected per group size; at the end each
 * group size's frames are concatenated and sorted.
 */
module Lineups {
  import opened Frames
  import Config
  import opened Retry
  import opened Sweep
  import opened Merge
  import Teams
  import Text
  import opened Ordering

  /** One combination of the sweep. */
  datatype Combo = Combo(seasonType: string, groupQuantity: nat, perMode: string)

  /** The combinations in the order of the three nested loops: season type, then group size, then per-mode. */
  function Combos(): seq<Combo>
  {
    var ps := Pairs(Pairs(Config.SeasonTypes, Config.GroupQuantities), Config.PerModes);
    seq(|ps|, n requires 0 <= n < |ps| => Combo(ps[n].0.0, ps[n].0.1, ps[n].1))
  }

  /**
   * The combination `(SEASON_TYPES[i], GROUP_QUANTITIES[j], PER_MODES[k])`
   * is visited as number `(i * 3 + j) * 3 + k` of the 18.
   */
  lemma ComboAt(i: nat, j: nat, k: nat)
    requires i < |Config.SeasonTypes| && j < |Config.GroupQuantities| && k < |Config.PerModes|
    ensures |Combos()| == 18
    ensures (i * 3 + j) * 3 + k < 18
    ensures Combos()[(i * 3 + j) * 3 + k]
         == Combo(Config.SeasonTypes[i], Config.GroupQuantities[j], Config.PerModes[k])
  {
    var st, gq, pm := Config.SeasonTypes, Config.GroupQuantities, Config.PerModes;
    PairsAt(st, gq, i, j);
    PairsAt(Pairs(st, gq), pm, i * 3 + j, k);
  }

  /** Every visited combination is made of catalog values. */
  lemma ComboFrom(n: nat) returns (i: nat, j: nat, k: nat)
    requires n < |Combos()|
    ensures i < |Config.SeasonTypes| && j < |Config.GroupQuantities| && k < |Config.PerModes|
    ensures n == (i * 3 + j) * 3 + k
    ensures Combos()[n] == Combo(Config.SeasonTypes[i], Config.GroupQuantities[j], Config.PerModes[k])
  {
    var st, gq, pm := Config.SeasonTypes, Config.GroupQuantities, Config.PerModes;
    var ij;
    ij, k := PairsCover(Pairs(st, gq), pm, n);
    i, j := PairsCover(st, gq, ij);
  }

  /** Every combination's group size is one of the configured ones. */
  predicate KnownGroups(cs: seq<Combo>)
  {
    forall c :: c in cs ==> c.groupQuantity in Config.GroupQuantities
  }

  lemma CombosKnown()
    ensures KnownGroups(Combos())
  {
    forall c | c in Combos() ensures c.groupQuantity in Config.GroupQuantities {
      var n :| 0 <= n < |Combos()| && Combos()[n] == c;
      var i, j, k := ComboFrom(n);
    }
  }

  /** A prefix of known combinations is known. */
  lemma KnownPrefix(cs: seq<Combo>, n: nat)
    requires KnownGroups(cs) && n <= |cs|
    ensures KnownGroups(cs[..n])
  {
    forall c | c in cs[..n] ensures c in cs {
      var k :| 0 <= k < n && cs[..n][k] == c;
      assert cs[k] == c;
    }
  }

  /** The parameters every league lineup request sends unchanged. */
  const LineupFixedParams: map<string, Cell> :=
    map["last_n_games" := Num(0), "month" := Num(0), "opponent_team_id" := Num(0), "pace_adjust" := Str("N"),
        "period" := Num(0), "plus_minus" := Str("N"), "rank" := Str("N")]

  /** The request `fetch_all_lineups` sends for one combination and measure type. */
  function LineupRequest(season: string, c: Combo, mt: string): Request
  {
    Request("LeagueDashLineups",
            LineupFixedParams["group_quantity" := Num(c.groupQuantity)]["measure_type_detailed_defense" := Str(mt)]
                             ["per_mode_detailed" := Str(c.perMode)]["season" := Str(season)]
                             ["season_type_all_star" := Str(c.seasonType)])
  }

  /**
   * `fetch_all_lineups` on the outcome of its retry call: the first table
   * when the call returned one that is not empty, `None` otherwise (a raised
   * call included).
   */
  function LineupTable(o: Outcome): Option<Frame>
  {
    if o.Returned? && |o.tables| > 0 && !Empty(o.tables[0]) then Some(o.tables[0]) else None
  }

  /**
   * A lineup fetch yields a table only from an attempt that succeeded with
   * a non-empty first table, and that table is what it yields; a call whose
   * five attempts all fail yields `None`.
   */
  lemma LineupTableOutcome(world: World, start: nat, req: Request)
    ensures var run := Retry.Retry(world, start, req, Config.ApiRetries, Config.ApiBaseDelay);
            LineupTable(run.outcome).Some? ==>
              && 1 <= run.attempts <= Config.ApiRetries
              && world(start + run.attempts - 1, req).Ok?
              && var tables := world(start + run.attempts - 1, req).tables;
                 |tables| > 0 && !Empty(tables[0]) && LineupTable(run.outcome) == Some(tables[0])
    ensures AllFail(world, start, start + Config.ApiRetries, req) ==>
              LineupTable(Retry.Retry(world, start, req, Config.ApiRetries, Config.ApiBaseDelay).outcome).None?
  {
    RetrySpec(world, start, req, Config.ApiRetries, Config.ApiBaseDelay);
    if AllFail(world, start, start + Config.ApiRetries, req) {
      DefaultExhaustion(world, start, req);
    }
  }

  /** `fetch_all_lineups(season, season_type, group_quantity, per_mode, measure_type)`. */
  method FetchAllLineups(api: Api, season: string, c: Combo, mt: string) returns (df: Option<Frame>)
    modifies api`calls, api`waits
    ensures var run := Retry.Retry(api.world, old(api.calls), LineupRequest(season, c, mt),
                                   Config.ApiRetries, Config.ApiBaseDelay);
            && df == LineupTable(run.outcome)
            && api.calls == old(api.calls) + run.attempts && api.waits == old(api.waits) + run.waits
  {
    var o := api.CallWithRetry(LineupRequest(season, c, mt), Config.ApiRetries, Config.ApiBaseDelay);
    if o.Returned? && |o.tables| > 0 && !Empty(o.tables[0]) {
      return Some(o.tables[0]);
    }
    return None;
  }

  /** The requests of one combination, one per measure type in catalog order. */
  function ComboRequests(season: string, c: Combo): (reqs: seq<Request>)
    ensures |reqs| == |Config.MeasureTypes|
    ensures forall m :: 0 <= m < |reqs| ==> reqs[m] == LineupRequest(season, c, Config.MeasureTypes[m])
  {
    seq(|Config.MeasureTypes|, m requires 0 <= m < |Config.MeasureTypes| =>
      LineupRequest(season, c, Config.MeasureTypes[m]))
  }

  /** The `measure_frames[mt] = df` step: a frame is kept only when present and not empty. */
  function Entry(mt: string, df: Option<Frame>): seq<(string, Option<Frame>)>
  {
    if df.Some? && !Empty(df.value) then [(mt, df)] else []
  }

  /** `measure_frames` after the measure types `mts` whose calls had outcomes `outs`, in order. */
  function MeasureFrames(mts: seq<string>, outs: seq<Outcome>): seq<(string, Option<Frame>)>
    requires |mts| == |outs|
    decreases |mts|
  {
    if mts == [] then []
    else
      var n := |mts| - 1;
      MeasureFrames(mts[..n], outs[..n]) + Entry(mts[n], LineupTable(outs[n]))
  }

  /**
   * Only measure types whose fetch yielded a non-empty table have an entry,
   * each with that table; and the entries are empty only when no fetch
   * yielded one.
   */
  lemma {:induction false} MeasureFramesSpec(mts: seq<string>, outs: seq<Outcome>)
    requires |mts| == |outs|
    ensures var mf := MeasureFrames(mts, outs);
            && |mf| <= |mts|
            && (forall e :: e in mf ==>
                  (e.1.Some? && !Empty(e.1.value) && exists m :: 0 <= m < |mts| && e == (mts[m], LineupTable(outs[m]))))
            && (mf == [] <==> forall m :: 0 <= m < |mts| ==> LineupTable(outs[m]).None?)
    decreases |mts|
  {
    if mts != [] {
      var n := |mts| - 1;
      MeasureFramesSpec(mts[..n], outs[..n]);
      assert forall m :: 0 <= m < n ==> mts[..n][m] == mts[m] && outs[..n][m] == outs[m];
    }
  }

  /** One measure type further: its entry, if any, is appended. */
  lemma MeasureFramesSnoc(mts: seq<string>, outs: seq<Outcome>, mt: string, o: Outcome)
    requires |mts| == |outs|
    ensures MeasureFrames(mts + [mt], outs + [o]) == MeasureFrames(mts, outs) + Entry(mt, LineupTable(o))
  {
    assert (mts + [mt])[..|mts|] == mts && (outs + [o])[..|outs|] == outs;
  }

  /** One measure type further into a combination: its call and its entry are appended. */
  lemma MeasureStep(world: World, start: nat, season: string, c: Combo, m: nat)
    requires m < |Config.MeasureTypes|
    ensures var reqs := ComboRequests(season, c);
            var mts := Config.MeasureTypes;
            var s := RunCalls(world, start, reqs[..m]);
            var run := Retry.Retry(world, s.end, reqs[m], Config.ApiRetries, Config.ApiBaseDelay);
            var t := RunCalls(world, start, reqs[..m + 1]);
            && t == Session(s.outcomes + [run.outcome], s.end + run.attempts, s.waits + run.waits)
            && MeasureFrames(mts[..m + 1], t.outcomes)
               == MeasureFrames(mts[..m], s.outcomes) + Entry(mts[m], LineupTable(run.outcome))
  {
    var reqs, mts := ComboRequests(season, c), Config.MeasureTypes;
    var s := RunCalls(world, start, reqs[..m]);
    var run := Retry.Retry(world, s.end, reqs[m], Config.ApiRetries, Config.ApiBaseDelay);
    var t := RunCalls(world, start, reqs[..m + 1]);
    RunCallsStep(world, start, reqs, m);
    TakeNext(mts, m);
    MeasureFramesSnoc(mts[..m], s.outcomes, mts[m], run.outcome);
  }

  /** One pass of the measure-type loop: fetch, keep the frame when it is not empty, `pace()`. */
  method FetchMeasure(api: Api, season: string, c: Combo, mt: string) returns (e: seq<(string, Option<Frame>)>)
    modifies api`calls, api`waits, api`paces
    ensures var run := Retry.Retry(api.world, old(api.calls), LineupRequest(season, c, mt),
                                   Config.ApiRetries, Config.ApiBaseDelay);
            && e == Entry(mt, LineupTable(run.outcome))
            && api.calls == old(api.calls) + run.attempts && api.waits == old(api.waits) + run.waits
    ensures api.paces == old(api.paces) + 1
  {
    var df := FetchAllLineups(api, season, c, mt);
    e := [];
    if df.Some? && !Empty(df.value) {
      e := [(mt, df)];
    }
    api.Pace();
  }

  /**
   * The inner loop of `fetch_and_merge_lineups` for one combination: every
   * measure type in catalog order is fetched, a non-empty frame is kept
   * under its measure type, and `pace()` follows every fetch.
   */
  method FetchMeasureFrames(api: Api, season: string, c: Combo) returns (mf: seq<(string, Option<Frame>)>)
    modifies api`calls, api`waits, api`paces
    ensures var s := RunCalls(api.world, old(api.calls), ComboRequests(season, c));
            && mf == MeasureFrames(Config.MeasureTypes, s.outcomes)
            && api.calls == s.end && api.waits == old(api.waits) + s.waits
    ensures api.paces == old(api.paces) + |Config.MeasureTypes|
  {
    ghost var world, start, waits0 := api.world, api.calls, api.waits;
    ghost var reqs := ComboRequests(season, c);
    var mts := Config.MeasureTypes;
    mf := [];
    for m := 0 to |mts|
      invariant api.calls == RunCalls(world, start, reqs[..m]).end
      invariant api.waits == waits0 + RunCalls(world, start, reqs[..m]).waits
      invariant mf == MeasureFrames(mts[..m], RunCalls(world, start, reqs[..m]).outcomes)
      invariant api.paces == old(api.paces) + m
    {
      ghost var s := RunCalls(world, start, reqs[..m]);
      MeasureStep(world, start, season, c, m);
      AppendAssoc(waits0, s.waits, Retry.Retry(world, s.end, reqs[m], Config.ApiRetries, Config.ApiBaseDelay).waits);
      var e := FetchMeasure(api, season, c, mts[m]);
      mf := mf + e;
    }
    assert mts[..|mts|] == mts && reqs[..|mts|] == reqs;
  }

  /** The `(column, value)` tags of a combination's merged frame. */
  function ComboTags(c: Combo): seq<(string, Cell)>
  {
    [("SEASON_TYPE", Str(c.seasonType)), ("GROUP_QUANTITY", Num(c.groupQuantity)), ("PER_MODE", Str(c.perMode))]
  }

  /**
   * `GROUP_NAME.fillna("").str.split(" - ")` for one cell: a missing name
   * counts as the empty string; a cell that is not a string gives a missing
   * value, as pandas' string methods do.
   */
  function PlayersList(name: Cell): Cell
  {
    match name
    case Null => Strs(Text.Split("", " - "))
    case Str(s) => Strs(Text.Split(s, " - "))
    case _ => Null
  }

  /**
   * The players of a lineup joined by `" - "` give back its `GROUP_NAME`,
   * and no player's name contains the separator; a missing name gives the
   * single empty name.
   */
  lemma PlayersListJoin(name: string)
    ensures PlayersList(Str(name)).Strs?
    ensures Text.Join(PlayersList(Str(name)).items, " - ") == name
    ensures forall k :: 0 <= k < |PlayersList(Str(name)).items| ==>
              !Text.Contains(PlayersList(Str(name)).items[k], " - ")
    ensures PlayersList(Null) == Strs([""])
  {
    Text.JoinSplit(name, " - ");
    Text.SplitPiecesFree(name, " - ");
  }

  /** `merged["team"] = merged["TEAM_ID"].apply(get_team_name)`, when the frame has `TEAM_ID`. */
  function AddTeam(records: seq<Teams.TeamRecord>, f: Frame): Frame
  {
    if "TEAM_ID" in f.columns then MapColumn(f, "team", (r: Row) => Teams.TeamCell(records, Get(r, "TEAM_ID")))
    else f
  }

  /** `merged["players_list"] = ...`, when the frame has `GROUP_NAME`. */
  function AddPlayersList(f: Frame): Frame
  {
    if "GROUP_NAME" in f.columns then MapColumn(f, "players_list", (r: Row) => PlayersList(Get(r, "GROUP_NAME")))
    else f
  }

  /** The metadata columns added to a combination's merged frame, in source order. */
  function Decorate(records: seq<Teams.TeamRecord>, c: Combo, merged: Frame): Frame
  {
    AddPlayersList(AddTeam(records, Tag(merged, ComboTags(c))))
  }

  /** A decorated frame keeps its rows and every column, and carries the combination's values in every row. */
  lemma DecorateTagged(records: seq<Teams.TeamRecord>, c: Combo, merged: Frame)
    ensures var d := Decorate(records, c, merged);
            && Len(d) == Len(merged)
            && (forall x :: x in merged.columns ==> x in d.columns)
            && Tagged(d, ComboTags(c))
  {
    var tags := ComboTags(c);
    TagSetsAll(merged, tags);
    var t := Tag(merged, tags);
    if "TEAM_ID" in t.columns {
      MapKeepsTagged(t, "team", (r: Row) => Teams.TeamCell(records, Get(r, "TEAM_ID")), tags);
    }
    var u := AddTeam(records, t);
    if "GROUP_NAME" in u.columns {
      MapKeepsTagged(u, "players_list", (r: Row) => PlayersList(Get(r, "GROUP_NAME")), tags);
    }
  }

  /** Tagging with a combination adds its three columns and no others. */
  lemma ComboTagColumns(f: Frame, c: Combo)
    ensures forall x :: x in Tag(f, ComboTags(c)).columns <==>
              x in f.columns || x == "SEASON_TYPE" || x == "GROUP_QUANTITY" || x == "PER_MODE"
  {
    var tags := ComboTags(c);
    TagColumns(f, tags);
    assert tags[0].0 == "SEASON_TYPE" && tags[1].0 == "GROUP_QUANTITY" && tags[2].0 == "PER_MODE";
  }

  /**
   * The `team` column is added exactly when `TEAM_ID` is there, and
   * `players_list` exactly when `GROUP_NAME` is.
   */
  lemma DecorateColumns(records: seq<Teams.TeamRecord>, c: Combo, merged: Frame)
    ensures var d := Decorate(records, c, merged);
            && ("TEAM_ID" in merged.columns ==> "team" in d.columns)
            && ("TEAM_ID" !in merged.columns && "team" !in merged.columns ==> "team" !in d.columns)
            && ("GROUP_NAME" in merged.columns ==> "players_list" in d.columns)
            && ("GROUP_NAME" !in merged.columns && "players_list" !in merged.columns ==> "players_list" !in d.columns)
  {
    ComboTagColumns(merged, c);
  }

  /** Row by row, `team` is the name of the row's `TEAM_ID` and `players_list` the split `GROUP_NAME`. */
  lemma DecorateRows(records: seq<Teams.TeamRecord>, c: Combo, merged: Frame, i: nat)
    requires i < Len(merged)
    ensures var d := Decorate(records, c, merged);
            && i < Len(d)
            && ("TEAM_ID" in merged.columns ==>
                  Get(d.rows[i], "team") == Teams.TeamCell(records, Get(merged.rows[i], "TEAM_ID")))
            && ("GROUP_NAME" in merged.columns ==>
                  Get(d.rows[i], "players_list") == PlayersList(Get(merged.rows[i], "GROUP_NAME")))
  {
    var tags := ComboTags(c);
    ComboTagColumns(merged, c);
    TagKeeps(merged, tags, i, "TEAM_ID");
    TagKeeps(merged, tags, i, "GROUP_NAME");
  }

  /**
   * What a combination's measure frames become: nothing when there are
   * none or their merge is empty; otherwise the merged frame, decorated.
   */
  function MergedResult(records: seq<Teams.TeamRecord>, c: Combo, mf: seq<(string, Option<Frame>)>): Option<Frame>
  {
    if mf == [] then None
    else
      var merged := Merged(mf, "GROUP_ID");
      if Empty(merged) then None else Some(Decorate(records, c, merged))
  }

  /** What one combination contributes, from the outcomes of its measure-type calls. */
  function ComboResult(records: seq<Teams.TeamRecord>, c: Combo, outs: seq<Outcome>): Option<Frame>
    requires |outs| == |Config.MeasureTypes|
  {
    MergedResult(records, c, MeasureFrames(Config.MeasureTypes, outs))
  }

  /**
   * A combination contributes exactly when some kept measure frame holds
   * `GROUP_ID`; what it contributes is not empty, holds `GROUP_ID`, and
   * carries the combination's tags.
   */
  lemma MergedResultSpec(records: seq<Teams.TeamRecord>, c: Combo, mf: seq<(string, Option<Frame>)>)
    ensures MergedResult(records, c, mf).Some? <==> exists j :: 0 <= j < |mf| && Contributes(mf[j].1, "GROUP_ID")
    ensures MergedResult(records, c, mf).Some? ==>
              var f := MergedResult(records, c, mf).value;
              !Empty(f) && Tagged(f, ComboTags(c)) && "GROUP_ID" in f.columns
  {
    if mf != [] {
      var merged := Merged(mf, "GROUP_ID");
      MergedEmpty(mf, "GROUP_ID");
      if !Empty(merged) {
        var j :| 0 <= j < |mf| && Contributes(mf[j].1, "GROUP_ID");
        MergedColumnHas(mf, "GROUP_ID", j, "GROUP_ID");
        DecorateTagged(records, c, merged);
      }
    }
  }

  /**
   * The per-combination body of `fetch_and_merge_lineups`, up to the
   * accumulator: fetch the measure frames, skip the combination when there
   * are none or the merge is empty, otherwise decorate the merged frame.
   */
  method FetchCombo(api: Api, records: seq<Teams.TeamRecord>, season: string, c: Combo) returns (r: Option<Frame>)
    modifies api`calls, api`waits, api`paces
    ensures var s := RunCalls(api.world, old(api.calls), ComboRequests(season, c));
            && r == ComboResult(records, c, s.outcomes)
            && api.calls == s.end && api.waits == old(api.waits) + s.waits
    ensures api.paces == old(api.paces) + |Config.MeasureTypes|
  {
    var mf := FetchMeasureFrames(api, season, c);
    if mf == [] {
      return None;
    }
    var merged := MergeMeasureTypes(mf, "GROUP_ID");
    if Empty(merged) {
      return None;
    }
    var tagged := Tag(merged, ComboTags(c));
    if "TEAM_ID" in tagged.columns {
      tagged := MapColumn(tagged, "team", (row: Row) => Teams.TeamCell(records, Get(row, "TEAM_ID")));
    }
    if "GROUP_NAME" in tagged.columns {
      tagged := MapColumn(tagged, "players_list", (row: Row) => PlayersList(Get(row, "GROUP_NAME")));
    }
    return Some(tagged);
  }

  /** The sweep's running state: the call counter, the waits slept, the accumulators and the pauses taken. */
  datatype LineupState = LineupState(end: nat, waits: seq<nat>, acc: map<nat, seq<Frame>>, pauses: nat)

  /** `{gq: [] for gq in GROUP_QUANTITIES}`. */
  function InitialAccumulators(): (acc: map<nat, seq<Frame>>)
    ensures forall g :: g in acc <==> g in Config.GroupQuantities
    ensures forall g :: g in acc ==> acc[g] == []
  {
    map g | g in Config.GroupQuantities :: []
  }

  /**
   * The outer loops of `fetch_and_merge_lineups` over the combinations
   * `cs`, started when the counter reads `start`: each combination's seven
   * calls follow the previous combination's, and a contributing combination
   * appends its frame to its own group size's accumulator and pauses once.
   */
  function SweepLineups(world: World, start: nat, season: string, records: seq<Teams.TeamRecord>, cs: seq<Combo>)
    : (s: LineupState)
    requires KnownGroups(cs)
    ensures forall g :: g in s.acc <==> g in Config.GroupQuantities
    decreases |cs|
  {
    if cs == [] then LineupState(start, [], InitialAccumulators(), 0)
    else
      var n := |cs| - 1;
      var c := cs[n];
      KnownPrefix(cs, n);
      var p := SweepLineups(world, start, season, records, cs[..n]);
      var run := RunCalls(world, p.end, ComboRequests(season, c));
      Advance(p, c, run, ComboResult(records, c, run.outcomes))
  }

  /**
   * The sweep state after combination `c`, whose calls made `run` and which
   * contributed `r`: a contribution is appended to the accumulator of the
   * combination's group size and followed by one pause.
   */
  function Advance(p: LineupState, c: Combo, run: Session, r: Option<Frame>): (q: LineupState)
    requires c.groupQuantity in p.acc
    ensures q.acc.Keys == p.acc.Keys && q.end == run.end && q.waits == p.waits + run.waits
  {
    match r
    case None => LineupState(run.end, p.waits + run.waits, p.acc, p.pauses)
    case Some(f) => LineupState(run.end, p.waits + run.waits, p.acc[c.groupQuantity := p.acc[c.groupQuantity] + [f]], p.pauses + 1)
  }

  /**
   * One combination further into the sweep: its calls follow, and its
   * contribution, if any, is appended to its group size's accumulator.
   */
  lemma LineupStep(world: World, start: nat, season: string, records: seq<Teams.TeamRecord>, cs: seq<Combo>, n: nat)
    requires KnownGroups(cs) && n < |cs|
    ensures KnownGroups(cs[..n]) && KnownGroups(cs[..n + 1])
    ensures var p := SweepLineups(world, start, season, records, cs[..n]);
            var run := RunCalls(world, p.end, ComboRequests(season, cs[n]));
            && cs[n].groupQuantity in p.acc
            && SweepLineups(world, start, season, records, cs[..n + 1])
               == Advance(p, cs[n], run, ComboResult(records, cs[n], run.outcomes))
  {
    KnownPrefix(cs, n);
    KnownPrefix(cs, n + 1);
    TakeTake(cs, n);
  }

  /** The last combination of a non-empty sweep is one `Advance` after the others. */
  lemma LineupLast(world: World, start: nat, season: string, records: seq<Teams.TeamRecord>, cs: seq<Combo>)
    requires KnownGroups(cs) && cs != []
    ensures KnownGroups(cs[..|cs| - 1])
    ensures var c := cs[|cs| - 1];
            var p := SweepLineups(world, start, season, records, cs[..|cs| - 1]);
            var run := RunCalls(world, p.end, ComboRequests(season, c));
            && c.groupQuantity in Config.GroupQuantities && c.groupQuantity in p.acc
            && SweepLineups(world, start, season, records, cs) == Advance(p, c, run, ComboResult(records, c, run.outcomes))
  {
    KnownPrefix(cs, |cs| - 1);
  }

  /**
   * The sweep makes at least one and at most `API_RETRIES` (5) attempts for
   * each of the seven requests of every combination.
   */
  lemma {:induction false} SweepCallBounds(world: World, start: nat, season: string, records: seq<Teams.TeamRecord>, cs: seq<Combo>)
    requires KnownGroups(cs)
    ensures var s := SweepLineups(world, start, season, records, cs);
            start + 7 * |cs| <= s.end <= start + 35 * |cs|
    decreases |cs|
  {
    if cs != [] {
      var n := |cs| - 1;
      LineupLast(world, start, season, records, cs);
      SweepCallBounds(world, start, season, records, cs[..n]);
      var p := SweepLineups(world, start, season, records, cs[..n]);
      ComboCallBounds(world, p.end, season, cs[n]);
    }
  }

  /** One combination's seven requests take between 7 and 35 attempts. */
  lemma ComboCallBounds(world: World, from: nat, season: string, c: Combo)
    ensures from + 7 <= RunCalls(world, from, ComboRequests(season, c)).end <= from + 35
  {
    var reqs := ComboRequests(season, c);
    assert |reqs| == 7 by {
      Config.CatalogShape();
    }
    RunCallsBounds(world, from, reqs);
  }

  /** The pauses taken so far add up to the frames accumulated over the three group sizes. */
  predicate PausesCounted(s: LineupState)
  {
    5 in s.acc && 3 in s.acc && 2 in s.acc && s.pauses == |s.acc[5]| + |s.acc[3]| + |s.acc[2]|
  }

  /** Every accumulated frame is not empty, holds `GROUP_ID` and carries its group size in every row. */
  predicate AccTagged(acc: map<nat, seq<Frame>>)
  {
    forall g, k :: g in acc && 0 <= k < |acc[g]| ==>
      var f := acc[g][k];
      !Empty(f) && "GROUP_ID" in f.columns && Constant(f, "GROUP_QUANTITY", Num(g))
  }

  /** A step keeps both invariants when the contribution, if any, is a proper frame of the combination's group size. */
  lemma AdvanceKeeps(p: LineupState, c: Combo, run: Session, r: Option<Frame>)
    requires c.groupQuantity in Config.GroupQuantities && c.groupQuantity in p.acc
    requires PausesCounted(p) && AccTagged(p.acc)
    requires r.Some? ==> !Empty(r.value) && "GROUP_ID" in r.value.columns
                         && Constant(r.value, "GROUP_QUANTITY", Num(c.groupQuantity))
    ensures PausesCounted(Advance(p, c, run, r)) && AccTagged(Advance(p, c, run, r).acc)
  {
    if r.Some? {
      var g := c.groupQuantity;
      var acc := Advance(p, c, run, r).acc;
      forall h, k | h in acc && 0 <= k < |acc[h]|
        ensures !Empty(acc[h][k]) && "GROUP_ID" in acc[h][k].columns && Constant(acc[h][k], "GROUP_QUANTITY", Num(h))
      {
        if h == g && k == |p.acc[g]| {
          assert acc[h][k] == r.value;
        } else {
          assert acc[h][k] == p.acc[h][k];
        }
      }
    }
  }

  /** A combination's contribution, whatever its calls returned, keeps both invariants. */
  lemma ComboKeeps(records: seq<Teams.TeamRecord>, p: LineupState, c: Combo, run: Session)
    requires |run.outcomes| == |Config.MeasureTypes|
    requires c.groupQuantity in Config.GroupQuantities && c.groupQuantity in p.acc
    requires PausesCounted(p) && AccTagged(p.acc)
    ensures var q := Advance(p, c, run, ComboResult(records, c, run.outcomes));
            PausesCounted(q) && AccTagged(q.acc)
  {
    var r := ComboResult(records, c, run.outcomes);
    MergedResultSpec(records, c, MeasureFrames(Config.MeasureTypes, run.outcomes));
    if r.Some? {
      assert ComboTags(c)[1] == ("GROUP_QUANTITY", Num(c.groupQuantity));
    }
    AdvanceKeeps(p, c, run, r);
  }

  /**
   * Across the sweep, one pause per contributing combination: the pauses
   * add up to the frames accumulated over all group sizes; and every frame
   * accumulated for a group size is not empty, holds `GROUP_ID`, and came
   * from a combination of that size, its `GROUP_QUANTITY` being that size
   * in every row.
   */
  lemma {:induction false} SweepInvariant(world: World, start: nat, season: string, records: seq<Teams.TeamRecord>, cs: seq<Combo>)
    requires KnownGroups(cs)
    ensures var s := SweepLineups(world, start, season, records, cs);
            PausesCounted(s) && AccTagged(s.acc)
    decreases |cs|
  {
    if cs != [] {
      var n := |cs| - 1;
      LineupLast(world, start, season, records, cs);
      SweepInvariant(world, start, season, records, cs[..n]);
      var p := SweepLineups(world, start, season, records, cs[..n]);
      ComboKeeps(records, p, cs[n], RunCalls(world, p.end, ComboRequests(season, cs[n])));
    }
  }

  /**
   * `fetch_and_merge_lineups(season)`: every combination in loop order,
   * seven fetches and seven `pace()` calls each, the combination counter
   * ending at 18, a pause after each contributing combination, and then the
   * per-group-size results.
   */
  method FetchAndMergeLineups(api: Api, records: seq<Teams.TeamRecord>, season: string)
    returns (results: map<nat, Frame>, comboIdx: nat)
    modifies api
    ensures KnownGroups(Combos())
    ensures var s := SweepLineups(api.world, old(api.calls), season, records, Combos());
            && api.calls == s.end && api.waits == old(api.waits) + s.waits
            && api.pauses == old(api.pauses) + s.pauses
            && results == LineupResults(s.acc, Config.GroupQuantities)
    ensures api.paces == old(api.paces) + 126 && comboIdx == 18
  {
    CombosKnown();
    CombosCount();
    var acc;
    acc, comboIdx := SweepCombos(api, records, season, Combos());
    results := CombineAll(acc);
  }

  /** There are eighteen combinations, one per season type, group size and per-mode. */
  lemma CombosCount()
    ensures |Combos()| == |Config.SeasonTypes| * |Config.GroupQuantities| * |Config.PerModes| == 18
  {
    Config.CatalogShape();
  }

  /** The combination loops of `fetch_and_merge_lineups` over `cs`, counting the combinations visited. */
  method SweepCombos(api: Api, records: seq<Teams.TeamRecord>, season: string, cs: seq<Combo>)
    returns (acc: map<nat, seq<Frame>>, count: nat)
    requires KnownGroups(cs)
    modifies api`calls, api`waits, api`paces, api`pauses
    ensures var s := SweepLineups(api.world, old(api.calls), season, records, cs);
            && api.calls == s.end && api.waits == old(api.waits) + s.waits
            && api.pauses == old(api.pauses) + s.pauses && acc == s.acc
    ensures api.paces == old(api.paces) + 7 * |cs| && count == |cs|
  {
    ghost var world, start, waits0 := api.world, api.calls, api.waits;
    acc := InitialAccumulators();
    count := 0;
    for n := 0 to |cs|
      invariant KnownGroups(cs[..n])
      invariant var s := SweepLineups(world, start, season, records, cs[..n]);
                && api.calls == s.end && api.waits == waits0 + s.waits
                && api.pauses == old(api.pauses) + s.pauses && acc == s.acc
      invariant api.paces == old(api.paces) + 7 * n && count == n
    {
      var c := cs[n];
      count := count + 1;
      ghost var p := SweepLineups(world, start, season, records, cs[..n]);
      LineupStep(world, start, season, records, cs, n);
      AppendAssoc(waits0, p.waits, RunCalls(world, p.end, ComboRequests(season, c)).waits);
      acc := AddCombo(api, records, season, c, acc);
    }
    TakeAll(cs);
  }

  /**
   * One combination of `fetch_and_merge_lineups`: its seven fetches, and,
   * when it contributes, its frame appended to its group size's
   * accumulator and one pause.
   */
  method AddCombo(api: Api, records: seq<Teams.TeamRecord>, season: string, c: Combo, acc: map<nat, seq<Frame>>)
    returns (acc': map<nat, seq<Frame>>)
    requires c.groupQuantity in acc
    modifies api`calls, api`waits, api`paces, api`pauses
    ensures var run := RunCalls(api.world, old(api.calls), ComboRequests(season, c));
            var g := c.groupQuantity;
            && api.calls == run.end && api.waits == old(api.waits) + run.waits
            && match ComboResult(records, c, run.outcomes)
               case None => acc' == acc && api.pauses == old(api.pauses)
               case Some(f) => acc' == acc[g := acc[g] + [f]] && api.pauses == old(api.pauses) + 1
    ensures api.paces == old(api.paces) + 7
  {
    Config.CatalogShape();
    var r := FetchCombo(api, records, season, c);
    acc' := acc;
    if r.Some? {
      acc' := acc[c.groupQuantity := acc[c.groupQuantity] + [r.value]];
      api.Pause();
    }
  }

  /** `[x]` when `x` is a column, else nothing. */
  function IfPresent(x: string, columns: seq<string>): (ps: seq<string>)
    ensures x in columns ==> ps == [x]
    ensures x !in columns ==> ps == []
  {
    if x in columns then [x] else []
  }

  /**
   * The columns the combined lineups are sorted by: those of `team`,
   * `SEASON_TYPE`, `PER_MODE` and `MIN` that are present, in that order.
   */
  function LineupSortColumns(columns: seq<string>): seq<string>
  {
    IfPresent("team", columns) + IfPresent("SEASON_TYPE", columns)
      + IfPresent("PER_MODE", columns) + IfPresent("MIN", columns)
  }

  /**
   * The sort of the combined lineups: every sort column ascending, except
   * that the last one is descending when `MIN` is among them.
   */
  function LineupSortKeys(columns: seq<string>): (keys: seq<SortKey>)
  {
    var cols := LineupSortColumns(columns);
    var asc := if "MIN" in cols then Repeat(true, |cols| - 1) + [false] else Repeat(true, |cols|);
    seq(|cols|, i requires 0 <= i < |cols| => SortKey(cols[i], asc[i]))
  }

  /**
   * Column by column, the sort keys are the sort columns, each ascending
   * except `MIN`, which is descending; there are keys exactly when one of
   * the four columns is present.
   */
  lemma LineupSortKeysSpec(columns: seq<string>)
    ensures var keys := LineupSortKeys(columns);
            var cols := LineupSortColumns(columns);
            && |keys| == |cols|
            && (forall k :: 0 <= k < |keys| ==> keys[k].column == cols[k])
            && (forall k :: 0 <= k < |keys| ==> (keys[k].ascending <==> keys[k].column != "MIN"))
            && (keys == [] <==> "team" !in columns && "SEASON_TYPE" !in columns
                                && "PER_MODE" !in columns && "MIN" !in columns)
  {
    var first := IfPresent("team", columns) + IfPresent("SEASON_TYPE", columns) + IfPresent("PER_MODE", columns);
    var cols := LineupSortColumns(columns);
    assert cols == first + IfPresent("MIN", columns);
    assert "MIN" !in first;
    var keys := LineupSortKeys(columns);
    forall k | 0 <= k < |keys| ensures keys[k].ascending <==> keys[k].column != "MIN" {
      if k < |first| {
        assert keys[k].column == first[k];
        assert first[k] in first;
      }
    }
  }

  /**
   * One group size's result: its frames concatenated, then sorted by the
   * lineup sort keys when any of them is present.
   */
  function Combine(frames: seq<Frame>): Frame
  {
    var combined := Concat(frames);
    var keys := LineupSortKeys(combined.columns);
    if keys == [] then combined else SortValues(combined, keys)
  }

  /**
   * A combined result holds the rows of all its frames, as many as they
   * hold together, with every column of every frame, sorted by the lineup
   * sort keys (trivially so when there are none).
   */
  lemma CombineSpec(frames: seq<Frame>)
    ensures var f := Combine(frames);
            && Len(f) == SumLen(frames)
            && (forall j, c :: 0 <= j < |frames| && c in frames[j].columns ==> c in f.columns)
            && multiset(f.rows) == multiset(Concat(frames).rows)
            && SortedBy(f.rows, LineupSortKeys(f.columns))
  {
    ConcatLen(frames);
    ConcatColumns(frames);
  }

  /** The results for the group sizes `gqs`, in order: one entry for each whose accumulator is not empty. */
  function LineupResults(acc: map<nat, seq<Frame>>, gqs: seq<nat>): map<nat, Frame>
    decreases |gqs|
  {
    if gqs == [] then map[]
    else
      var n := |gqs| - 1;
      var g := gqs[n];
      var r := LineupResults(acc, gqs[..n]);
      if g in acc && acc[g] != [] then r[g := Combine(acc[g])] else r
  }

  /**
   * The results hold a group size exactly when it is one of `gqs` and its
   * accumulator is not empty, and that entry is its frames combined.
   */
  lemma {:induction false} LineupResultsSpec(acc: map<nat, seq<Frame>>, gqs: seq<nat>)
    ensures forall g :: g in LineupResults(acc, gqs) <==> g in gqs && g in acc && acc[g] != []
    ensures forall g :: g in LineupResults(acc, gqs) ==> LineupResults(acc, gqs)[g] == Combine(acc[g])
    decreases |gqs|
  {
    if gqs != [] {
      var n := |gqs| - 1;
      LineupResultsSpec(acc, gqs[..n]);
      DropLast(gqs);
    }
  }

  /**
   * The results loop of `fetch_and_merge_lineups`: for each group size in
   * order, a non-empty accumulator is concatenated, sorted and stored.
   */
  method CombineAll(acc: map<nat, seq<Frame>>) returns (results: map<nat, Frame>)
    ensures results == LineupResults(acc, Config.GroupQuantities)
  {
    var gqs := Config.GroupQuantities;
    results := map[];
    for j := 0 to |gqs|
      invariant results == LineupResults(acc, gqs[..j])
    {
      var gq := gqs[j];
      TakeTake(gqs, j);
      if gq in acc && acc[gq] != [] {
        var combined := Concat(acc[gq]);
        var keys := LineupSortKeys(combined.columns);
        if keys != [] {
          combined := SortValues(combined, keys);
        }
        results := results[gq := combined];
      }
    }
    TakeAll(gqs);
  }

  /** `config.DATA_DIR / f"lineups_{gq}man_{season}.csv"`. */
  function LineupFile(dataDir: string, gq: nat, season: string): string
  {
    dataDir + "/lineups_" + Text.NatToString(gq) + "man_" + season + ".csv"
  }

  /** Different group sizes write different files, so no size overwrites another's. */
  lemma LineupFileDistinct(dataDir: string, m: nat, n: nat, season: string)
    ensures LineupFile(dataDir, m, season) == LineupFile(dataDir, n, season) <==> m == n
  {
    if m != n {
      var pre, x, y, rest := dataDir + "/lineups_", Text.NatToString(m), Text.NatToString(n), "man_" + season + ".csv";
      Text.NatToStringInjective(m, n);
      Text.DigitsThenLetterDiffer(x, y, rest, rest);
      assert LineupFile(dataDir, m, season) == pre + (x + rest);
      assert LineupFile(dataDir, n, season) == pre + (y + rest);
      assert (pre + (x + rest))[|pre|..] == x + rest;
      assert (pre + (y + rest))[|pre|..] == y + rest;
    }
  }
}

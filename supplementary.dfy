/**
 * The supplementary fetchers (pipeline/fetch_supplementary.py): sweeps over
 * catalog values that make one retry call per point, keep the accepted
 * tables tagged with the point's values, catch every failure and move on,
 * call `pace()` after every point, and end with the non-empty tables
 * concatenated, or `None` when there are none.
 *
 * The single-table fetchers (clutch, play types, tracking, defense
 * tracking, estimated metrics) share `Sweep.CollectTables` with the
 * acceptance test `Sweep.FirstTable`; their nested loops do no work between
 * levels, so each is one loop over the proved enumeration of its points.
 * On/off keeps its two loops (a pause after every team); hustle keeps two
 * separate accumulators.
 */
module Supplementary {
  import opened Frames
  import Config
  import opened Retry
  import opened Sweep
  import Teams

  /** The tag `df["SEASON_TYPE"] = season_type`. */
  function SeasonTag(st: string): seq<(string, Cell)>
  {
    [("SEASON_TYPE", Str(st))]
  }

  // ---------------------------------------------------------------- clutch

  function ClutchRequest(season: string, st: string): Request
  {
    Request("LeagueDashTeamClutch",
            map["season" := Str(season), "season_type_all_star" := Str(st),
                "measure_type_detailed_defense" := Str("Base"), "per_mode_detailed" := Str("Totals"),
                "ahead_behind" := Str("Ahead or Behind"), "clutch_time" := Str("Last 5 Minutes"),
                "point_diff" := Num(5), "last_n_games" := Num(0), "month" := Num(0),
                "opponent_team_id" := Num(0), "pace_adjust" := Str("N"), "period" := Num(0),
                "plus_minus" := Str("N"), "rank" := Str("N")])
  }

  /** One point per season type, in catalog order, tagged with it. */
  function ClutchPoints(season: string): (pts: seq<Point>)
    ensures |pts| == |Config.SeasonTypes|
    ensures forall i :: 0 <= i < |pts| ==>
              pts[i] == Point(ClutchRequest(season, Config.SeasonTypes[i]), SeasonTag(Config.SeasonTypes[i]))
              && DistinctNames(pts[i].tags)
  {
    seq(|Config.SeasonTypes|, i requires 0 <= i < |Config.SeasonTypes| =>
      Point(ClutchRequest(season, Config.SeasonTypes[i]), SeasonTag(Config.SeasonTypes[i])))
  }

  /**
   * `fetch_clutch(season)`: one call per season type, the first table kept
   * when present and not empty, tagged with `SEASON_TYPE`; `None` when
   * nothing was kept.
   */
  method FetchClutch(api: Api, season: string) returns (r: Option<Frame>)
    modifies api
    ensures var pts := ClutchPoints(season);
            var s := RunCalls(api.world, old(api.calls), Requests(pts));
            && r == Finish(Collect(s.outcomes, pts, FirstTable))
            && api.calls == s.end && api.waits == old(api.waits) + s.waits
    ensures api.paces == old(api.paces) + |Config.SeasonTypes| && api.pauses == old(api.pauses)
  {
    var fs := CollectTables(api, ClutchPoints(season), FirstTable);
    r := Finish(fs);
  }

  // ------------------------------------------------------------ play types

  const TypeGroupings: seq<string> := ["Offensive", "Defensive"]

  /** `(player_or_team_abbreviation, label)` pairs, in loop order. */
  const PlayTypeParties: seq<(string, string)> := [("T", "Team"), ("P", "Player")]

  function PlayTypeRequest(season: string, st: string, pt: string, tg: string, abbr: string): Request
  {
    Request("SynergyPlayTypes",
            map["season" := Str(season), "season_type_all_star" := Str(st),
                "play_type_nullable" := Str(pt), "type_grouping_nullable" := Str(tg),
                "player_or_team_abbreviation" := Str(abbr), "per_mode_simple" := Str("Totals"),
                "league_id" := Str("00")])
  }

  /** One play-type point and its four tags, in the order the source assigns them. */
  function PlayTypePoint(season: string, st: string, pt: string, tg: string, party: (string, string)): (p: Point)
    ensures DistinctNames(p.tags)
  {
    Point(PlayTypeRequest(season, st, pt, tg, party.0),
          [("PLAY_TYPE", Str(pt)), ("TYPE_GROUPING", Str(tg)), ("PLAYER_OR_TEAM", Str(party.1)),
           ("SEASON_TYPE", Str(st))])
  }

  /** The four nested loops: season type, play type, type grouping, then team or player. */
  function PlayTypePoints(season: string): (pts: seq<Point>)
    ensures forall i :: 0 <= i < |pts| ==> DistinctNames(pts[i].tags)
  {
    var axes := Pairs(Pairs(Pairs(Config.SeasonTypes, Config.SynergyPlayTypes), TypeGroupings), PlayTypeParties);
    seq(|axes|, n requires 0 <= n < |axes| =>
      PlayTypePoint(season, axes[n].0.0.0, axes[n].0.0.1, axes[n].0.1, axes[n].1))
  }

  /**
   * The play-type sweep visits 2 x 11 x 2 x 2 = 88 points, the count the
   * source announces as `total`; the point for season type i, play type j,
   * grouping k and party l is visited as number ((i * 11 + j) * 2 + k) * 2 + l.
   */
  lemma PlayTypePointAt(season: string, i: nat, j: nat, k: nat, l: nat)
    requires i < |Config.SeasonTypes| && j < |Config.SynergyPlayTypes| && k < |TypeGroupings| && l < |PlayTypeParties|
    ensures |PlayTypePoints(season)|
         == |Config.SeasonTypes| * |Config.SynergyPlayTypes| * |TypeGroupings| * |PlayTypeParties| == 88
    ensures ((i * 11 + j) * 2 + k) * 2 + l < 88
    ensures PlayTypePoints(season)[((i * 11 + j) * 2 + k) * 2 + l]
         == PlayTypePoint(season, Config.SeasonTypes[i], Config.SynergyPlayTypes[j], TypeGroupings[k], PlayTypeParties[l])
  {
    Config.CatalogShape();
    var st, pt := Config.SeasonTypes, Config.SynergyPlayTypes;
    var a := Pairs(st, pt);
    var b := Pairs(a, TypeGroupings);
    PairsAt(st, pt, i, j);
    PairsAt(a, TypeGroupings, i * 11 + j, k);
    PairsAt(b, PlayTypeParties, (i * 11 + j) * 2 + k, l);
  }

  /** `fetch_play_types(season)`: one call per point, tagged with its four values; `None` when nothing was kept. */
  method FetchPlayTypes(api: Api, season: string) returns (r: Option<Frame>)
    modifies api
    ensures var pts := PlayTypePoints(season);
            var s := RunCalls(api.world, old(api.calls), Requests(pts));
            && r == Finish(Collect(s.outcomes, pts, FirstTable))
            && api.calls == s.end && api.waits == old(api.waits) + s.waits
            && api.paces == old(api.paces) + |pts| && api.pauses == old(api.pauses)
  {
    var fs := CollectTables(api, PlayTypePoints(season), FirstTable);
    r := Finish(fs);
  }

  // -------------------------------------------------------------- tracking

  /** `(player_or_team, label)` pairs, in loop order. */
  const TrackingParties: seq<(string, string)> := [("Player", "Player"), ("Team", "Team")]

  function TrackingRequest(season: string, st: string, measure: string, party: string): Request
  {
    Request("LeagueDashPtStats",
            map["season" := Str(season), "season_type_all_star" := Str(st),
                "pt_measure_type" := Str(measure), "player_or_team" := Str(party),
                "per_mode_simple" := Str("Totals"), "last_n_games" := Num(0), "month" := Num(0),
                "opponent_team_id" := Num(0)])
  }

  function TrackingPoint(season: string, st: string, measure: string, party: (string, string)): (p: Point)
    ensures DistinctNames(p.tags)
  {
    Point(TrackingRequest(season, st, measure, party.0),
          [("PT_MEASURE_TYPE", Str(measure)), ("PLAYER_OR_TEAM", Str(party.1)), ("SEASON_TYPE", Str(st))])
  }

  /** The three nested loops: season type, tracking measure type, then player or team. */
  function TrackingPoints(season: string): (pts: seq<Point>)
    ensures forall i :: 0 <= i < |pts| ==> DistinctNames(pts[i].tags)
  {
    var axes := Pairs(Pairs(Config.SeasonTypes, Config.PtMeasureTypes), TrackingParties);
    seq(|axes|, n requires 0 <= n < |axes| => TrackingPoint(season, axes[n].0.0, axes[n].0.1, axes[n].1))
  }

  /** The tracking sweep visits 2 x 12 x 2 = 48 points, in nesting order. */
  lemma TrackingPointAt(season: string, i: nat, j: nat, k: nat)
    requires i < |Config.SeasonTypes| && j < |Config.PtMeasureTypes| && k < |TrackingParties|
    ensures |TrackingPoints(season)| == |Config.SeasonTypes| * |Config.PtMeasureTypes| * |TrackingParties| == 48
    ensures (i * 12 + j) * 2 + k < 48
    ensures TrackingPoints(season)[(i * 12 + j) * 2 + k]
         == TrackingPoint(season, Config.SeasonTypes[i], Config.PtMeasureTypes[j], TrackingParties[k])
  {
    Config.CatalogShape();
    var st, pm := Config.SeasonTypes, Config.PtMeasureTypes;
    PairsAt(st, pm, i, j);
    PairsAt(Pairs(st, pm), TrackingParties, i * 12 + j, k);
  }

  /** `fetch_tracking(season)`. */
  method FetchTracking(api: Api, season: string) returns (r: Option<Frame>)
    modifies api
    ensures var pts := TrackingPoints(season);
            var s := RunCalls(api.world, old(api.calls), Requests(pts));
            && r == Finish(Collect(s.outcomes, pts, FirstTable))
            && api.calls == s.end && api.waits == old(api.waits) + s.waits
            && api.paces == old(api.paces) + |pts| && api.pauses == old(api.pauses)
  {
    var fs := CollectTables(api, TrackingPoints(season), FirstTable);
    r := Finish(fs);
  }

  // ------------------------------------------------------ defense tracking

  function DefenseRequest(season: string, st: string, category: string): Request
  {
    Request("LeagueDashPtDefend",
            map["season" := Str(season), "season_type_all_star" := Str(st),
                "defense_category" := Str(category), "per_mode_simple" := Str("Totals"),
                "league_id" := Str("00")])
  }

  function DefensePoint(season: string, st: string, category: string): (p: Point)
    ensures DistinctNames(p.tags)
  {
    Point(DefenseRequest(season, st, category),
          [("DEFENSE_CATEGORY", Str(category)), ("SEASON_TYPE", Str(st))])
  }

  /** The two nested loops: season type, then defense category. */
  function DefensePoints(season: string): (pts: seq<Point>)
    ensures forall i :: 0 <= i < |pts| ==> DistinctNames(pts[i].tags)
  {
    var axes := Pairs(Config.SeasonTypes, Config.DefenseCategories);
    seq(|axes|, n requires 0 <= n < |axes| => DefensePoint(season, axes[n].0, axes[n].1))
  }

  /** The defense sweep visits 2 x 6 = 12 points, in nesting order. */
  lemma DefensePointAt(season: string, i: nat, j: nat)
    requires i < |Config.SeasonTypes| && j < |Config.DefenseCategories|
    ensures |DefensePoints(season)| == |Config.SeasonTypes| * |Config.DefenseCategories| == 12
    ensures i * 6 + j < 12
    ensures DefensePoints(season)[i * 6 + j] == DefensePoint(season, Config.SeasonTypes[i], Config.DefenseCategories[j])
  {
    Config.CatalogShape();
    PairsAt(Config.SeasonTypes, Config.DefenseCategories, i, j);
  }

  /** `fetch_defense_tracking(season)`. */
  method FetchDefenseTracking(api: Api, season: string) returns (r: Option<Frame>)
    modifies api
    ensures var pts := DefensePoints(season);
            var s := RunCalls(api.world, old(api.calls), Requests(pts));
            && r == Finish(Collect(s.outcomes, pts, FirstTable))
            && api.calls == s.end && api.waits == old(api.waits) + s.waits
            && api.paces == old(api.paces) + |pts| && api.pauses == old(api.pauses)
  {
    var fs := CollectTables(api, DefensePoints(season), FirstTable);
    r := Finish(fs);
  }

  // ----------------------------------------------------- estimated metrics

  function EstimatedRequest(season: string, st: string): Request
  {
    Request("PlayerEstimatedMetrics",
            map["season" := Str(season), "season_type" := Str(st), "league_id" := Str("00")])
  }

  /** One point per season type, tagged with it. */
  function EstimatedPoints(season: string): (pts: seq<Point>)
    ensures |pts| == |Config.SeasonTypes|
    ensures forall i :: 0 <= i < |pts| ==>
              pts[i] == Point(EstimatedRequest(season, Config.SeasonTypes[i]), SeasonTag(Config.SeasonTypes[i]))
              && DistinctNames(pts[i].tags)
  {
    seq(|Config.SeasonTypes|, i requires 0 <= i < |Config.SeasonTypes| =>
      Point(EstimatedRequest(season, Config.SeasonTypes[i]), SeasonTag(Config.SeasonTypes[i])))
  }

  /** `fetch_estimated_metrics(season)`. */
  method FetchEstimatedMetrics(api: Api, season: string) returns (r: Option<Frame>)
    modifies api
    ensures var pts := EstimatedPoints(season);
            var s := RunCalls(api.world, old(api.calls), Requests(pts));
            && r == Finish(Collect(s.outcomes, pts, FirstTable))
            && api.calls == s.end && api.waits == old(api.waits) + s.waits
    ensures api.paces == old(api.paces) + |Config.SeasonTypes| && api.pauses == old(api.pauses)
  {
    var fs := CollectTables(api, EstimatedPoints(season), FirstTable);
    r := Finish(fs);
  }

  // ---------------------------------------------------------------- hustle

  function HustleRequest(endpoint: string, season: string, st: string): Request
  {
    Request(endpoint, map["season" := Str(season), "season_type_all_star" := Str(st), "per_mode_time" := Str("Totals")])
  }

  const HustlePlayers: string := "LeagueHustleStatsPlayer"
  const HustleTeams: string := "LeagueHustleStatsTeam"

  /** Per season type, the player call and then the team call, each tagged with the season type. */
  function HustlePoints(season: string): (pts: seq<Point>)
    ensures |pts| == 2 * |Config.SeasonTypes|
    ensures forall n :: 0 <= n < |pts| ==>
              pts[n] == Point(HustleRequest(if n % 2 == 0 then HustlePlayers else HustleTeams,
                                            season, Config.SeasonTypes[n / 2]),
                              SeasonTag(Config.SeasonTypes[n / 2]))
  {
    var st := Config.SeasonTypes;
    seq(2 * |st|, n requires 0 <= n < 2 * |st| =>
      Point(HustleRequest(if n % 2 == 0 then HustlePlayers else HustleTeams, season, st[n / 2]),
            SeasonTag(st[n / 2])))
  }

  /** A player call's accepted first table; a team call contributes nothing here. */
  function PlayerTable(o: Outcome, p: Point): Option<Frame>
  {
    if p.req.endpoint == HustlePlayers then FirstTable(o, p) else None
  }

  /** A team call's accepted first table; a player call contributes nothing here. */
  function TeamTable(o: Outcome, p: Point): Option<Frame>
  {
    if p.req.endpoint == HustleTeams then FirstTable(o, p) else None
  }

  /** One hustle call: its table goes to the player or the team list by endpoint, then one `pace()`. */
  method HustlePoint(api: Api, p: Point) returns (pk: seq<Frame>, tk: seq<Frame>)
    modifies api`calls, api`waits, api`paces
    ensures var c := Retry.Retry(api.world, old(api.calls), p.req, Config.ApiRetries, Config.ApiBaseDelay);
            && pk == Kept(PlayerTable(c.outcome, p)) && tk == Kept(TeamTable(c.outcome, p))
            && api.calls == old(api.calls) + c.attempts && api.waits == old(api.waits) + c.waits
    ensures api.paces == old(api.paces) + 1
  {
    var o := api.CallWithRetry(p.req, Config.ApiRetries, Config.ApiBaseDelay);
    pk := Kept(PlayerTable(o, p));
    tk := Kept(TeamTable(o, p));
    api.Pace();
  }

  /**
   * `fetch_hustle(season)`: the player and team calls of every season type
   * in order, each list finished on its own.
   */
  method FetchHustle(api: Api, season: string) returns (players: Option<Frame>, teams: Option<Frame>)
    modifies api
    ensures var pts := HustlePoints(season);
            var s := RunCalls(api.world, old(api.calls), Requests(pts));
            && players == Finish(Collect(s.outcomes, pts, PlayerTable))
            && teams == Finish(Collect(s.outcomes, pts, TeamTable))
            && api.calls == s.end && api.waits == old(api.waits) + s.waits
    ensures api.paces == old(api.paces) + 2 * |Config.SeasonTypes| && api.pauses == old(api.pauses)
  {
    ghost var world, start, waits0 := api.world, api.calls, api.waits;
    var pts := HustlePoints(season);
    ghost var reqs := Requests(pts);
    var pfs, tfs := [], [];
    for i := 0 to |pts|
      invariant api.calls == RunCalls(world, start, reqs[..i]).end
      invariant api.waits == waits0 + RunCalls(world, start, reqs[..i]).waits
      invariant pfs == Collect(RunCalls(world, start, reqs[..i]).outcomes, pts[..i], PlayerTable)
      invariant tfs == Collect(RunCalls(world, start, reqs[..i]).outcomes, pts[..i], TeamTable)
      invariant api.paces == old(api.paces) + i && api.pauses == old(api.pauses)
    {
      ghost var s := RunCalls(world, start, reqs[..i]);
      SweepStep(world, start, pts, PlayerTable, i);
      SweepStep(world, start, pts, TeamTable, i);
      AppendAssoc(waits0, s.waits, Retry.Retry(world, s.end, pts[i].req, Config.ApiRetries, Config.ApiBaseDelay).waits);
      var pk, tk := HustlePoint(api, pts[i]);
      pfs, tfs := pfs + pk, tfs + tk;
    }
    TakeAll(pts);
    TakeAll(reqs);
    players := Finish(pfs);
    teams := Finish(tfs);
  }

  /** Collecting depends only on what each point contributes. */
  lemma {:induction false} CollectCongruent(outs: seq<Outcome>, outs': seq<Outcome>, pts: seq<Point>,
                                            accept: (Outcome, Point) -> Option<Frame>)
    requires |outs| == |outs'| == |pts|
    requires forall i :: 0 <= i < |pts| ==> accept(outs[i], pts[i]) == accept(outs'[i], pts[i])
    ensures Collect(outs, pts, accept) == Collect(outs', pts, accept)
    decreases |pts|
  {
    if pts != [] {
      var n := |pts| - 1;
      CollectCongruent(outs[..n], outs'[..n], pts[..n], accept);
    }
  }

  /**
   * The player result is determined by the player calls alone, whatever the
   * team calls returned, and is `None` exactly when no player call was
   * accepted.
   */
  lemma HustlePlayersOnly(season: string, outs: seq<Outcome>, outs': seq<Outcome>)
    requires |outs| == |outs'| == |HustlePoints(season)|
    ensures var pts := HustlePoints(season);
            (forall n :: 0 <= n < |pts| && n % 2 == 0 ==> outs[n] == outs'[n])
              ==> Finish(Collect(outs, pts, PlayerTable)) == Finish(Collect(outs', pts, PlayerTable))
    ensures var pts := HustlePoints(season);
            (Finish(Collect(outs, pts, PlayerTable)).None? <==>
               forall n :: 0 <= n < |pts| && n % 2 == 0 ==> FirstTable(outs[n], pts[n]).None?)
  {
    var pts := HustlePoints(season);
    if forall n :: 0 <= n < |pts| && n % 2 == 0 ==> outs[n] == outs'[n] {
      CollectCongruent(outs, outs', pts, PlayerTable);
    }
    FinishCollected(outs, pts, PlayerTable);
  }

  /**
   * The team result is determined by the team calls alone, whatever the
   * player calls returned, and is `None` exactly when no team call was
   * accepted.
   */
  lemma HustleTeamsOnly(season: string, outs: seq<Outcome>, outs': seq<Outcome>)
    requires |outs| == |outs'| == |HustlePoints(season)|
    ensures var pts := HustlePoints(season);
            (forall n :: 0 <= n < |pts| && n % 2 == 1 ==> outs[n] == outs'[n])
              ==> Finish(Collect(outs, pts, TeamTable)) == Finish(Collect(outs', pts, TeamTable))
    ensures var pts := HustlePoints(season);
            (Finish(Collect(outs, pts, TeamTable)).None? <==>
               forall n :: 0 <= n < |pts| && n % 2 == 1 ==> FirstTable(outs[n], pts[n]).None?)
  {
    var pts := HustlePoints(season);
    if forall n :: 0 <= n < |pts| && n % 2 == 1 ==> outs[n] == outs'[n] {
      CollectCongruent(outs, outs', pts, TeamTable);
    }
    FinishCollected(outs, pts, TeamTable);
  }

  // ---------------------------------------------------------------- on/off

  function OnOffRequest(season: string, teamId: int, st: string): Request
  {
    Request("TeamPlayerOnOffSummary",
            map["team_id" := Num(teamId), "season" := Str(season), "season_type_all_star" := Str(st),
                "measure_type_detailed_defense" := Str("Base"), "per_mode_detailed" := Str("Totals"),
                "last_n_games" := Num(0), "month" := Num(0), "opponent_team_id" := Num(0),
                "pace_adjust" := Str("N"), "period" := Num(0), "plus_minus" := Str("N"),
                "rank" := Str("N")])
  }

  /** One team's points, one per season type, tagged with the team's name and the season type. */
  function TeamPoints(season: string, team: (int, string)): (pts: seq<Point>)
    ensures |pts| == |Config.SeasonTypes|
    ensures forall i :: 0 <= i < |pts| ==>
              pts[i].tags == [("team", Str(team.1)), ("SEASON_TYPE", Str(Config.SeasonTypes[i]))]
  {
    seq(|Config.SeasonTypes|, i requires 0 <= i < |Config.SeasonTypes| =>
      Point(OnOffRequest(season, team.0, Config.SeasonTypes[i]),
            [("team", Str(team.1)), ("SEASON_TYPE", Str(Config.SeasonTypes[i]))]))
  }

  /**
   * The on/off acceptance: a reply with at least three tables contributes
   * its players-on-court table tagged `COURT_STATUS = "On"` followed by its
   * players-off-court table tagged `"Off"`, then the point's tags.
   */
  function OnOffTable(o: Outcome, p: Point): Option<Frame>
  {
    if o.Returned? && |o.tables| >= 3 then
      var on := SetColumn(o.tables[1], "COURT_STATUS", Str("On"));
      var off := SetColumn(o.tables[2], "COURT_STATUS", Str("Off"));
      Some(Tag(Concat([on, off]), p.tags))
    else None
  }

  /**
   * A reply contributes exactly when it has at least three tables; then
   * its rows are the on-court rows, marked "On", followed by the off-court
   * rows, marked "Off", and every row carries the point's tags.
   */
  lemma OnOffTableSpec(o: Outcome, p: Point)
    requires DistinctNames(p.tags) && forall j :: 0 <= j < |p.tags| ==> p.tags[j].0 != "COURT_STATUS"
    ensures OnOffTable(o, p).Some? <==> o.Returned? && |o.tables| >= 3
    ensures OnOffTable(o, p).Some? ==>
              var f := OnOffTable(o, p).value;
              var n := Len(o.tables[1]);
              && Len(f) == n + Len(o.tables[2])
              && (forall i :: 0 <= i < n ==> Get(f.rows[i], "COURT_STATUS") == Str("On"))
              && (forall i :: n <= i < Len(f) ==> Get(f.rows[i], "COURT_STATUS") == Str("Off"))
              && Tagged(f, p.tags)
  {
    if o.Returned? && |o.tables| >= 3 {
      OnOffRows(SetColumn(o.tables[1], "COURT_STATUS", Str("On")), SetColumn(o.tables[2], "COURT_STATUS", Str("Off")), p.tags);
    }
  }

  /** Rows marked "On", then rows marked "Off", every row with the tags. */
  lemma {:induction false} OnOffRows(on: Frame, off: Frame, tags: seq<(string, Cell)>)
    requires Constant(on, "COURT_STATUS", Str("On")) && Constant(off, "COURT_STATUS", Str("Off"))
    requires DistinctNames(tags) && forall j :: 0 <= j < |tags| ==> tags[j].0 != "COURT_STATUS"
    ensures var f := Tag(Concat([on, off]), tags);
            && Len(f) == Len(on) + Len(off)
            && (forall i :: 0 <= i < Len(f) ==> Get(f.rows[i], "COURT_STATUS") == if i < Len(on) then Str("On") else Str("Off"))
            && Tagged(f, tags)
  {
    var c := Concat([on, off]);
    ConcatPair(on, off);
    TagSetsAll(c, tags);
    var tagged := Tag(c, tags);
    forall i | 0 <= i < Len(tagged) ensures Get(tagged.rows[i], "COURT_STATUS") == (if i < Len(on) then Str("On") else Str("Off")) {
      TagKeeps(c, tags, i, "COURT_STATUS");
      AppendAt(FrameRows(on), FrameRows(off), i);
    }
  }

  /** The on/off sweep's running state: the call counter, the waits slept and the tables collected. */
  datatype OnOffState = OnOffState(end: nat, waits: seq<nat>, frames: seq<Frame>)

  /** The two loops of `fetch_on_off` over the teams `teams`, as `(id, name)` pairs, in order. */
  function OnOffSweep(world: World, start: nat, season: string, teams: seq<(int, string)>): (s: OnOffState)
    ensures start <= s.end
    decreases |teams|
  {
    if teams == [] then OnOffState(start, [], [])
    else
      var n := |teams| - 1;
      var p := OnOffSweep(world, start, season, teams[..n]);
      var pts := TeamPoints(season, teams[n]);
      var run := RunCalls(world, p.end, Requests(pts));
      OnOffState(run.end, p.waits + run.waits, p.frames + Collect(run.outcomes, pts, OnOffTable))
  }

  /** One team further into the on/off sweep. */
  lemma OnOffStep(world: World, start: nat, season: string, teams: seq<(int, string)>, n: nat)
    requires n < |teams|
    ensures var p := OnOffSweep(world, start, season, teams[..n]);
            var pts := TeamPoints(season, teams[n]);
            var run := RunCalls(world, p.end, Requests(pts));
            OnOffSweep(world, start, season, teams[..n + 1])
              == OnOffState(run.end, p.waits + run.waits, p.frames + Collect(run.outcomes, pts, OnOffTable))
  {
    TakeTake(teams, n);
  }

  /** The teams in ascending id order, each with the name `get_team_name` gives it. */
  function Roster(records: seq<Teams.TeamRecord>): (teams: seq<(int, string)>)
    ensures var ids := Teams.AllTeamIds(records);
            |teams| == |ids| && forall i :: 0 <= i < |ids| ==> teams[i] == (ids[i], Teams.TeamName(records, ids[i]))
  {
    var ids := Teams.AllTeamIds(records);
    seq(|ids|, i requires 0 <= i < |ids| => (ids[i], Teams.TeamName(records, ids[i])))
  }

  /** Every row is marked "On" or "Off". */
  predicate CourtMarked(f: Frame)
  {
    forall i :: 0 <= i < |f.rows| ==> Get(f.rows[i], "COURT_STATUS") == Str("On") || Get(f.rows[i], "COURT_STATUS") == Str("Off")
  }

  /** A table of one team's on/off reply for one season type. */
  predicate FromTeam(f: Frame, name: string)
  {
    && Constant(f, "team", Str(name))
    && (exists st :: st in Config.SeasonTypes && Constant(f, "SEASON_TYPE", Str(st)))
    && CourtMarked(f)
  }

  /** Every table in `fs` comes from the team named `name`. */
  predicate AllFromTeam(fs: seq<Frame>, name: string)
  {
    forall k :: 0 <= k < |fs| ==> FromTeam(fs[k], name)
  }

  /** Every table one team's calls contribute carries that team's name, a season type and the court marks. */
  lemma TeamFrames(outs: seq<Outcome>, season: string, team: (int, string))
    requires |outs| == |Config.SeasonTypes|
    ensures AllFromTeam(Collect(outs, TeamPoints(season, team), OnOffTable), team.1)
  {
    var pts := TeamPoints(season, team);
    var fs := Collect(outs, pts, OnOffTable);
    var src := CollectSources(outs, pts, OnOffTable);
    forall k | 0 <= k < |fs| ensures FromTeam(fs[k], team.1) {
      var j := src[k];
      OnOffFromTeam(outs[j], pts[j], team.1, Config.SeasonTypes[j]);
    }
  }

  /** A table one on/off point contributes carries that point's team name and season type, and the court marks. */
  lemma OnOffFromTeam(o: Outcome, p: Point, name: string, st: string)
    requires p.tags == [("team", Str(name)), ("SEASON_TYPE", Str(st))] && st in Config.SeasonTypes
    requires OnOffTable(o, p).Some?
    ensures FromTeam(OnOffTable(o, p).value, name)
  {
    OnOffTableSpec(o, p);
    var f := OnOffTable(o, p).value;
    assert Constant(f, p.tags[0].0, p.tags[0].1);
    assert Constant(f, p.tags[1].0, p.tags[1].1);
  }

  /** Every table came from one of the teams. */
  predicate FromTeams(frames: seq<Frame>, teams: seq<(int, string)>)
  {
    forall k :: 0 <= k < |frames| ==> exists t :: t in teams && FromTeam(frames[k], t.1)
  }

  /** Appending one more team's tables keeps every table attributed to a team. */
  lemma FromTeamsSnoc(frames: seq<Frame>, teams: seq<(int, string)>, fs: seq<Frame>, team: (int, string), more: seq<(int, string)>)
    requires FromTeams(frames, teams)
    requires AllFromTeam(fs, team.1)
    requires more == teams + [team]
    ensures FromTeams(frames + fs, more)
  {
    var all := frames + fs;
    forall k | 0 <= k < |all| ensures exists t :: t in more && FromTeam(all[k], t.1) {
      if k < |frames| {
        var t :| t in teams && FromTeam(frames[k], t.1);
        assert all[k] == frames[k] && t in more;
      } else {
        assert all[k] == fs[k - |frames|] && team in more;
      }
    }
  }

  /**
   * Every table the on/off sweep collects came from one of the teams: it
   * carries that team's name and one season type in every row, and every
   * row is marked "On" or "Off".
   */
  lemma {:induction false} OnOffSweepTagged(world: World, start: nat, season: string, teams: seq<(int, string)>)
    ensures FromTeams(OnOffSweep(world, start, season, teams).frames, teams)
    decreases |teams|
  {
    if teams != [] {
      var n := |teams| - 1;
      assert teams[..n] + [teams[n]] == teams;
      OnOffSweepTagged(world, start, season, teams[..n]);
      var p := OnOffSweep(world, start, season, teams[..n]);
      var run := RunCalls(world, p.end, Requests(TeamPoints(season, teams[n])));
      var fs := Collect(run.outcomes, TeamPoints(season, teams[n]), OnOffTable);
      assert OnOffSweep(world, start, season, teams).frames == p.frames + fs;
      TeamFrames(run.outcomes, season, teams[n]);
      FromTeamsSnoc(p.frames, teams[..n], fs, teams[n], teams);
    }
  }

  /** One team of `fetch_on_off`: one call per season type, then the pause between teams. */
  method OnOffTeam(api: Api, season: string, team: (int, string)) returns (fs: seq<Frame>)
    modifies api
    ensures var pts := TeamPoints(season, team);
            var s := RunCalls(api.world, old(api.calls), Requests(pts));
            && fs == Collect(s.outcomes, pts, OnOffTable)
            && api.calls == s.end && api.waits == old(api.waits) + s.waits
    ensures api.paces == old(api.paces) + 2 && api.pauses == old(api.pauses) + 1
  {
    fs := CollectTables(api, TeamPoints(season, team), OnOffTable);
    api.Pause();
  }

  /** The team loop of `fetch_on_off` over `teams`, in order. */
  method SweepTeams(api: Api, season: string, teams: seq<(int, string)>) returns (frames: seq<Frame>)
    modifies api
    ensures var s := OnOffSweep(api.world, old(api.calls), season, teams);
            && frames == s.frames && api.calls == s.end && api.waits == old(api.waits) + s.waits
    ensures api.paces == old(api.paces) + 2 * |teams| && api.pauses == old(api.pauses) + |teams|
  {
    ghost var world, start, waits0 := api.world, api.calls, api.waits;
    frames := [];
    for n := 0 to |teams|
      invariant var s := OnOffSweep(world, start, season, teams[..n]);
                && frames == s.frames && api.calls == s.end && api.waits == waits0 + s.waits
      invariant api.paces == old(api.paces) + 2 * n && api.pauses == old(api.pauses) + n
      invariant api.world == world
    {
      ghost var p := OnOffSweep(world, start, season, teams[..n]);
      OnOffStep(world, start, season, teams, n);
      AppendAssoc(waits0, p.waits, RunCalls(world, p.end, Requests(TeamPoints(season, teams[n]))).waits);
      var fs := OnOffTeam(api, season, teams[n]);
      frames := frames + fs;
    }
    TakeAll(teams);
  }

  /**
   * `fetch_on_off(season)`: for every team in ascending id order, one call
   * per season type (each followed by `pace()`), then one longer pause;
   * `None` when no table with data was collected.
   */
  method FetchOnOff(api: Api, records: seq<Teams.TeamRecord>, season: string) returns (r: Option<Frame>)
    modifies api
    ensures var s := OnOffSweep(api.world, old(api.calls), season, Roster(records));
            && r == Finish(s.frames)
            && api.calls == s.end && api.waits == old(api.waits) + s.waits
    ensures api.paces == old(api.paces) + 2 * |Roster(records)|
    ensures api.pauses == old(api.pauses) + |Roster(records)|
  {
    var frames := SweepTeams(api, season, Roster(records));
    r := Finish(frames);
  }
}

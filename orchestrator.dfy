/**
 * The pipeline orchestrator (pipeline/main.py): running one section and
 * reading a row count off whatever it returned, the end-of-run summary,
 * and the sequencing of the eight sections under the run-mode flags.
 *
 * The fetchers are modelled in their own modules.  Here, what each
 * section's fetcher did (raised, or returned some value) is a parameter of
 * the run; the health check is the real retry call on the shared `Api`.
 */
module Orchestrator {
  import opened Frames
  import Config
  import Retry
  import Lineups

  /** A value a section function may hand back, as far as row counting tells values apart. */
  datatype Value =
    | PyNone
    | Table(frame: Frame)        // a DataFrame
    | Dict(values: seq<Value>)   // a dict, by its values in insertion order
    | Tuple(items: seq<Value>)
    | Sized(size: nat)           // any other value that has a length
    | Unsized                    // any other value that has none

  /** What calling a section's function did: it raised, or it returned a value. */
  datatype SectionOutcome = Threw | Gave(value: Value)

  /** The total length of the DataFrames among `vs`; every other value counts nothing. */
  function TableRows(vs: seq<Value>): nat
    decreases |vs|
  {
    if vs == [] then 0
    else
      var v := vs[|vs| - 1];
      TableRows(vs[..|vs| - 1]) + (if v.Table? then Len(v.frame) else 0)
  }

  /** Counting the DataFrames of two runs of values one after the other adds up. */
  lemma {:induction false} TableRowsAppend(vs: seq<Value>, ws: seq<Value>)
    ensures TableRows(vs + ws) == TableRows(vs) + TableRows(ws)
    decreases |ws|
  {
    if ws != [] {
      var n := |ws| - 1;
      var all := vs + ws;
      assert all[..|all| - 1] == vs + ws[..n] && all[|all| - 1] == ws[n];
      TableRowsAppend(vs, ws[..n]);
    } else {
      assert vs + ws == vs;
    }
  }

  /** The count is zero exactly when every DataFrame among the values has no rows. */
  lemma {:induction false} TableRowsZero(vs: seq<Value>)
    ensures TableRows(vs) == 0 <==> forall i :: 0 <= i < |vs| && vs[i].Table? ==> Len(vs[i].frame) == 0
    decreases |vs|
  {
    if vs != [] {
      var n := |vs| - 1;
      TableRowsZero(vs[..n]);
      assert forall i :: 0 <= i < n ==> vs[..n][i] == vs[i];
    }
  }

  /** The rows `_run_section` counts in a section's result. */
  function RowCount(v: Value): nat
  {
    match v
    case PyNone => 0
    case Dict(vs) => TableRows(vs)
    case Tuple(vs) => TableRows(vs)
    case Table(f) => Len(f)
    case Sized(n) => n
    case Unsized => 0
  }

  /**
   * `_run_section`: a section that raised, or whose result counts no rows,
   * fails with 0 rows; otherwise it succeeds with its row count.
   */
  function RunSection(o: SectionOutcome): (r: (bool, nat))
    ensures r.0 <==> o.Gave? && RowCount(o.value) > 0
    ensures r.0 <==> r.1 > 0
    ensures r.0 ==> r.1 == RowCount(o.value)
    ensures o.Threw? ==> r == (false, 0)
  {
    match o
    case Threw => (false, 0)
    case Gave(v) =>
      var rows := RowCount(v);
      if rows > 0 then (true, rows) else (false, 0)
  }

  /** A fetcher's optional table: `None`, or a DataFrame. */
  function OptionValue(r: Option<Frame>): Value
  {
    if r.Some? then Table(r.value) else PyNone
  }

  /** A single-table section succeeds exactly when it returned a table with rows, and counts that table's rows. */
  lemma SingleTableSection(r: Option<Frame>)
    ensures RunSection(Gave(OptionValue(r))).0 <==> r.Some? && Len(r.value) > 0
    ensures RunSection(Gave(OptionValue(r))).0 ==> RunSection(Gave(OptionValue(r))).1 == Len(r.value)
  {
  }

  /**
   * The hustle section's pair: its rows are the rows of whichever of the
   * player and team tables is present, and it succeeds when either has rows.
   */
  lemma HustleSection(players: Option<Frame>, teams: Option<Frame>)
    ensures var rows := (if players.Some? then Len(players.value) else 0) + (if teams.Some? then Len(teams.value) else 0);
            RunSection(Gave(Tuple([OptionValue(players), OptionValue(teams)]))) == (rows > 0, rows)
  {
    var vs := [OptionValue(players), OptionValue(teams)];
    assert vs[..1] == [OptionValue(players)] && vs[..1][..0] == [];
    assert TableRows(vs[..1]) == (if players.Some? then Len(players.value) else 0);
  }

  /** The DataFrames of the lineup results, in the order `gqs` inserted them into the dict. */
  function DictValues(m: map<nat, Frame>, gqs: seq<nat>): seq<Value>
    decreases |gqs|
  {
    if gqs == [] then []
    else
      var g := gqs[|gqs| - 1];
      DictValues(m, gqs[..|gqs| - 1]) + (if g in m then [Table(m[g])] else [])
  }

  /** The lineup section's result: the dict from group size to its table. */
  function LineupsValue(m: map<nat, Frame>): Value
  {
    Dict(DictValues(m, Config.GroupQuantities))
  }

  /** The rows accumulated for the group sizes `gqs`, over all their accumulated tables. */
  function AccRows(acc: map<nat, seq<Frame>>, gqs: seq<nat>): nat
    decreases |gqs|
  {
    if gqs == [] then 0
    else
      var g := gqs[|gqs| - 1];
      AccRows(acc, gqs[..|gqs| - 1]) + (if g in acc then SumLen(acc[g]) else 0)
  }

  /** The lineup results' tables for any of the group sizes count the rows accumulated for those sizes. */
  lemma {:induction false} DictValuesRows(acc: map<nat, seq<Frame>>, gs: seq<nat>)
    requires forall i :: 0 <= i < |gs| ==> gs[i] in Config.GroupQuantities
    ensures TableRows(DictValues(Lineups.LineupResults(acc, Config.GroupQuantities), gs)) == AccRows(acc, gs)
    decreases |gs|
  {
    if gs != [] {
      var n := |gs| - 1;
      var g := gs[n];
      var m := Lineups.LineupResults(acc, Config.GroupQuantities);
      assert forall i :: 0 <= i < n ==> gs[..n][i] == gs[i];
      DictValuesRows(acc, gs[..n]);
      ResultRows(acc, g);
      var last := if g in m then [Table(m[g])] else [];
      TableRowsAppend(DictValues(m, gs[..n]), last);
      assert last == [] || last[..0] == [];
    }
  }

  /** A group size's result, when there is one, holds all its accumulated rows; when there is none, nothing was accumulated. */
  lemma ResultRows(acc: map<nat, seq<Frame>>, g: nat)
    requires g in Config.GroupQuantities
    ensures var m := Lineups.LineupResults(acc, Config.GroupQuantities);
            (g in m ==> g in acc && Len(m[g]) == SumLen(acc[g])) && (g !in m && g in acc ==> SumLen(acc[g]) == 0)
  {
    Lineups.LineupResultsSpec(acc, Config.GroupQuantities);
    if g in acc {
      Lineups.CombineSpec(acc[g]);
    }
  }

  /**
   * The lineups section counts every row the lineup sweep accumulated, over
   * all group sizes: the dict holds one combined table per non-empty
   * accumulator, and each holds the rows of all its accumulated tables.
   */
  lemma LineupsRows(acc: map<nat, seq<Frame>>)
    ensures RowCount(LineupsValue(Lineups.LineupResults(acc, Config.GroupQuantities))) == AccRows(acc, Config.GroupQuantities)
  {
    DictValuesRows(acc, Config.GroupQuantities);
  }

  /** The `results` dict of a run, as (section name, (ok, rows)) entries in insertion order. */
  type Results = seq<(string, (bool, nat))>

  /** The sum of the row counts. */
  function TotalRows(rs: Results): nat
    decreases |rs|
  {
    if rs == [] then 0 else TotalRows(rs[..|rs| - 1]) + rs[|rs| - 1].1.1
  }

  /** The names whose flag is `ok`, in insertion order. */
  function Names(rs: Results, ok: bool): seq<string>
    decreases |rs|
  {
    if rs == [] then []
    else
      var e := rs[|rs| - 1];
      Names(rs[..|rs| - 1], ok) + (if e.1.0 == ok then [e.0] else [])
  }

  /**
   * `names` are the names of the entries of `rs` with flag `ok`, picked out
   * at the strictly increasing positions `idx`, and every such entry is picked.
   */
  predicate PicksOut(names: seq<string>, idx: seq<nat>, rs: Results, ok: bool)
  {
    && |idx| == |names|
    && (forall k :: 0 <= k < |idx| ==> idx[k] < |rs| && rs[idx[k]].1.0 == ok && names[k] == rs[idx[k]].0)
    && (forall k, l :: 0 <= k < l < |idx| ==> idx[k] < idx[l])
    && (forall i :: 0 <= i < |rs| && rs[i].1.0 == ok ==> i in idx)
  }

  /** The names with flag `ok` are the entries carrying that flag, in order, and all of them. */
  lemma {:induction false} NamesIndexed(rs: Results, ok: bool) returns (idx: seq<nat>)
    ensures PicksOut(Names(rs, ok), idx, rs, ok)
    decreases |rs|
  {
    if rs == [] {
      idx := [];
    } else {
      var n := |rs| - 1;
      var init := NamesIndexed(rs[..n], ok);
      DropLast(rs);
      NamesSnoc(rs[..n], rs[n], ok);
      idx := PicksOutSnoc(Names(rs[..n], ok), init, rs[..n], rs[n], ok);
    }
  }

  /** One more entry adds its name when its flag is `ok`. */
  lemma NamesSnoc(rs: Results, e: (string, (bool, nat)), ok: bool)
    ensures Names(rs + [e], ok) == Names(rs, ok) + (if e.1.0 == ok then [e.0] else [])
  {
    assert (rs + [e])[..|rs|] == rs;
  }

  /** Picking out stays exact when one more entry is added, its position joining when its flag is `ok`. */
  lemma PicksOutSnoc(names: seq<string>, idx: seq<nat>, rs: Results, e: (string, (bool, nat)), ok: bool)
    returns (idx': seq<nat>)
    requires PicksOut(names, idx, rs, ok)
    ensures PicksOut(names + (if e.1.0 == ok then [e.0] else []), idx', rs + [e], ok)
  {
    if e.1.0 == ok {
      PicksOutAdd(names, idx, rs, e, ok);
      AppendNothing(names);
      idx' := idx + [|rs|];
    } else {
      PicksOutKeep(names, idx, rs, e, ok);
      AppendNothing(names);
      idx' := idx;
    }
  }

  /** An entry with the other flag leaves the picking as it was. */
  lemma PicksOutKeep(names: seq<string>, idx: seq<nat>, rs: Results, e: (string, (bool, nat)), ok: bool)
    requires PicksOut(names, idx, rs, ok) && e.1.0 != ok
    ensures PicksOut(names, idx, rs + [e], ok)
  {
    var rs' := rs + [e];
    forall k | 0 <= k < |idx| ensures rs'[idx[k]] == rs[idx[k]] {
    }
    forall i | 0 <= i < |rs'| && rs'[i].1.0 == ok ensures i in idx {
      assert i < |rs| && rs'[i] == rs[i];
    }
  }

  /** An entry with flag `ok` is picked at the new last position. */
  lemma PicksOutAdd(names: seq<string>, idx: seq<nat>, rs: Results, e: (string, (bool, nat)), ok: bool)
    requires PicksOut(names, idx, rs, ok) && e.1.0 == ok
    ensures PicksOut(names + [e.0], idx + [|rs|], rs + [e], ok)
  {
    var n := |rs|;
    var rs', names', idx' := rs + [e], names + [e.0], idx + [n];
    forall k | 0 <= k < |idx'|
      ensures idx'[k] < |rs'| && rs'[idx'[k]].1.0 == ok && names'[k] == rs'[idx'[k]].0
    {
      if k < |idx| {
        assert idx'[k] == idx[k] && names'[k] == names[k] && rs'[idx[k]] == rs[idx[k]];
      }
    }
    forall k, l | 0 <= k < l < |idx'| ensures idx'[k] < idx'[l] {
      assert idx'[k] == idx[k];
    }
    forall i | 0 <= i < |rs'| && rs'[i].1.0 == ok ensures i in idx' {
      if i < n {
        assert rs'[i] == rs[i] && i in idx;
      }
    }
  }

  /** Succeeded and failed split the sections between them: each entry is named in exactly one of the two lists. */
  lemma {:induction false} NamesPartition(rs: Results)
    ensures |Names(rs, true)| + |Names(rs, false)| == |rs|
    ensures multiset(Names(rs, true)) + multiset(Names(rs, false)) == multiset(seq(|rs|, i requires 0 <= i < |rs| => rs[i].0))
    decreases |rs|
  {
    if rs != [] {
      var n := |rs| - 1;
      NamesPartition(rs[..n]);
      DropLast(rs);
      NamesSnoc(rs[..n], rs[n], true);
      NamesSnoc(rs[..n], rs[n], false);
      LabelsSnoc(rs);
    }
  }

  /** The section labels of all entries are those of all but the last, then the last one's. */
  lemma LabelsSnoc(rs: Results)
    requires rs != []
    ensures seq(|rs|, i requires 0 <= i < |rs| => rs[i].0)
         == seq(|rs| - 1, i requires 0 <= i < |rs| - 1 => rs[..|rs| - 1][i].0) + [rs[|rs| - 1].0]
  {
  }

  /**
   * When every entry succeeded exactly when it has rows (as `_run_section`
   * guarantees), the total is zero exactly when no section succeeded.
   */
  lemma {:induction false} TotalRowsZero(rs: Results)
    requires forall i :: 0 <= i < |rs| ==> (rs[i].1.0 <==> rs[i].1.1 > 0)
    ensures TotalRows(rs) == 0 <==> Names(rs, true) == []
    decreases |rs|
  {
    if rs != [] {
      var n := |rs| - 1;
      assert forall i :: 0 <= i < n ==> rs[..n][i] == rs[i];
      TotalRowsZero(rs[..n]);
    }
  }

  /** What `_print_summary` aggregates: total rows, files written, and the succeeded and failed sections. */
  datatype Summary = Summary(totalRows: nat, filesWritten: nat, succeeded: seq<string>, failed: seq<string>)

  /** `_print_summary(results, files_written, ...)`, without the logging. */
  function Summarize(rs: Results, files: seq<string>): (s: Summary)
    ensures |s.succeeded| + |s.failed| == |rs| && s.filesWritten == |files|
  {
    NamesPartition(rs);
    Summary(TotalRows(rs), |files|, Names(rs, true), Names(rs, false))
  }

  /** The eight sections, by their labels. */
  datatype Section =
    | CoreLineups | OnOffCourt | Clutch | PlayTypes | HustleStats | PlayerTracking | DefenseTracking | EstimatedMetrics

  /** The key a section's entry has in `results`. */
  function Name(s: Section): string
  {
    match s
    case CoreLineups => "Lineups"
    case OnOffCourt => "On/Off"
    case Clutch => "Clutch"
    case PlayTypes => "Play Types"
    case HustleStats => "Hustle"
    case PlayerTracking => "Tracking"
    case DefenseTracking => "Defense Tracking"
    case EstimatedMetrics => "Estimated Metrics"
  }

  /** The supplementary sections, in the order they run. */
  const SupplementarySections: seq<Section> :=
    [OnOffCourt, Clutch, PlayTypes, HustleStats, PlayerTracking, DefenseTracking, EstimatedMetrics]

  /** The lineup files, one per group size, in `GROUP_QUANTITIES` order. */
  function LineupFiles(dataDir: string, season: string): (fs: seq<string>)
    ensures |fs| == |Config.GroupQuantities|
    ensures forall i :: 0 <= i < |fs| ==> fs[i] == Lineups.LineupFile(dataDir, Config.GroupQuantities[i], season)
  {
    seq(|Config.GroupQuantities|, i requires 0 <= i < |Config.GroupQuantities| =>
      Lineups.LineupFile(dataDir, Config.GroupQuantities[i], season))
  }

  /** The lineup files are all different: each group size has a file of its own. */
  lemma LineupFilesDistinct(dataDir: string, season: string)
    ensures Config.Distinct(LineupFiles(dataDir, season))
  {
    var fs := LineupFiles(dataDir, season);
    Config.CatalogShape();
    forall i, j | 0 <= i < j < |fs| ensures fs[i] != fs[j] {
      Lineups.LineupFileDistinct(dataDir, Config.GroupQuantities[i], Config.GroupQuantities[j], season);
    }
  }

  /** The paths a section that succeeded adds to `files_written`. */
  function SectionFiles(s: Section, dataDir: string, season: string): (fs: seq<string>)
    ensures |fs| == (match s case CoreLineups => |Config.GroupQuantities| case HustleStats => 2 case _ => 1)
  {
    match s
    case CoreLineups => LineupFiles(dataDir, season)
    case OnOffCourt => [dataDir + "/on_off_" + season + ".csv"]
    case Clutch => [dataDir + "/clutch_" + season + ".csv"]
    case PlayTypes => [dataDir + "/play_types_" + season + ".csv"]
    case HustleStats => [dataDir + "/hustle_players_" + season + ".csv", dataDir + "/hustle_teams_" + season + ".csv"]
    case PlayerTracking => [dataDir + "/tracking_" + season + ".csv"]
    case DefenseTracking => [dataDir + "/defense_tracking_" + season + ".csv"]
    case EstimatedMetrics => [dataDir + "/estimated_metrics_" + season + ".csv"]
  }

  /** The command line, parsed. */
  datatype Flags = Flags(season: string, lineupsOnly: bool, supplementaryOnly: bool, dryRun: bool)

  /** The sections a run executes, in order. */
  function Plan(flags: Flags): seq<Section>
  {
    (if flags.supplementaryOnly then [] else [CoreLineups])
    + (if flags.lineupsOnly then [] else SupplementarySections)
  }

  /**
   * The lineups section runs exactly when `--supplementary-only` is off; every
   * supplementary section runs exactly when `--lineups-only` is off, after
   * it and in their fixed order; with both flags on nothing runs.  No
   * section runs twice, so no `results` key is written twice.
   */
  lemma PlanSpec(flags: Flags)
    ensures CoreLineups in Plan(flags) <==> !flags.supplementaryOnly
    ensures forall s :: s in SupplementarySections ==> (s in Plan(flags) <==> !flags.lineupsOnly)
    ensures !flags.supplementaryOnly ==> Plan(flags)[0] == CoreLineups
    ensures !flags.lineupsOnly ==> Plan(flags)[|Plan(flags)| - |SupplementarySections|..] == SupplementarySections
    ensures flags.lineupsOnly && flags.supplementaryOnly ==> Plan(flags) == []
    ensures forall i, j :: 0 <= i < j < |Plan(flags)| ==> Name(Plan(flags)[i]) != Name(Plan(flags)[j])
  {
    PlanShape(flags);
    PlanNames(flags);
  }

  /** The plan is the lineups section unless `--supplementary-only`, then the supplementary sections unless `--lineups-only`. */
  lemma PlanShape(flags: Flags)
    ensures Plan(flags) == (if flags.supplementaryOnly then [] else [CoreLineups])
                         + (if flags.lineupsOnly then [] else SupplementarySections)
    ensures CoreLineups in Plan(flags) <==> !flags.supplementaryOnly
    ensures forall s :: s in SupplementarySections ==> (s in Plan(flags) <==> !flags.lineupsOnly)
    ensures !flags.supplementaryOnly ==> Plan(flags)[0] == CoreLineups
    ensures !flags.lineupsOnly ==> Plan(flags)[|Plan(flags)| - |SupplementarySections|..] == SupplementarySections
  {
    SupplementaryDistinct();
  }

  /** No two sections of the plan share a `results` key. */
  lemma PlanNames(flags: Flags)
    ensures forall i, j :: 0 <= i < j < |Plan(flags)| ==> Name(Plan(flags)[i]) != Name(Plan(flags)[j])
  {
    var plan := Plan(flags);
    var core := if flags.supplementaryOnly then [] else [CoreLineups];
    var supp := if flags.lineupsOnly then [] else SupplementarySections;
    SupplementaryDistinct();
    forall i, j | 0 <= i < j < |plan| ensures Name(plan[i]) != Name(plan[j]) {
      if i < |core| {
        assert plan[i] == CoreLineups && plan[j] == supp[j - |core|];
      } else {
        assert plan[i] == supp[i - |core|] && plan[j] == supp[j - |core|];
      }
      NameInjective(plan[i], plan[j]);
    }
  }

  /** The supplementary sections are pairwise different and none is the lineups section. */
  lemma SupplementaryDistinct()
    ensures CoreLineups !in SupplementarySections
    ensures forall i, j :: 0 <= i < j < |SupplementarySections| ==> SupplementarySections[i] != SupplementarySections[j]
  {
  }

  /** Different sections have different `results` keys. */
  lemma NameInjective(s: Section, t: Section)
    requires s != t
    ensures Name(s) != Name(t)
  {
  }

  /** The `results` dict and the `files_written` list, as a run builds them. */
  datatype Book = Book(results: Results, files: seq<string>)

  /** One section's bookkeeping: its `results` entry, and its files when it succeeded. */
  function Record(b: Book, s: Section, o: SectionOutcome, dataDir: string, season: string): (b': Book)
    ensures b'.results == b.results + [(Name(s), RunSection(o))]
    ensures b'.files == b.files + (if RunSection(o).0 then SectionFiles(s, dataDir, season) else [])
  {
    var (ok, rows) := RunSection(o);
    Book(b.results + [(Name(s), (ok, rows))], if ok then b.files + SectionFiles(s, dataDir, season) else b.files)
  }

  /** The bookkeeping of the sections `plan`, run in order from nothing. */
  function Books(plan: seq<Section>, outcome: Section -> SectionOutcome, dataDir: string, season: string): Book
    decreases |plan|
  {
    if plan == [] then Book([], [])
    else
      var n := |plan| - 1;
      Record(Books(plan[..n], outcome, dataDir, season), plan[n], outcome(plan[n]), dataDir, season)
  }

  /** One more section's bookkeeping. */
  lemma BooksSnoc(plan: seq<Section>, s: Section, outcome: Section -> SectionOutcome, dataDir: string, season: string)
    ensures Books(plan + [s], outcome, dataDir, season)
         == Record(Books(plan, outcome, dataDir, season), s, outcome(s), dataDir, season)
  {
    assert (plan + [s])[..|plan|] == plan;
  }

  /**
   * Every executed section writes exactly one `results` entry, in order,
   * holding what `_run_section` made of its outcome; `files_written` holds
   * exactly the files of the sections that succeeded.
   */
  lemma {:induction false} BooksSpec(plan: seq<Section>, outcome: Section -> SectionOutcome, dataDir: string, season: string)
    ensures Booked(plan, outcome, dataDir, season, Books(plan, outcome, dataDir, season))
    decreases |plan|
  {
    if plan != [] {
      var n := |plan| - 1;
      BooksSpec(plan[..n], outcome, dataDir, season);
      DropLast(plan);
      BooksStep(plan[..n], plan[n], outcome, dataDir, season);
    }
  }

  /**
   * `b` is the bookkeeping of `plan`: one `results` entry per section, in
   * order, with the section's name and outcome; and exactly the files of the
   * sections that succeeded.
   */
  ghost predicate Booked(plan: seq<Section>, outcome: Section -> SectionOutcome, dataDir: string, season: string, b: Book)
  {
    && |b.results| == |plan|
    && (forall i :: 0 <= i < |plan| ==> b.results[i] == (Name(plan[i]), RunSection(outcome(plan[i]))))
    && (forall x :: x in b.files <==>
          exists i :: 0 <= i < |plan| && RunSection(outcome(plan[i])).0 && x in SectionFiles(plan[i], dataDir, season))
  }

  /** Recording one more section keeps the bookkeeping exact. */
  lemma BooksStep(plan: seq<Section>, s: Section, outcome: Section -> SectionOutcome, dataDir: string, season: string)
    requires Booked(plan, outcome, dataDir, season, Books(plan, outcome, dataDir, season))
    ensures Booked(plan + [s], outcome, dataDir, season, Books(plan + [s], outcome, dataDir, season))
  {
    var b := Books(plan, outcome, dataDir, season);
    BooksSnoc(plan, s, outcome, dataDir, season);
    var plan', b' := plan + [s], Books(plan + [s], outcome, dataDir, season);
    var n := |plan|;
    forall i | 0 <= i < |plan'| ensures b'.results[i] == (Name(plan'[i]), RunSection(outcome(plan'[i]))) {
      if i < n {
        assert plan'[i] == plan[i] && b'.results[i] == b.results[i];
      }
    }
    forall x | x in b'.files
      ensures exists i :: 0 <= i < |plan'| && RunSection(outcome(plan'[i])).0 && x in SectionFiles(plan'[i], dataDir, season)
    {
      if x in b.files {
        var i :| 0 <= i < n && RunSection(outcome(plan[i])).0 && x in SectionFiles(plan[i], dataDir, season);
        assert plan'[i] == plan[i];
      } else {
        assert plan'[n] == s;
      }
    }
    forall x | exists i :: 0 <= i < |plan'| && RunSection(outcome(plan'[i])).0 && x in SectionFiles(plan'[i], dataDir, season)
      ensures x in b'.files
    {
      var i :| 0 <= i < |plan'| && RunSection(outcome(plan'[i])).0 && x in SectionFiles(plan'[i], dataDir, season);
      if i < n {
        assert plan'[i] == plan[i];
      }
    }
  }

  /** The longer pauses a run takes: one after the lineups, one after each supplementary section but the last. */
  function Pauses(flags: Flags): nat
  {
    (if flags.supplementaryOnly then 0 else 1) + (if flags.lineupsOnly then 0 else |SupplementarySections| - 1)
  }

  /** How a run ends: exit code 1, a finished dry run, or a completed run with its bookkeeping and summary. */
  datatype RunResult = ExitCode1 | DryRunComplete | Completed(book: Book, summary: Summary)

  /** The lineups section: run it, record it, then pause before the supplementary data. */
  method RunLineups(api: Retry.Api, flags: Flags, dataDir: string, outcome: Section -> SectionOutcome) returns (book: Book)
    requires !flags.supplementaryOnly
    modifies api`pauses
    ensures book == Books([CoreLineups], outcome, dataDir, flags.season)
    ensures api.pauses == old(api.pauses) + 1
  {
    book := RunOne(flags, dataDir, outcome, CoreLineups, [], Book([], []));
    api.Pause();
  }

  /** One section of `run`: `_run_section`, then its `results` entry and, when it succeeded, its files. */
  method RunOne(flags: Flags, dataDir: string, outcome: Section -> SectionOutcome, s: Section,
                ghost done: seq<Section>, book0: Book) returns (book: Book)
    requires book0 == Books(done, outcome, dataDir, flags.season)
    ensures book == Books(done + [s], outcome, dataDir, flags.season)
  {
    BooksSnoc(done, s, outcome, dataDir, flags.season);
    book := Record(book0, s, outcome(s), dataDir, flags.season);
  }

  /** The seven supplementary sections, in order, each followed by a pause but the last. */
  method RunSupplementary(api: Retry.Api, flags: Flags, dataDir: string, outcome: Section -> SectionOutcome,
                          ghost done: seq<Section>, book0: Book) returns (book: Book)
    requires book0 == Books(done, outcome, dataDir, flags.season)
    modifies api`pauses
    ensures book == Books(done + SupplementarySections, outcome, dataDir, flags.season)
    ensures api.pauses == old(api.pauses) + |SupplementarySections| - 1
  {
    ghost var ran := done;
    book := RunOne(flags, dataDir, outcome, OnOffCourt, ran, book0);
    ran := ran + [OnOffCourt];
    api.Pause();
    book := RunOne(flags, dataDir, outcome, Clutch, ran, book);
    ran := ran + [Clutch];
    api.Pause();
    book := RunOne(flags, dataDir, outcome, PlayTypes, ran, book);
    ran := ran + [PlayTypes];
    api.Pause();
    book := RunOne(flags, dataDir, outcome, HustleStats, ran, book);
    ran := ran + [HustleStats];
    api.Pause();
    book := RunOne(flags, dataDir, outcome, PlayerTracking, ran, book);
    ran := ran + [PlayerTracking];
    api.Pause();
    book := RunOne(flags, dataDir, outcome, DefenseTracking, ran, book);
    ran := ran + [DefenseTracking];
    api.Pause();
    book := RunOne(flags, dataDir, outcome, EstimatedMetrics, ran, book);
    ran := ran + [EstimatedMetrics];
    SupplementaryInOrder(done);
  }

  /** Running the supplementary sections one by one runs `SupplementarySections`. */
  lemma SupplementaryInOrder(done: seq<Section>)
    ensures done + [OnOffCourt] + [Clutch] + [PlayTypes] + [HustleStats] + [PlayerTracking] + [DefenseTracking]
              + [EstimatedMetrics] == done + SupplementarySections
  {
  }

  /**
   * `run`: the health check first.  In a dry run a failed check exits with
   * code 1 and a passing one returns, before any section; outside a dry run
   * a failed check only warns.  Then the planned sections run in order,
   * each recorded once, and the summary is taken over what they recorded.
   */
  method Run(api: Retry.Api, flags: Flags, dataDir: string, outcome: Section -> SectionOutcome) returns (r: RunResult)
    modifies api`calls, api`waits, api`pauses
    ensures var h := Retry.Retry(api.world, old(api.calls), Retry.HealthRequest(flags.season), 3, 2);
            api.calls == old(api.calls) + h.attempts && api.waits == old(api.waits) + h.waits
    ensures flags.dryRun ==>
              var h := Retry.Retry(api.world, old(api.calls), Retry.HealthRequest(flags.season), 3, 2);
              r == (if h.outcome.Returned? then DryRunComplete else ExitCode1) && api.pauses == old(api.pauses)
    ensures !flags.dryRun ==>
              var b := Books(Plan(flags), outcome, dataDir, flags.season);
              r == Completed(b, Summarize(b.results, b.files)) && api.pauses == old(api.pauses) + Pauses(flags)
  {
    var healthy := api.HealthCheck(flags.season);
    if !healthy && flags.dryRun {
      return ExitCode1;
    }
    if flags.dryRun {
      return DryRunComplete;
    }
    var book := Book([], []);
    ghost var done: seq<Section> := [];
    if !flags.supplementaryOnly {
      book := RunLineups(api, flags, dataDir, outcome);
      done := [CoreLineups];
    }
    if !flags.lineupsOnly {
      book := RunSupplementary(api, flags, dataDir, outcome, done, book);
      done := done + SupplementarySections;
    }
    assert done == Plan(flags);
    r := Completed(book, Summarize(book.results, book.files));
  }
}

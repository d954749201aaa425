/**
 * Team lookups (pipeline/utils.py): the id -> full-name map built lazily on
 * first use, the name of an id (`"Unknown"` when unmapped), and the sorted
 * list of every team id.  The static team list of the statistics client is
 * a parameter: a sequence of records in the order the client lists them.
 */
module Teams {
  import opened Frames

  datatype TeamRecord = TeamRecord(id: int, fullName: string)

  /** Some record carries id `id`. */
  predicate Listed(records: seq<TeamRecord>, id: int)
  {
    exists i :: 0 <= i < |records| && records[i].id == id
  }

  /** `{t["id"]: t["full_name"] for t in records}`: a later record of an id overrides an earlier one. */
  function TeamMap(records: seq<TeamRecord>): (m: map<int, string>)
    ensures forall id :: id in m <==> Listed(records, id)
    decreases |records|
  {
    if records == [] then map[]
    else
      var init := records[..|records| - 1];
      assert forall i :: 0 <= i < |init| ==> init[i] == records[i];
      var last := records[|records| - 1];
      TeamMap(init)[last.id := last.fullName]
  }

  /** The map gives an id the name of the last record listing it. */
  lemma {:induction false} TeamMapLast(records: seq<TeamRecord>, i: nat)
    requires i < |records|
    requires forall j :: i < j < |records| ==> records[j].id != records[i].id
    ensures TeamMap(records)[records[i].id] == records[i].fullName
    decreases |records|
  {
    if i < |records| - 1 {
      var init := records[..|records| - 1];
      TeamMapLast(init, i);
    }
  }

  /** `get_team_name(team_id)` once the map is built. */
  function TeamName(records: seq<TeamRecord>, id: int): string
  {
    var m := TeamMap(records);
    if id in m then m[id] else "Unknown"
  }

  /**
   * The name of a listed id is the full name of its last record; an id no
   * record lists is `"Unknown"`.
   */
  lemma TeamNameSpec(records: seq<TeamRecord>, id: int)
    ensures !Listed(records, id) ==> TeamName(records, id) == "Unknown"
    ensures forall i :: 0 <= i < |records| && records[i].id == id
              && (forall j :: i < j < |records| ==> records[j].id != id)
              ==> TeamName(records, id) == records[i].fullName
  {
    forall i | 0 <= i < |records| && records[i].id == id && (forall j :: i < j < |records| ==> records[j].id != id)
      ensures TeamName(records, id) == records[i].fullName
    {
      TeamMapLast(records, i);
    }
  }

  /** `df["TEAM_ID"].apply(get_team_name)` for one cell: a missing id maps to `"Unknown"`. */
  function TeamCell(records: seq<TeamRecord>, c: Cell): Cell
  {
    Str(if c.Num? then TeamName(records, c.n) else "Unknown")
  }

  /**
   * The module-level cache `_TEAM_MAP`: empty until the first lookup, then
   * the map of the static team list.
   */
  class TeamDirectory {
    const records: seq<TeamRecord>
    var cache: Option<map<int, string>>

    /** The cache, once filled, is the map of the team list. */
    predicate Valid()
      reads this
    {
      cache.None? || cache == Some(TeamMap(records))
    }

    constructor (records: seq<TeamRecord>)
      ensures this.records == records && cache == None && Valid()
    {
      this.records := records;
      cache := None;
    }

    /** `get_team_name(team_id)`: fill the cache on first use, then look the id up. */
    method GetTeamName(id: int) returns (name: string)
      requires Valid()
      modifies this`cache
      ensures Valid() && cache == Some(TeamMap(records))
      ensures name == TeamName(records, id)
    {
      if cache.None? {
        cache := Some(TeamMap(records));
      }
      var m := cache.value;
      name := if id in m then m[id] else "Unknown";
    }
  }

  /** Ascending order. */
  predicate SortedInts(s: seq<int>)
  {
    forall i, j :: 0 <= i < j < |s| ==> s[i] <= s[j]
  }

  /** `x` put into the sorted `s` in its place. */
  function InsertInt(x: int, s: seq<int>): (r: seq<int>)
    requires SortedInts(s)
    ensures SortedInts(r) && multiset(r) == multiset(s) + multiset{x}
    decreases |s|
  {
    if s == [] || x <= s[0] then [x] + s
    else
      var t := InsertInt(x, s[1..]);
      assert s == [s[0]] + s[1..];
      forall k | 0 <= k < |t| ensures s[0] <= t[k] {
        assert t[k] in multiset(s[1..]) + multiset{x};
      }
      SortedCons(s[0], t);
      [s[0]] + t
  }

  /** A head no greater than any element of a sorted tail keeps it sorted. */
  lemma SortedCons(h: int, t: seq<int>)
    requires SortedInts(t) && forall k :: 0 <= k < |t| ==> h <= t[k]
    ensures SortedInts([h] + t)
  {
    var r := [h] + t;
    forall i, j | 0 <= i < j < |r| ensures r[i] <= r[j] {
      if i > 0 {
        assert r[i] == t[i - 1] && r[j] == t[j - 1];
      } else {
        assert r[j] == t[j - 1];
      }
    }
  }

  /** `sorted(xs)`. */
  function SortInts(xs: seq<int>): (r: seq<int>)
    ensures SortedInts(r) && multiset(r) == multiset(xs)
    decreases |xs|
  {
    if xs == [] then []
    else
      assert xs == [xs[0]] + xs[1..];
      InsertInt(xs[0], SortInts(xs[1..]))
  }

  /** The ids of the team list, in list order. */
  function Ids(records: seq<TeamRecord>): (ids: seq<int>)
    ensures |ids| == |records| && forall i :: 0 <= i < |records| ==> ids[i] == records[i].id
  {
    seq(|records|, i requires 0 <= i < |records| => records[i].id)
  }

  /** `get_all_team_ids()`: every id of the list, each as often as listed, in ascending order. */
  function AllTeamIds(records: seq<TeamRecord>): (ids: seq<int>)
    ensures SortedInts(ids) && multiset(ids) == multiset(Ids(records))
  {
    SortInts(Ids(records))
  }

  /** Every listed id, and nothing else, is among the sorted ids. */
  lemma AllTeamIdsListed(records: seq<TeamRecord>)
    ensures forall id :: id in AllTeamIds(records) <==> Listed(records, id)
  {
    var ids := AllTeamIds(records);
    forall id ensures id in ids <==> Listed(records, id) {
      assert id in ids <==> id in multiset(Ids(records));
      if Listed(records, id) {
        var i :| 0 <= i < |records| && records[i].id == id;
        assert Ids(records)[i] == id;
      }
    }
  }
}

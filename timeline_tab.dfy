/** The arithmetic and list pipeline behind the rank timeline: the vertical position of a
    rank, the timestamp comparator, and the season's rank changes as the timeline draws
    them (each recorded change once, only those still stored, in time order). */
module TimelineTab {
  import opened Wrappers
  import opened Lists
  import opened Strings

  /** A recorded rank change; the source's `date` field is not modelled. */
  datatype SeasonalRankData = SeasonalRankData(
    id: string,
    timestamp: int,
    oldClass: string, oldLevel: int, oldStep: int,
    newClass: string, newLevel: int, newStep: int,
    oldRankNumeric: int, newRankNumeric: int)

  function Timestamp(d: SeasonalRankData): int {
    d.timestamp
  }

  /** The comparator handed to `sort`: its sign is the order of the two timestamps. */
  function SortByTimestamp(a: SeasonalRankData, b: SeasonalRankData): (r: int)
    ensures r < 0 <==> a.timestamp < b.timestamp
    ensures r == 0 <==> a.timestamp == b.timestamp
    ensures r > 0 <==> a.timestamp > b.timestamp
  {
    a.timestamp - b.timestamp
  }

  /** The rank classes from the bottom of the timeline to the top. */
  const RankClasses: seq<string> := ["Bronze", "Silver", "Gold", "Platinum", "Diamond", "Master", "Mythic"]

  /** The height at which a class begins: four tiers of six steps per class below it;
      a name the `switch` does not know keeps the initial 0. */
  function ClassBase(rank: string): int {
    if rank == "Bronze" then 0
    else if rank == "Silver" then 4 * 6
    else if rank == "Gold" then 4 * 6 * 2
    else if rank == "Platinum" then 4 * 6 * 3
    else if rank == "Diamond" then 4 * 6 * 4
    else if rank == "Master" then 4 * 6 * 5
    else if rank == "Mythic" then 4 * 6 * 6
    else 0
  }

  /** `getRankY`: the k-th class starts at 24 k, tier 4 is its bottom and tier 1 its top,
      and every step adds one. */
  function GetRankY(rank: string, tier: int, steps: int): (y: int)
    ensures forall k :: 0 <= k < |RankClasses| && RankClasses[k] == rank ==>
      y == 24 * k + 6 * (4 - tier) + steps
    ensures rank !in RankClasses ==> y == 6 * (4 - tier) + steps
  {
    ClassBase(rank) + 6 * (4 - tier) + steps
  }

  /** A class name the timeline does not know is drawn as Bronze. */
  lemma UnknownClassIsBronze(rank: string, tier: int, steps: int)
    requires rank !in RankClasses
    ensures GetRankY(rank, tier, steps) == GetRankY("Bronze", tier, steps)
  {
    assert RankClasses[0] == "Bronze";
  }

  /** One class up, at the same tier and step, is 24 higher. */
  lemma NextClassIsHigher(k: nat, tier: int, steps: int)
    requires k + 1 < |RankClasses|
    ensures GetRankY(RankClasses[k + 1], tier, steps) == GetRankY(RankClasses[k], tier, steps) + 24
  {
  }

  /** One tier number lower is six higher, and steps count one each. */
  lemma TierAndStepOffsets(rank: string, tier: int, steps: int, more: int)
    ensures GetRankY(rank, tier - 1, steps) == GetRankY(rank, tier, steps) + 6
    ensures GetRankY(rank, tier, steps + more) == GetRankY(rank, tier, steps) + more
  {
  }

  /** `morphData`: the record with both rank positions filled in and nothing else changed. */
  function Morph(d: SeasonalRankData): (r: SeasonalRankData)
    ensures r.oldRankNumeric == GetRankY(d.oldClass, d.oldLevel, d.oldStep)
    ensures r.newRankNumeric == GetRankY(d.newClass, d.newLevel, d.newStep)
    ensures r.(oldRankNumeric := d.oldRankNumeric, newRankNumeric := d.newRankNumeric) == d
  {
    d.(oldRankNumeric := GetRankY(d.oldClass, d.oldLevel, d.oldStep),
       newRankNumeric := GetRankY(d.newClass, d.newLevel, d.newStep))
  }

  /** The season number used when the caller gives none (or 0): the player's current
      season for `kind`; `None` when the player has no rank data of that kind, where
      the source throws. */
  function ResolvedOrdinal(kind: string, seasonOrdinal: Option<int>, rank: map<string, int>): (r: Option<int>)
    ensures seasonOrdinal.Some? && seasonOrdinal.value != 0 ==> r == seasonOrdinal
    ensures (seasonOrdinal.None? || seasonOrdinal.value == 0) && kind in rank ==> r == Some(rank[kind])
    ensures (seasonOrdinal.None? || seasonOrdinal.value == 0) && kind !in rank ==> r.None?
  {
    if seasonOrdinal.Some? && seasonOrdinal.value != 0 then seasonOrdinal
    else if kind in rank then Some(rank[kind])
    else None
  }

  /** The key of a season's list in the seasonal store, `kind + "_" + ordinal`. */
  function SeasonKey(kind: string, ordinal: int): string {
    kind + "_" + IntToString(ordinal)
  }

  /** Different seasons of one kind have different keys. */
  lemma SeasonKeyInjective(kind: string, a: int, b: int)
    requires SeasonKey(kind, a) == SeasonKey(kind, b)
    ensures a == b
  {
    assert IntToString(a) == SeasonKey(kind, a)[|kind| + 1..];
    assert IntToString(b) == SeasonKey(kind, b)[|kind| + 1..];
    IntToStringInjective(a, b);
  }

  /** The stored records of the ids that still exist, each morphed, in the given order. */
  function Records(ids: seq<string>, getSeasonal: string -> SeasonalRankData): (r: seq<SeasonalRankData>)
    ensures |r| == |ids|
    ensures forall i :: 0 <= i < |ids| ==> r[i] == Morph(getSeasonal(ids[i]))
  {
    seq(|ids|, i requires 0 <= i < |ids| => Morph(getSeasonal(ids[i])))
  }

  /** The pipeline on one season's id list: dedupe, keep existing ids, look up and
      morph, sort by timestamp. */
  function SeasonRecords(ids: seq<string>, seasonalExists: string -> bool,
                         getSeasonal: string -> SeasonalRankData): seq<SeasonalRankData>
  {
    SortBy(Records(Filter(Dedupe(ids), seasonalExists), getSeasonal), Timestamp)
  }

  /** `getSeasonData(kind, seasonOrdinal)` with the store's rank, seasonal index and record
      lookups as parameters; `None` stands for the `TypeError` on a missing rank kind. */
  function GetSeasonData(kind: string, seasonOrdinal: Option<int>, rank: map<string, int>,
                         seasonal: map<string, seq<string>>, seasonalExists: string -> bool,
                         getSeasonal: string -> SeasonalRankData): (r: Option<seq<SeasonalRankData>>)
    ensures r.None? <==> ResolvedOrdinal(kind, seasonOrdinal, rank).None?
    ensures r.Some? && SeasonKey(kind, ResolvedOrdinal(kind, seasonOrdinal, rank).value) !in seasonal ==>
      r.value == []
    ensures r.Some? && SeasonKey(kind, ResolvedOrdinal(kind, seasonOrdinal, rank).value) in seasonal ==>
      r.value == SeasonRecords(seasonal[SeasonKey(kind, ResolvedOrdinal(kind, seasonOrdinal, rank).value)],
                               seasonalExists, getSeasonal)
    ensures r.Some? ==> SortedBy(r.value, Timestamp)
  {
    match ResolvedOrdinal(kind, seasonOrdinal, rank)
    case None => None
    case Some(ordinal) =>
      var key := SeasonKey(kind, ordinal);
      if key !in seasonal then Some([])
      else Some(SeasonRecords(seasonal[key], seasonalExists, getSeasonal))
  }

  /** The result is in time order: the comparator never reports a later record before an
      earlier one. */
  lemma SeasonRecordsInTimeOrder(ids: seq<string>, seasonalExists: string -> bool,
                                 getSeasonal: string -> SeasonalRankData)
    ensures var r := SeasonRecords(ids, seasonalExists, getSeasonal);
      forall i, j :: 0 <= i < j < |r| ==> SortByTimestamp(r[i], r[j]) <= 0
  {
  }

  /** The result is a reordering of the morphed records of the existing ids, each id taken
      once at its first occurrence. */
  lemma SeasonRecordsPermutation(ids: seq<string>, seasonalExists: string -> bool,
                                 getSeasonal: string -> SeasonalRankData)
    ensures multiset(SeasonRecords(ids, seasonalExists, getSeasonal)) ==
      multiset(Records(Filter(Dedupe(ids), seasonalExists), getSeasonal))
    ensures Distinct(Filter(Dedupe(ids), seasonalExists))
  {
    FilterOfDistinct(Dedupe(ids), seasonalExists);
  }

  /** A record is in the result exactly when some listed id that still exists has it as its
      morphed stored record. */
  lemma {:induction false} SeasonRecordsMembers(ids: seq<string>, seasonalExists: string -> bool,
                                                getSeasonal: string -> SeasonalRankData, d: SeasonalRankData)
    ensures d in SeasonRecords(ids, seasonalExists, getSeasonal) <==>
      exists id :: id in ids && seasonalExists(id) && d == Morph(getSeasonal(id))
  {
    var kept := Filter(Dedupe(ids), seasonalExists);
    SortByMembers(Records(kept, getSeasonal), Timestamp, d);
    RecordsMembers(kept, getSeasonal, d);
    forall id ensures id in kept <==> id in ids && seasonalExists(id) {
      FilterMembers(Dedupe(ids), seasonalExists, id);
    }
  }

  /** A record is among the looked-up records exactly when one of the ids maps to it. */
  lemma RecordsMembers(ids: seq<string>, getSeasonal: string -> SeasonalRankData, d: SeasonalRankData)
    ensures d in Records(ids, getSeasonal) <==> exists id :: id in ids && d == Morph(getSeasonal(id))
  {
    var r := Records(ids, getSeasonal);
    if d in r {
      var i :| 0 <= i < |r| && r[i] == d;
      assert ids[i] in ids;
    }
    if exists id :: id in ids && d == Morph(getSeasonal(id)) {
      var id :| id in ids && d == Morph(getSeasonal(id));
      var i :| 0 <= i < |ids| && ids[i] == id;
      assert r[i] == d;
    }
  }

  /** Filtering a list without repeats leaves one without repeats. */
  lemma {:induction false} FilterOfDistinct(s: seq<string>, keep: string -> bool)
    requires Distinct(s)
    ensures Distinct(Filter(s, keep))
  {
    if s != [] {
      var front := s[..|s| - 1];
      assert Distinct(front);
      FilterOfDistinct(front, keep);
      var x := s[|s| - 1];
      if keep(x) {
        var f := Filter(front, keep);
        assert x !in multiset(front);
        forall i | 0 <= i < |f| ensures f[i] != x {
          assert f[i] in multiset(f);
        }
      }
    }
  }
}

/** The one-line rank label: a leaderboard place, a Mythic percentile, or the rank class
    and tier. */
module FormatRank {
  import opened Wrappers
  import opened Strings

  /** The fields `formatRank` reads from a player's rank data; an absent or zero place or
      percentile is falsy. */
  datatype RankInput = RankInput(rank: string, tier: int, leaderboardPlace: Option<int>, percentile: Option<int>)

  predicate Truthy(v: Option<int>) {
    v.Some? && v.value != 0
  }

  /** `formatRank(rank)`: the leaderboard place wins over the percentile, which wins over
      the class and tier. */
  function FormatRank(r: RankInput): (s: string)
    ensures Truthy(r.leaderboardPlace) ==> s == "Mythic #" + IntToString(r.leaderboardPlace.value)
    ensures !Truthy(r.leaderboardPlace) && Truthy(r.percentile) ==>
      s == "Mythic " + IntToString(r.percentile.value) + "%"
    ensures !Truthy(r.leaderboardPlace) && !Truthy(r.percentile) ==> s == r.rank + " " + IntToString(r.tier)
  {
    if Truthy(r.leaderboardPlace) then "Mythic #" + IntToString(r.leaderboardPlace.value)
    else if Truthy(r.percentile) then "Mythic " + IntToString(r.percentile.value) + "%"
    else r.rank + " " + IntToString(r.tier)
  }

  /** Two leaderboard labels are equal only for the same place. */
  lemma LeaderboardLabelInjective(a: RankInput, b: RankInput)
    requires Truthy(a.leaderboardPlace) && Truthy(b.leaderboardPlace)
    requires FormatRank(a) == FormatRank(b)
    ensures a.leaderboardPlace == b.leaderboardPlace
  {
    assert IntToString(a.leaderboardPlace.value) == FormatRank(a)[8..];
    assert IntToString(b.leaderboardPlace.value) == FormatRank(b)[8..];
    IntToStringInjective(a.leaderboardPlace.value, b.leaderboardPlace.value);
  }

  /** Two percentile labels are equal only for the same percentile. */
  lemma PercentileLabelInjective(a: RankInput, b: RankInput)
    requires !Truthy(a.leaderboardPlace) && Truthy(a.percentile)
    requires !Truthy(b.leaderboardPlace) && Truthy(b.percentile)
    requires FormatRank(a) == FormatRank(b)
    ensures a.percentile == b.percentile
  {
    var sa, sb := FormatRank(a), FormatRank(b);
    assert IntToString(a.percentile.value) == sa[7..|sa| - 1];
    assert IntToString(b.percentile.value) == sb[7..|sb| - 1];
    IntToStringInjective(a.percentile.value, b.percentile.value);
  }

  /** A leaderboard label is never mistaken for a percentile label: the eighth character
      is `#` in one and a digit or a minus sign in the other. */
  lemma LeaderboardIsNotPercentile(a: RankInput, b: RankInput)
    requires Truthy(a.leaderboardPlace)
    requires !Truthy(b.leaderboardPlace) && Truthy(b.percentile)
    ensures FormatRank(a) != FormatRank(b)
  {
    var p := b.percentile.value;
    var digits := IntToString(p);
    assert FormatRank(b)[7] == digits[0];
    if p >= 0 {
      assert IsDigit(NatToString(p)[0]);
    }
    assert FormatRank(a)[7] == '#';
  }
}

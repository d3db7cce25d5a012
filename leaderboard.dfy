/** The course leaderboard: the period filter, the fetched ranking, the signed-in user's rank badge and
    the ranked rows. */
module Leaderboard {
  import opened Wrappers
  import Lists

  datatype Period = Week | Month | AllTime {
    /** The value sent as the `period` query parameter. */
    function Param(): string {
      match this
      case Week => "week"
      case Month => "month"
      case AllTime => "all-time"
    }
  }

  datatype Entry = Entry(userId: string, name: string, avatar: Option<string>, score: int, assignmentsCompleted: int)

  /** `entry.userId === user?.id`: with nobody signed in no entry is the user's. */
  predicate IsUser(e: Entry, userId: Option<string>) {
    userId == Some(e.userId)
  }

  /** The badge's rank: one more than the index of the user's first entry, 0 when the user is not listed. */
  function UserRank(entries: seq<Entry>, userId: Option<string>): (r: int)
    ensures 0 <= r <= |entries|
    ensures r == 0 <==> forall i :: 0 <= i < |entries| ==> !IsUser(entries[i], userId)
    ensures r > 0 ==> IsUser(entries[r - 1], userId)
    ensures r > 0 ==> forall i :: 0 <= i < r - 1 ==> !IsUser(entries[i], userId)
  {
    Lists.FindIndex(entries, e => IsUser(e, userId)) + 1
  }

  predicate ShowsRankBadge(rank: int) {
    rank > 0
  }

  datatype RankIcon = Trophy | Medal | Award | Number(rank: int)

  /** `getRankIcon`: the three podium icons, then the plain number. */
  function IconFor(rank: int): (icon: RankIcon)
    ensures rank == 1 ==> icon == Trophy
    ensures rank == 2 ==> icon == Medal
    ensures rank == 3 ==> icon == Award
    ensures icon.Number? <==> rank != 1 && rank != 2 && rank != 3
    ensures icon.Number? ==> icon.rank == rank
  {
    if rank == 1 then Trophy
    else if rank == 2 then Medal
    else if rank == 3 then Award
    else Number(rank)
  }

  lemma PodiumIconsAreDistinct()
    ensures IconFor(1) != IconFor(2) && IconFor(2) != IconFor(3) && IconFor(1) != IconFor(3)
  {
  }

  datatype Row = Row(rank: int, icon: RankIcon, entry: Entry, highlighted: bool)

  /** The rendered rows: entries in the order received, ranked from 1, the user's own highlighted. */
  function Rows(entries: seq<Entry>, userId: Option<string>): (rows: seq<Row>)
    ensures |rows| == |entries|
    ensures forall i :: 0 <= i < |entries| ==>
      rows[i] == Row(i + 1, IconFor(i + 1), entries[i], IsUser(entries[i], userId))
  {
    seq(|entries|, i requires 0 <= i < |entries| => Row(i + 1, IconFor(i + 1), entries[i], IsUser(entries[i], userId)))
  }

  /** The badge and the rows agree: the badge shows a rank exactly when some row is highlighted, and
      then it is the rank of the first highlighted row. */
  lemma BadgeMatchesFirstHighlightedRow(entries: seq<Entry>, userId: Option<string>)
    ensures var rank := UserRank(entries, userId);
            var rows := Rows(entries, userId);
            (ShowsRankBadge(rank) <==> exists i :: 0 <= i < |rows| && rows[i].highlighted)
            && (ShowsRankBadge(rank) ==>
                  rows[rank - 1].highlighted && rows[rank - 1].rank == rank
                  && forall i :: 0 <= i < rank - 1 ==> !rows[i].highlighted)
  {
  }

  /** Signed out, there is no badge and no highlighted row. */
  lemma SignedOutSeesNoRank(entries: seq<Entry>)
    ensures UserRank(entries, None) == 0
    ensures forall r :: r in Rows(entries, None) ==> !r.highlighted
  {
  }

  class LeaderboardView {
    const routeId: Option<string>
    var period: Period
    var entries: seq<Entry>

    constructor (routeId0: Option<string>)
      ensures routeId == routeId0 && period == AllTime && entries == []
    {
      routeId := routeId0;
      period := AllTime;
      entries := [];
    }

    /** The fetch effect, re-run on a period change: nothing without a route id, and a failed fetch
        keeps the rows already shown. */
    method Load(fetch: (string, string) -> Option<seq<Entry>>)
      modifies this`entries
      ensures routeId.Some? && routeId.value != "" && fetch("/courses/" + routeId.value + "/leaderboard", period.Param()).Some? ==>
        entries == fetch("/courses/" + routeId.value + "/leaderboard", period.Param()).value
      ensures !(routeId.Some? && routeId.value != "" && fetch("/courses/" + routeId.value + "/leaderboard", period.Param()).Some?) ==>
        entries == old(entries)
    {
      if routeId.None? || routeId.value == "" {
        return;
      }
      var data := fetch("/courses/" + routeId.value + "/leaderboard", period.Param());
      if data.Some? {
        entries := data.value;
      }
    }

    method SelectPeriod(p: Period, fetch: (string, string) -> Option<seq<Entry>>)
      modifies this`period, this`entries
      ensures period == p
      ensures routeId.Some? && routeId.value != "" && fetch("/courses/" + routeId.value + "/leaderboard", p.Param()).Some? ==>
        entries == fetch("/courses/" + routeId.value + "/leaderboard", p.Param()).value
      ensures !(routeId.Some? && routeId.value != "" && fetch("/courses/" + routeId.value + "/leaderboard", p.Param()).Some?) ==>
        entries == old(entries)
    {
      period := p;
      Load(fetch);
    }
  }
}

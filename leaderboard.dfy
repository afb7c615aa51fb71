/**
 * The leaderboard page's view logic over its (mock) entries: the constellation
 * filter, the descending sort of a copy by the chosen column, the rank and
 * constellation icons, and the summary figures below the table.
 */
module Leaderboard {
  import opened Wrappers
  import JsMath
  import GamePage

  datatype Entry = Entry(
    id: string,
    playerName: string,
    score: int,
    accuracy: int,
    level: int,
    constellation: string,
    date: string)

  /** The "Sort by" choices */
  datatype SortKey = ByScore | ByAccuracy | ByLevel

  function Key(e: Entry, k: SortKey): int {
    match k
    case ByScore => e.score
    case ByAccuracy => e.accuracy
    case ByLevel => e.level
  }

  const MockLeaderboardData: seq<Entry> := [
    Entry("1", "StarShooter", 2500, 95, 5, "Orion", "2024-01-15"),
    Entry("2", "CosmicHunter", 2200, 92, 4, "Ursa Major", "2024-01-14"),
    Entry("3", "GalaxyGamer", 2100, 88, 4, "Cassiopeia", "2024-01-13"),
    Entry("4", "SpaceExplorer", 1950, 90, 3, "Leo", "2024-01-12"),
    Entry("5", "NebulaNinja", 1800, 85, 3, "Scorpius", "2024-01-11"),
    Entry("6", "AstroAce", 1650, 87, 2, "Orion", "2024-01-10"),
    Entry("7", "MeteorMaster", 1500, 82, 2, "Ursa Major", "2024-01-09"),
    Entry("8", "CometChaser", 1350, 80, 1, "Cassiopeia", "2024-01-08"),
    Entry("9", "PulsarPro", 1200, 78, 1, "Leo", "2024-01-07"),
    Entry("10", "QuasarQueen", 1050, 75, 1, "Scorpius", "2024-01-06")
  ]

  /** The options of the constellation selector */
  const Constellations: seq<string> := ["All", "Orion", "Ursa Major", "Cassiopeia", "Leo", "Scorpius"]

  // ---------------------------------------------------------------- filtering

  /** A condition on entries: the page's constellation filter, or a key value */
  datatype Criterion = InConstellation(selected: string) | KeyIs(k: SortKey, v: int)

  predicate Matches(c: Criterion, e: Entry) {
    match c
    case InConstellation(selected) => selected == "All" || e.constellation == selected
    case KeyIs(k, v) => Key(e, k) == v
  }

  /** The entries satisfying a criterion, in their original order */
  function Select(s: seq<Entry>, c: Criterion): (r: seq<Entry>)
    ensures |r| <= |s|
    ensures forall e :: e in r ==> e in s && Matches(c, e)
  {
    if s == [] then [] else (if Matches(c, s[0]) then [s[0]] else []) + Select(s[1..], c)
  }

  /** `filteredData`: the entries of the selected constellation, or all of them */
  function FilteredData(data: seq<Entry>, selected: string): (r: seq<Entry>)
    ensures |r| <= |data|
    ensures forall e :: e in r ==> e in data && (selected == "All" || e.constellation == selected)
  {
    Select(data, InConstellation(selected))
  }

  /** Selecting keeps each matching entry as often as it occurs, and no other */
  lemma {:induction false} SelectCount(s: seq<Entry>, c: Criterion)
    ensures forall e :: multiset(Select(s, c))[e] == if Matches(c, e) then multiset(s)[e] else 0
  {
    if s != [] {
      SelectCount(s[1..], c);
      assert s == [s[0]] + s[1..];
    }
  }

  /** Selecting keeps the relative order: it distributes over concatenation */
  lemma {:induction false} SelectAppend(a: seq<Entry>, b: seq<Entry>, c: Criterion)
    ensures Select(a + b, c) == Select(a, c) + Select(b, c)
  {
    if a == [] {
      assert a + b == b;
    } else {
      assert (a + b)[0] == a[0];
      assert (a + b)[1..] == a[1..] + b;
      SelectAppend(a[1..], b, c);
    }
  }

  lemma SelectSingleton(x: Entry, c: Criterion)
    ensures Select([x], c) == if Matches(c, x) then [x] else []
  {
    assert [x][1..] == [];
  }

  /** With "All" selected the filter returns the data unchanged */
  lemma {:induction false} FilterAll(data: seq<Entry>)
    ensures FilteredData(data, "All") == data
  {
    if data != [] {
      FilterAll(data[1..]);
      assert data == [data[0]] + data[1..];
    }
  }

  /** With a constellation selected the filter keeps exactly that constellation's entries */
  lemma FilterExactly(data: seq<Entry>, selected: string)
    requires selected != "All"
    ensures forall e :: e in FilteredData(data, selected) <==> e in data && e.constellation == selected
    ensures forall e :: multiset(FilteredData(data, selected))[e] ==
                          if e.constellation == selected then multiset(data)[e] else 0
  {
    SelectCount(data, InConstellation(selected));
    forall e ensures e in FilteredData(data, selected) <==> e in data && e.constellation == selected {
      assert e in FilteredData(data, selected) <==> e in multiset(FilteredData(data, selected));
    }
  }

  /** The mock data has at least one entry for every constellation option */
  lemma MockOptionsNonEmpty()
    ensures forall i :: 1 <= i < |Constellations| ==>
              |FilteredData(MockLeaderboardData, Constellations[i])| > 0
  {
    forall i | 1 <= i < |Constellations|
      ensures |FilteredData(MockLeaderboardData, Constellations[i])| > 0
    {
      var e := MockLeaderboardData[i - 1];
      assert e.constellation == Constellations[i];
      FilterExactly(MockLeaderboardData, Constellations[i]);
      assert e in FilteredData(MockLeaderboardData, Constellations[i]);
    }
  }

  // ---------------------------------------------------------------- sorting

  predicate Descending(s: seq<Entry>, k: SortKey) {
    forall i, j :: 0 <= i < j < |s| ==> Key(s[i], k) >= Key(s[j], k)
  }

  /** Put `e` in front of the first entry whose key is not larger than its own */
  function Insert(e: Entry, s: seq<Entry>, k: SortKey): (r: seq<Entry>)
    ensures multiset(r) == multiset(s) + multiset{e}
  {
    if s == [] then [e]
    else if Key(s[0], k) <= Key(e, k) then [e] + s
    else
      assert s == [s[0]] + s[1..];
      [s[0]] + Insert(e, s[1..], k)
  }

  /** An entry whose key bounds a descending list's keys can go in front of it */
  lemma ConsSorted(x: Entry, t: seq<Entry>, k: SortKey)
    requires Descending(t, k)
    requires forall y :: y in t ==> Key(y, k) <= Key(x, k)
    ensures Descending([x] + t, k)
  {
    var r := [x] + t;
    forall i, j | 0 <= i < j < |r| ensures Key(r[i], k) >= Key(r[j], k) {
      assert r[j] == t[j - 1];
      if i > 0 {
        assert r[i] == t[i - 1];
      }
    }
  }

  /** Inserting into a descending list keeps it descending */
  lemma {:induction false} InsertSorted(e: Entry, s: seq<Entry>, k: SortKey)
    requires Descending(s, k)
    ensures Descending(Insert(e, s, k), k)
  {
    if s == [] {
    } else if Key(s[0], k) <= Key(e, k) {
      forall y | y in s ensures Key(y, k) <= Key(e, k) {
        var j :| 0 <= j < |s| && s[j] == y;
        assert Key(s[0], k) >= Key(s[j], k);
      }
      ConsSorted(e, s, k);
    } else {
      var t := Insert(e, s[1..], k);
      InsertSorted(e, s[1..], k);
      forall x | x in t ensures Key(x, k) <= Key(s[0], k) {
        assert x in multiset(t);
        if x != e {
          assert x in multiset(s[1..]);
          var j :| 0 <= j < |s[1..]| && s[1..][j] == x;
          assert s[j + 1] == x;
        }
      }
      ConsSorted(s[0], t, k);
    }
  }

  /**
   * `[...filteredData].sort((a, b) => b[sortBy] - a[sortBy])`: a stable sort
   * of a copy into descending order of the chosen column. The argument, a
   * value, is left as it was.
   */
  function SortDesc(s: seq<Entry>, k: SortKey): (r: seq<Entry>)
    ensures multiset(r) == multiset(s)
    ensures Descending(r, k)
  {
    if s == [] then [] else
      assert s == [s[0]] + s[1..];
      var t := SortDesc(s[1..], k);
      InsertSorted(s[0], t, k);
      Insert(s[0], t, k)
  }

  /**
   * `sortedData`: the rows of the table, which hold each entry of the selected
   * constellation (or every entry) as often as the data does, in descending
   * order of the chosen column
   */
  function SortedData(data: seq<Entry>, selected: string, sortBy: SortKey): (r: seq<Entry>)
    ensures forall e :: multiset(r)[e] ==
              if selected == "All" || e.constellation == selected then multiset(data)[e] else 0
    ensures Descending(r, sortBy)
  {
    SelectCount(data, InConstellation(selected));
    SortDesc(FilteredData(data, selected), sortBy)
  }

  /** An entry with a larger key moves past `e` without disturbing the entries of any one key */
  lemma PassLarger(x: Entry, e: Entry, rest: seq<Entry>, tail: seq<Entry>, k: SortKey, v: int)
    requires Key(x, k) > Key(e, k)
    requires Select(rest, KeyIs(k, v)) == Select([e], KeyIs(k, v)) + Select(tail, KeyIs(k, v))
    ensures Select([x] + rest, KeyIs(k, v)) == Select([e], KeyIs(k, v)) + Select([x] + tail, KeyIs(k, v))
  {
    var c := KeyIs(k, v);
    SelectAppend([x], rest, c);
    SelectAppend([x], tail, c);
    SelectSingleton(x, c);
    SelectSingleton(e, c);
  }

  /** Inserting keeps the entries that share a key in their order, `e` first */
  lemma {:induction false} InsertStable(e: Entry, s: seq<Entry>, k: SortKey, v: int)
    ensures Select(Insert(e, s, k), KeyIs(k, v)) == Select([e], KeyIs(k, v)) + Select(s, KeyIs(k, v))
  {
    if s == [] {
    } else if Key(s[0], k) <= Key(e, k) {
      SelectAppend([e], s, KeyIs(k, v));
    } else {
      InsertStable(e, s[1..], k, v);
      PassLarger(s[0], e, Insert(e, s[1..], k), s[1..], k, v);
      assert s == [s[0]] + s[1..];
    }
  }

  /** The sort is stable: entries with equal keys keep their relative order */
  lemma {:induction false} SortStable(s: seq<Entry>, k: SortKey, v: int)
    ensures Select(SortDesc(s, k), KeyIs(k, v)) == Select(s, KeyIs(k, v))
  {
    if s != [] {
      SortStable(s[1..], k, v);
      InsertStable(s[0], SortDesc(s[1..], k), k, v);
      SelectAppend([s[0]], s[1..], KeyIs(k, v));
      assert s == [s[0]] + s[1..];
    }
  }

  // ---------------------------------------------------------------- icons

  /** The icon in the rank column: medals for the first three, `#rank` after */
  function RankIcon(rank: int): (icon: string)
    ensures |icon| >= 1
    ensures rank == 1 ==> icon == "🥇"
    ensures rank == 2 ==> icon == "🥈"
    ensures rank == 3 ==> icon == "🥉"
    ensures icon[0] == '#' <==> rank != 1 && rank != 2 && rank != 3
    ensures rank > 3 ==> JsMath.IsDigits(icon[1..]) && JsMath.DecimalValue(icon[1..]) == rank
    ensures rank > 3 ==> |icon| >= 2 && icon[1] != '0'
  {
    if rank == 1 then "🥇"
    else if rank == 2 then "🥈"
    else if rank == 3 then "🥉"
    else
      var icon := "#" + JsMath.IntToString(rank);
      assert icon[1..] == JsMath.IntToString(rank);
      icon
  }

  const ConstellationIcons: map<string, string> := map[
    "Orion" := "🌟",
    "Ursa Major" := "⭐",
    "Cassiopeia" := "✨",
    "Leo" := "🦁",
    "Scorpius" := "🦂"
  ]

  /** The icon beside a constellation name; unknown names get the plain star */
  function ConstellationIcon(constellation: string): (icon: string)
    ensures constellation in ConstellationIcons ==> icon == ConstellationIcons[constellation]
    ensures constellation !in ConstellationIcons ==> icon == "⭐"
  {
    if constellation in ConstellationIcons && ConstellationIcons[constellation] != ""
    then ConstellationIcons[constellation]
    else "⭐"
  }

  /** The leaderboard's icons agree with the images of the game's constellation facts */
  lemma ConstellationIconsMatchFacts()
    ensures forall i :: 0 <= i < |GamePage.SpaceFacts| ==>
              ConstellationIcon(GamePage.SpaceFacts[i].constellation) == GamePage.SpaceFacts[i].image
  {
  }

  // ---------------------------------------------------------------- summary

  /** The reduce over accuracies */
  function SumAccuracy(s: seq<Entry>): int {
    if s == [] then 0 else s[0].accuracy + SumAccuracy(s[1..])
  }

  /** `Math.max(...scores)` of a non-empty list */
  function MaxScore(s: seq<Entry>): (m: int)
    requires s != []
    ensures exists i :: 0 <= i < |s| && s[i].score == m
    ensures forall i :: 0 <= i < |s| ==> s[i].score <= m
  {
    if |s| == 1 then s[0].score
    else
      var m := MaxScore(s[1..]);
      assert forall i :: 1 <= i < |s| ==> s[i] == s[1..][i - 1];
      if s[0].score >= m then s[0].score else m
  }

  /**
   * The three figures under the table. For an empty view the page would show
   * `-Infinity` and `NaN`; here those are `None`.
   */
  datatype Summary = Summary(totalPlayers: nat, highestScore: Option<int>, averageAccuracy: Option<int>)

  function Stats(s: seq<Entry>): (r: Summary)
    ensures r.totalPlayers == |s|
    ensures r.highestScore.Some? <==> s != []
    ensures r.averageAccuracy.Some? <==> s != []
    ensures s != [] ==> r.highestScore.value == MaxScore(s)
    ensures s != [] ==> var a := r.averageAccuracy.value;
              2 * |s| * a <= 2 * SumAccuracy(s) + |s| < 2 * |s| * a + 2 * |s|
  {
    if s == [] then Summary(0, None, None)
    else Summary(|s|, Some(MaxScore(s)), Some(JsMath.RoundDiv(SumAccuracy(s), |s|)))
  }

  lemma {:induction false} SumInsert(e: Entry, s: seq<Entry>, k: SortKey)
    ensures SumAccuracy(Insert(e, s, k)) == e.accuracy + SumAccuracy(s)
  {
    if s != [] && Key(s[0], k) > Key(e, k) {
      SumInsert(e, s[1..], k);
      var t := Insert(e, s[1..], k);
      assert ([s[0]] + t)[1..] == t;
    }
  }

  lemma {:induction false} SumSort(s: seq<Entry>, k: SortKey)
    ensures SumAccuracy(SortDesc(s, k)) == SumAccuracy(s)
  {
    if s != [] {
      SumSort(s[1..], k);
      SumInsert(s[0], SortDesc(s[1..], k), k);
    }
  }

  lemma MaxOfPermutation(a: seq<Entry>, b: seq<Entry>)
    requires a != [] && multiset(a) == multiset(b)
    ensures b != [] && MaxScore(a) == MaxScore(b)
  {
    assert a[0] in multiset(b);
    var ma, mb := MaxScore(a), MaxScore(b);
    var i :| 0 <= i < |a| && a[i].score == ma;
    var j :| 0 <= j < |b| && b[j].score == mb;
    assert a[i] in multiset(b);
    assert b[j] in multiset(a);
  }

  /** Sorting does not change the summary: it is that of the filtered entries */
  lemma StatsOfSortedView(data: seq<Entry>, selected: string, sortBy: SortKey)
    ensures Stats(SortedData(data, selected, sortBy)) == Stats(FilteredData(data, selected))
  {
    var f := FilteredData(data, selected);
    var s := SortDesc(f, sortBy);
    assert |s| == |multiset(s)| == |multiset(f)| == |f|;
    SumSort(f, sortBy);
    if f != [] {
      MaxOfPermutation(f, s);
    }
  }

  /** Sorted by score, the highest score is the first row's */
  lemma HighestScoreIsFirstRow(data: seq<Entry>, selected: string)
    requires SortedData(data, selected, ByScore) != []
    ensures Stats(SortedData(data, selected, ByScore)).highestScore
            == Some(SortedData(data, selected, ByScore)[0].score)
  {
    var s := SortedData(data, selected, ByScore);
    var i :| 0 <= i < |s| && s[i].score == MaxScore(s);
    assert i == 0 || Key(s[0], ByScore) >= Key(s[i], ByScore);
  }
}

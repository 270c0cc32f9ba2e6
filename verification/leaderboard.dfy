/** The leaderboard (`Leaderboard`): track filter, comparator sort, icons and podium. */
module Leaderboard {
  import opened Seqs

  /** A leaderboard row; the score is kept in tenths (95.5 is 955). */
  datatype Row = Row(rank: int, team: string, project: string, track: string,
                     scoreTenths: int, submissions: int, trend: string)

  const Fixture: seq<Row> := [
    Row(1, "Code Warriors", "AI Code Reviewer", "AI/ML", 955, 3, "up"),
    Row(2, "Tech Titans", "DeFi Dashboard", "Web3", 932, 2, "same"),
    Row(3, "Innovators", "Health Tracker", "HealthTech", 918, 4, "up"),
    Row(4, "Byte Builders", "EduLearn Platform", "EdTech", 895, 2, "down"),
    Row(5, "Digital Dragons", "PaySmart", "FinTech", 880, 3, "up"),
    Row(6, "Cyber Squad", "Identity Guard", "Web3", 865, 2, "same"),
    Row(7, "Data Dynamos", "ML Predictor", "AI/ML", 852, 3, "down"),
    Row(8, "Future Founders", "MediConnect", "HealthTech", 840, 2, "up"),
    Row(9, "Pixel Pioneers", "Study Buddy", "EdTech", 825, 3, "same"),
    Row(10, "Quantum Coders", "Crypto Wallet", "FinTech", 810, 2, "down")
  ]

  const Tracks := ["all", "AI/ML", "Web3", "FinTech", "HealthTech", "EdTech", "Open Innovation"]

  /** Every row's track is one the track menu offers. */
  lemma FixtureTracksOffered()
    ensures forall i :: 0 <= i < |Fixture| ==> Fixture[i].track in Tracks
  {
  }

  /** The menu's last track, `Open Innovation`, has no rows: choosing it empties the table. */
  lemma OpenInnovationIsEmpty()
    ensures FilteredData(Fixture, Tracks[6]) == []
  {
  }

  /** `filteredData`: the rows of the selected track, or every row for `all`. */
  function FilteredData(rows: seq<Row>, track: string): (r: seq<Row>)
    ensures track == "all" ==> r == rows
    ensures IsSubseq(r, rows)
    ensures track != "all" ==> forall x :: x in r <==> x in rows && x.track == track
    ensures track != "all" ==> forall x :: multiset(r)[x] == if x.track == track then multiset(rows)[x] else 0
  {
    if track == "all" then
      IsSubseqRefl(rows);
      rows
    else
      FilterSpec(rows, (x: Row) => x.track == track);
      Filter(rows, (x: Row) => x.track == track)
  }

  /**
   * The comparator as an ascending key: descending score, descending
   * submissions, or otherwise ascending rank.
   */
  function SortKey(sortBy: string): Row -> int {
    if sortBy == "score" then (x: Row) => -x.scoreTenths
    else if sortBy == "submissions" then (x: Row) => -x.submissions
    else (x: Row) => x.rank
  }

  /** `sortedData`: a stably sorted copy; the filtered rows are left as they were. */
  function SortedData(rows: seq<Row>, sortBy: string, track: string): seq<Row> {
    StableSort(FilteredData(rows, track), SortKey(sortBy))
  }

  /**
   * The table is a reordering of the filtered rows, ordered by descending score,
   * descending submissions or ascending rank, with ties in their original order.
   */
  lemma SortedDataSpec(rows: seq<Row>, sortBy: string, track: string)
    ensures var r := SortedData(rows, sortBy, track);
            var f := FilteredData(rows, track);
            && multiset(r) == multiset(f)
            && (sortBy == "score" ==> forall i, j :: 0 <= i < j < |r| ==> r[i].scoreTenths >= r[j].scoreTenths)
            && (sortBy == "submissions" ==> forall i, j :: 0 <= i < j < |r| ==> r[i].submissions >= r[j].submissions)
            && (sortBy != "score" && sortBy != "submissions" ==> forall i, j :: 0 <= i < j < |r| ==> r[i].rank <= r[j].rank)
            && forall k :: Filter(r, HasKey(SortKey(sortBy), k)) == Filter(f, HasKey(SortKey(sortBy), k))
  {
    var r := SortedData(rows, sortBy, track);
    var key := SortKey(sortBy);
    assert SortedBy(r, key);
    forall k ensures Filter(r, HasKey(key, k)) == Filter(FilteredData(rows, track), HasKey(key, k)) {
      StableSortStable(FilteredData(rows, track), key, k);
    }
  }

  /** With every track shown, sorting by score keeps the fixture's order: its ranks already follow the scores. */
  lemma FixtureInScoreOrder()
    ensures SortedData(Fixture, "score", "all") == Fixture
  {
    var key := SortKey("score");
    assert forall i :: 0 <= i < |Fixture| - 1 ==> key(Fixture[i]) < key(Fixture[i + 1]);
    assert SortedBy(Fixture, key) by {
      forall i, j | 0 <= i < j < |Fixture| ensures key(Fixture[i]) <= key(Fixture[j]) {
        var k := i;
        while k < j
          invariant i <= k <= j
          invariant key(Fixture[i]) <= key(Fixture[k])
        {
          k := k + 1;
        }
      }
    }
    StableSortOfSorted(Fixture, key);
  }

  datatype RankIcon = Trophy | SilverMedal | BronzeMedal | RankNumber(rank: int)

  /** Ranks 1, 2 and 3 get their own icons; every other rank is shown as its number. */
  function GetRankIcon(rank: int): (i: RankIcon)
    ensures i.RankNumber? <==> rank !in {1, 2, 3}
    ensures i.RankNumber? ==> i.rank == rank
    ensures rank == 1 ==> i == Trophy
    ensures rank == 2 ==> i == SilverMedal
    ensures rank == 3 ==> i == BronzeMedal
  {
    if rank == 1 then Trophy
    else if rank == 2 then SilverMedal
    else if rank == 3 then BronzeMedal
    else RankNumber(rank)
  }

  datatype TrendIcon = TrendUp | TrendDown | TrendFlat

  /** `up` and `down` have arrows; any other trend, `same` included, is flat. */
  function GetTrendIcon(trend: string): (i: TrendIcon)
    ensures i == TrendUp <==> trend == "up"
    ensures i == TrendDown <==> trend == "down"
  {
    if trend == "up" then TrendUp else if trend == "down" then TrendDown else TrendFlat
  }

  datatype Board = Board(podium: seq<Row>, table: seq<Row>)

  /** The page: a podium of the first three fixture rows, and the filtered, sorted table. */
  function View(rows: seq<Row>, sortBy: string, track: string): (b: Board)
    requires |rows| >= 3
    ensures b.podium == [rows[0], rows[1], rows[2]]
    ensures multiset(b.table) == multiset(FilteredData(rows, track))
  {
    assert rows[..3] == [rows[0], rows[1], rows[2]];
    Board(rows[..3], SortedData(rows, sortBy, track))
  }

  /** The podium does not depend on the track filter or the sort order. */
  lemma PodiumIgnoresFilters(sortBy: string, track: string, sortBy': string, track': string)
    ensures View(Fixture, sortBy, track).podium == View(Fixture, sortBy', track').podium
    ensures var p := View(Fixture, sortBy, track).podium;
            p[0].team == "Code Warriors" && p[1].team == "Tech Titans" && p[2].team == "Innovators"
  {
    assert Fixture[0].team == "Code Warriors" && Fixture[1].team == "Tech Titans" && Fixture[2].team == "Innovators";
    PodiumOf(Fixture, sortBy, track);
    PodiumOf(Fixture, sortBy', track');
  }

  lemma PodiumOf(rows: seq<Row>, sortBy: string, track: string)
    requires |rows| >= 3
    ensures View(rows, sortBy, track).podium == [rows[0], rows[1], rows[2]]
  {
  }
}

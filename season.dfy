/**
 * The deterministic part of the season simulator. Every trial starts each
 * club from the wins of its completed games, credits every upcoming game to
 * exactly one of its two teams, and ranks the clubs by wins. After all
 * trials the clubs are listed by mean wins with ranks 1..n.
 *
 * The random draws are an input: `draws[k][j]` says whether the home team
 * wins the j-th upcoming game in trial k.
 */
module Season {
  import opened Features
  import opened Table

  /** `n_simulations`. */
  const NSimulations: nat := 1000

  // ---------------------------------------------------------------------
  // The list of clubs

  function Homes(rows: seq<TableRow>): (r: seq<string>)
    ensures |r| == |rows| && forall i :: 0 <= i < |rows| ==> r[i] == rows[i].home
  {
    seq(|rows|, i requires 0 <= i < |rows| => rows[i].home)
  }

  function Aways(rows: seq<TableRow>): (r: seq<string>)
    ensures |r| == |rows| && forall i :: 0 <= i < |rows| ==> r[i] == rows[i].away
  {
    seq(|rows|, i requires 0 <= i < |rows| => rows[i].away)
  }

  /** `Series.unique()`: first occurrences, in order. */
  function Unique(s: seq<string>): (r: seq<string>)
    ensures Distinct(r)
    ensures forall x :: x in r <==> x in s
  {
    if s == [] then []
    else
      var u := Unique(s[..|s| - 1]);
      if s[|s| - 1] in u then u else u + [s[|s| - 1]]
  }

  /** Line 31: the home column followed by the away column, deduplicated. */
  function TeamList(rows: seq<TableRow>): seq<string> {
    Unique(Homes(rows) + Aways(rows))
  }

  /** The club list has no repeats and holds exactly the clubs named in the
      table. */
  lemma TeamListIsClubs(rows: seq<TableRow>, x: string)
    ensures Distinct(TeamList(rows))
    ensures x in TeamList(rows) <==> exists i :: 0 <= i < |rows| && (rows[i].home == x || rows[i].away == x)
  {
    var s := Homes(rows) + Aways(rows);
    if x in s {
      var k :| 0 <= k < |s| && s[k] == x;
      if k < |rows| {
        assert rows[k].home == x;
      } else {
        assert rows[k - |rows|].away == x;
      }
    }
    if exists i :: 0 <= i < |rows| && (rows[i].home == x || rows[i].away == x) {
      var i :| 0 <= i < |rows| && (rows[i].home == x || rows[i].away == x);
      if rows[i].home == x {
        assert s[i] == x;
      } else {
        assert s[|rows| + i] == x;
      }
    }
  }

  // ---------------------------------------------------------------------
  // Tallies: a weight credited to a club, row by row

  datatype Tick = Tick(team: string, weight: int)

  /** The weight credited to club `t`. */
  function Tally(ticks: seq<Tick>, t: string): int {
    if ticks == [] then 0
    else Tally(ticks[..|ticks| - 1], t) + (if ticks[|ticks| - 1].team == t then ticks[|ticks| - 1].weight else 0)
  }

  /** The weight of all ticks. */
  function Weight(ticks: seq<Tick>): int {
    if ticks == [] then 0 else Weight(ticks[..|ticks| - 1]) + ticks[|ticks| - 1].weight
  }

  /** The weights credited to each club of `teams`, added up. */
  function SumOver(teams: seq<string>, ticks: seq<Tick>): int {
    if teams == [] then 0 else SumOver(teams[..|teams| - 1], ticks) + Tally(ticks, teams[|teams| - 1])
  }

  lemma {:induction false} SumOverSnoc(teams: seq<string>, ticks: seq<Tick>, k: Tick)
    requires Distinct(teams)
    ensures SumOver(teams, ticks + [k]) == SumOver(teams, ticks) + (if k.team in teams then k.weight else 0)
  {
    assert (ticks + [k])[..|ticks + [k]| - 1] == ticks;
    if teams != [] {
      var front := teams[..|teams| - 1];
      assert teams[|teams| - 1] !in front;
      assert k.team in teams <==> k.team in front || k.team == teams[|teams| - 1];
      SumOverSnoc(front, ticks, k);
    }
  }

  /** Double counting: when every tick goes to a listed club and no club is
      listed twice, the clubs' tallies add up to the total weight. */
  lemma {:induction false} TallyTotal(teams: seq<string>, ticks: seq<Tick>)
    requires Distinct(teams)
    requires forall i :: 0 <= i < |ticks| ==> ticks[i].team in teams
    ensures SumOver(teams, ticks) == Weight(ticks)
  {
    if ticks == [] {
      SumOverZero(teams);
    } else {
      var front := ticks[..|ticks| - 1];
      assert forall i :: 0 <= i < |front| ==> front[i] == ticks[i];
      TallyTotal(teams, front);
      assert ticks == front + [ticks[|ticks| - 1]];
      SumOverSnoc(teams, front, ticks[|ticks| - 1]);
    }
  }

  lemma {:induction false} SumOverZero(teams: seq<string>)
    ensures SumOver(teams, []) == 0
  {
    if teams != [] {
      SumOverZero(teams[..|teams| - 1]);
    }
  }

  lemma {:induction false} TallyConcat(a: seq<Tick>, b: seq<Tick>, t: string)
    ensures Tally(a + b, t) == Tally(a, t) + Tally(b, t)
    ensures Weight(a + b) == Weight(a) + Weight(b)
  {
    if b == [] {
      assert a + b == a;
    } else {
      var front := b[..|b| - 1];
      assert (a + b)[..|a + b| - 1] == a + front;
      TallyConcat(a, front, t);
    }
  }

  // ---------------------------------------------------------------------
  // Baseline wins, lines 40-43

  /** Each completed home game credits its target to the home club. */
  function HomeTicks(completed: seq<TableRow>): (r: seq<Tick>)
    ensures |r| == |completed|
    ensures forall i :: 0 <= i < |completed| ==> r[i] == Tick(completed[i].home, completed[i].target)
  {
    seq(|completed|, i requires 0 <= i < |completed| => Tick(completed[i].home, completed[i].target))
  }

  /** Each completed game whose target is not 1 credits a win to the away club. */
  function AwayTicks(completed: seq<TableRow>): (r: seq<Tick>)
    ensures |r| == |completed|
    ensures forall i :: 0 <= i < |completed| ==>
      r[i] == Tick(completed[i].away, if completed[i].target == 1 then 0 else 1)
  {
    seq(|completed|, i requires 0 <= i < |completed| =>
      Tick(completed[i].away, if completed[i].target == 1 then 0 else 1))
  }

  /** `completed[home_team == t]["target"].sum()` plus the count of
      `completed[away_team == t]` rows whose target is not 1. */
  function Baseline(completed: seq<TableRow>, t: string): int {
    Tally(HomeTicks(completed), t) + Tally(AwayTicks(completed), t)
  }

  /** The home and away ticks of the completed games weigh one per game
      when every target is 0 or 1. */
  lemma {:induction false} CompletedWeight(completed: seq<TableRow>)
    requires forall i :: 0 <= i < |completed| ==> completed[i].target == 0 || completed[i].target == 1
    ensures Weight(HomeTicks(completed)) + Weight(AwayTicks(completed)) == |completed|
  {
    if completed != [] {
      var front := completed[..|completed| - 1];
      CompletedWeight(front);
      assert HomeTicks(completed)[..|completed| - 1] == HomeTicks(front);
      assert AwayTicks(completed)[..|completed| - 1] == AwayTicks(front);
    }
  }

  /** The baselines of the clubs `teams`, added up. */
  function SumOfBaselines(teams: seq<string>, completed: seq<TableRow>): int {
    if teams == [] then 0
    else SumOfBaselines(teams[..|teams| - 1], completed) + Baseline(completed, teams[|teams| - 1])
  }

  lemma {:induction false} BaselineSumIsTally(teams: seq<string>, completed: seq<TableRow>)
    ensures SumOfBaselines(teams, completed) == SumOver(teams, HomeTicks(completed) + AwayTicks(completed))
  {
    if teams != [] {
      BaselineSumIsTally(teams[..|teams| - 1], completed);
      TallyConcat(HomeTicks(completed), AwayTicks(completed), teams[|teams| - 1]);
    }
  }

  /** Each completed game gives exactly one club its win: over a club list
      without repeats that names every club of the completed games, the
      baselines add up to the number of completed games. */
  lemma BaselineTotal(teams: seq<string>, completed: seq<TableRow>)
    requires Distinct(teams)
    requires forall i :: 0 <= i < |completed| ==> completed[i].home in teams && completed[i].away in teams
    requires forall i :: 0 <= i < |completed| ==> completed[i].target == 0 || completed[i].target == 1
    ensures SumOfBaselines(teams, completed) == |completed|
  {
    var all := HomeTicks(completed) + AwayTicks(completed);
    forall i | 0 <= i < |all| ensures all[i].team in teams {
    }
    TallyTotal(teams, all);
    BaselineSumIsTally(teams, completed);
    TallyConcat(HomeTicks(completed), AwayTicks(completed), "");
    CompletedWeight(completed);
  }

  // ---------------------------------------------------------------------
  // One trial, lines 37-55

  /** The club a draw credits: the home club when the draw is true. */
  function WinnerOf(row: TableRow, homeWins: bool): string {
    if homeWins then row.home else row.away
  }

  function WinnerTicks(upcoming: seq<TableRow>, draw: seq<bool>): (r: seq<Tick>)
    requires |draw| == |upcoming|
    ensures |r| == |upcoming|
    ensures forall j :: 0 <= j < |upcoming| ==> r[j] == Tick(WinnerOf(upcoming[j], draw[j]), 1)
  {
    seq(|upcoming|, j requires 0 <= j < |upcoming| => Tick(WinnerOf(upcoming[j], draw[j]), 1))
  }

  /** The upcoming games a trial credits to `t`. */
  function Credited(upcoming: seq<TableRow>, draw: seq<bool>, t: string): int
    requires |draw| == |upcoming|
  {
    Tally(WinnerTicks(upcoming, draw), t)
  }

  /** A club's wins in a trial. */
  function TrialWins(completed: seq<TableRow>, upcoming: seq<TableRow>, draw: seq<bool>, t: string): int
    requires |draw| == |upcoming|
  {
    Baseline(completed, t) + Credited(upcoming, draw, t)
  }

  /** The upcoming games `t` takes part in. */
  function GamesIn(upcoming: seq<TableRow>, t: string): nat {
    if upcoming == [] then 0
    else
      var last := upcoming[|upcoming| - 1];
      GamesIn(upcoming[..|upcoming| - 1], t) + (if last.home == t || last.away == t then 1 else 0)
  }

  /** A trial gives a club at least its baseline and at most one more win
      per upcoming game it plays. */
  lemma {:induction false} TrialWinsBounds(completed: seq<TableRow>, upcoming: seq<TableRow>, draw: seq<bool>, t: string)
    requires |draw| == |upcoming|
    ensures Baseline(completed, t) <= TrialWins(completed, upcoming, draw, t) <= Baseline(completed, t) + GamesIn(upcoming, t)
  {
    CreditedBounds(upcoming, draw, t);
  }

  lemma {:induction false} CreditedBounds(upcoming: seq<TableRow>, draw: seq<bool>, t: string)
    requires |draw| == |upcoming|
    ensures 0 <= Credited(upcoming, draw, t) <= GamesIn(upcoming, t)
  {
    if upcoming != [] {
      var n := |upcoming|;
      CreditedBounds(upcoming[..n - 1], draw[..n - 1], t);
      assert WinnerTicks(upcoming, draw)[..n - 1] == WinnerTicks(upcoming[..n - 1], draw[..n - 1]);
    }
  }

  /** Every trial hands out exactly one win per game: the clubs' wins add
      up to the number of completed games plus the number of upcoming ones. */
  lemma TrialTotal(teams: seq<string>, completed: seq<TableRow>, upcoming: seq<TableRow>, draw: seq<bool>)
    requires |draw| == |upcoming| && Distinct(teams)
    requires forall i :: 0 <= i < |completed| ==> completed[i].home in teams && completed[i].away in teams
    requires forall j :: 0 <= j < |upcoming| ==> upcoming[j].home in teams && upcoming[j].away in teams
    requires forall i :: 0 <= i < |completed| ==> completed[i].target == 0 || completed[i].target == 1
    ensures SumOfTrialWins(teams, completed, upcoming, draw) == |completed| + |upcoming|
  {
    var all := HomeTicks(completed) + AwayTicks(completed) + WinnerTicks(upcoming, draw);
    forall i | 0 <= i < |all| ensures all[i].team in teams {
    }
    TallyTotal(teams, all);
    TrialSumIsTally(teams, completed, upcoming, draw);
    TallyConcat(HomeTicks(completed), AwayTicks(completed), "");
    TallyConcat(HomeTicks(completed) + AwayTicks(completed), WinnerTicks(upcoming, draw), "");
    CompletedWeight(completed);
    WinnerWeight(upcoming, draw);
  }

  function SumOfTrialWins(teams: seq<string>, completed: seq<TableRow>, upcoming: seq<TableRow>, draw: seq<bool>): int
    requires |draw| == |upcoming|
  {
    if teams == [] then 0
    else SumOfTrialWins(teams[..|teams| - 1], completed, upcoming, draw) + TrialWins(completed, upcoming, draw, teams[|teams| - 1])
  }

  lemma {:induction false} TrialSumIsTally(teams: seq<string>, completed: seq<TableRow>, upcoming: seq<TableRow>, draw: seq<bool>)
    requires |draw| == |upcoming|
    ensures SumOfTrialWins(teams, completed, upcoming, draw) ==
      SumOver(teams, HomeTicks(completed) + AwayTicks(completed) + WinnerTicks(upcoming, draw))
  {
    if teams != [] {
      var t := teams[|teams| - 1];
      TrialSumIsTally(teams[..|teams| - 1], completed, upcoming, draw);
      TallyConcat(HomeTicks(completed), AwayTicks(completed), t);
      TallyConcat(HomeTicks(completed) + AwayTicks(completed), WinnerTicks(upcoming, draw), t);
    }
  }

  lemma {:induction false} WinnerWeight(upcoming: seq<TableRow>, draw: seq<bool>)
    requires |draw| == |upcoming|
    ensures Weight(WinnerTicks(upcoming, draw)) == |upcoming|
  {
    if upcoming != [] {
      var n := |upcoming|;
      WinnerWeight(upcoming[..n - 1], draw[..n - 1]);
      assert WinnerTicks(upcoming, draw)[..n - 1] == WinnerTicks(upcoming[..n - 1], draw[..n - 1]);
    }
  }

  /** Lines 37-55: the baseline of every club, then one win per upcoming
      game for the club the draw picks. */
  method SimulateTrial(teams: seq<string>, completed: seq<TableRow>, upcoming: seq<TableRow>, draw: seq<bool>)
    returns (simWins: map<string, int>)
    requires |draw| == |upcoming|
    requires forall j :: 0 <= j < |upcoming| ==> upcoming[j].home in teams && upcoming[j].away in teams
    ensures forall t :: t in simWins <==> t in teams
    ensures forall t :: t in teams ==> simWins[t] == TrialWins(completed, upcoming, draw, t)
  {
    simWins := map[];
    var i := 0;
    while i < |teams|
      invariant 0 <= i <= |teams|
      invariant forall t :: t in simWins <==> t in teams[..i]
      invariant forall t :: t in simWins ==> simWins[t] == Baseline(completed, t)
    {
      assert teams[..i + 1] == teams[..i] + [teams[i]];
      simWins := simWins[teams[i] := Baseline(completed, teams[i])];
      i := i + 1;
    }
    assert teams[..i] == teams;
    var j := 0;
    while j < |upcoming|
      invariant 0 <= j <= |upcoming|
      invariant forall t :: t in simWins <==> t in teams
      invariant forall t :: t in simWins ==> simWins[t] == Baseline(completed, t) + Credited(upcoming[..j], draw[..j], t)
    {
      var winner := WinnerOf(upcoming[j], draw[j]);
      CreditedStep(upcoming, draw, j);
      simWins := simWins[winner := simWins[winner] + 1];
      j := j + 1;
    }
    assert upcoming[..j] == upcoming && draw[..j] == draw;
  }

  lemma CreditedStep(upcoming: seq<TableRow>, draw: seq<bool>, j: nat)
    requires |draw| == |upcoming| && j < |upcoming|
    ensures forall t :: (Credited(upcoming[..j + 1], draw[..j + 1], t) ==
      Credited(upcoming[..j], draw[..j], t) + (if WinnerOf(upcoming[j], draw[j]) == t then 1 else 0))
  {
    var w := WinnerTicks(upcoming[..j + 1], draw[..j + 1]);
    assert w[..j] == WinnerTicks(upcoming[..j], draw[..j]);
  }

  // ---------------------------------------------------------------------
  // Ranking, lines 57-66 and 72-78

  /** A club with its score: wins in a trial, mean wins at the end. */
  datatype Entry = Entry(team: string, score: real)

  predicate Descending(s: seq<Entry>) {
    forall i, j :: 0 <= i < j < |s| ==> s[i].score >= s[j].score
  }

  /** Insertion of one entry in front of the first entry with a smaller
      or equal score. */
  function Insert(x: Entry, s: seq<Entry>): (r: seq<Entry>)
    ensures |r| == |s| + 1 && (r[0] == x || (s != [] && r[0] == s[0]))
  {
    if s == [] then [x]
    else if x.score >= s[0].score then [x] + s
    else [s[0]] + Insert(x, s[1..])
  }

  lemma {:induction false} InsertPermutes(x: Entry, s: seq<Entry>)
    ensures multiset(Insert(x, s)) == multiset(s) + multiset{x}
  {
    if s != [] && x.score < s[0].score {
      InsertPermutes(x, s[1..]);
      assert s == [s[0]] + s[1..];
    }
  }

  lemma ConsDescending(y: Entry, rest: seq<Entry>)
    requires Descending(rest) && (rest == [] || y.score >= rest[0].score)
    ensures Descending([y] + rest)
  {
    var r := [y] + rest;
    forall i, j | 0 <= i < j < |r| ensures r[i].score >= r[j].score {
      assert r[j] == rest[j - 1];
      if i > 0 {
        assert r[i] == rest[i - 1];
      } else if j > 1 {
        assert rest[0].score >= rest[j - 1].score;
      }
    }
  }

  lemma {:induction false} InsertSorted(x: Entry, s: seq<Entry>)
    requires Descending(s)
    ensures Descending(Insert(x, s))
  {
    if s != [] {
      if x.score >= s[0].score {
        ConsDescending(x, s);
      } else {
        var tail := s[1..];
        assert Descending(tail) by {
          forall i, j | 0 <= i < j < |tail| ensures tail[i].score >= tail[j].score {
            assert tail[i] == s[i + 1] && tail[j] == s[j + 1];
          }
        }
        InsertSorted(x, tail);
        var rest := Insert(x, tail);
        assert rest[0] == x || rest[0] == s[1];
        ConsDescending(s[0], rest);
      }
    }
  }

  /** `sort_values(..., ascending=False)`. The order of equal scores is not
      specified by the source; this model fixes one. */
  function SortDesc(s: seq<Entry>): (r: seq<Entry>)
    ensures multiset(r) == multiset(s)
    ensures Descending(r)
  {
    if s == [] then []
    else
      var sorted := SortDesc(s[1..]);
      InsertPermutes(s[0], sorted);
      InsertSorted(s[0], sorted);
      assert s == [s[0]] + s[1..];
      Insert(s[0], sorted)
  }

  function TeamsOf(s: seq<Entry>): (r: seq<string>)
    ensures |r| == |s| && forall i :: 0 <= i < |s| ==> r[i] == s[i].team
  {
    seq(|s|, i requires 0 <= i < |s| => s[i].team)
  }

  /** `idx + 1` of the row holding `t`. */
  function RankOf(s: seq<Entry>, t: string): (r: nat)
    requires t in TeamsOf(s)
    ensures 1 <= r <= |s| && s[r - 1].team == t
    ensures forall i :: 0 <= i < r - 1 ==> s[i].team != t
  {
    if s[0].team == t then 1
    else
      assert TeamsOf(s)[1..] == TeamsOf(s[1..]);
      1 + RankOf(s[1..], t)
  }

  /** In a list without repeated clubs, the rank is the club's position, so
      every rank 1..n is taken. */
  lemma {:induction false} RankIsPosition(s: seq<Entry>, k: nat)
    requires Distinct(TeamsOf(s)) && k < |s|
    ensures s[k].team in TeamsOf(s) && RankOf(s, s[k].team) == k + 1
  {
    assert TeamsOf(s)[k] == s[k].team;
    if k > 0 {
      assert TeamsOf(s)[0] != TeamsOf(s)[k];
      assert TeamsOf(s)[1..] == TeamsOf(s[1..]);
      RankIsPosition(s[1..], k - 1);
    }
  }

  /** The ranks of a trial: every club gets a rank in 1..n, different clubs
      get different ranks, and a club with strictly more wins gets a
      strictly better (smaller) rank. */
  lemma RanksArePermutation(s: seq<Entry>, a: string, b: string)
    requires Descending(s) && Distinct(TeamsOf(s))
    requires a in TeamsOf(s) && b in TeamsOf(s)
    ensures 1 <= RankOf(s, a) <= |s|
    ensures a != b ==> RankOf(s, a) != RankOf(s, b)
    ensures s[RankOf(s, a) - 1].score > s[RankOf(s, b) - 1].score ==> RankOf(s, a) < RankOf(s, b)
  {
  }

  lemma {:induction false} MultisetCountOfDistinct(s: seq<Entry>, x: Entry)
    requires Distinct(TeamsOf(s))
    ensures multiset(s)[x] <= 1
  {
    if s != [] {
      var front := s[..|s| - 1];
      assert s == front + [s[|s| - 1]];
      assert TeamsOf(front) == TeamsOf(s)[..|s| - 1];
      MultisetCountOfDistinct(front, x);
      if s[|s| - 1] == x {
        assert x.team !in TeamsOf(front);
        assert x !in front;
      }
    }
  }

  /** A permutation of a list without repeated clubs has no repeated clubs
      either, when each club carries one score. */
  lemma SortedIsDistinct(s: seq<Entry>, r: seq<Entry>)
    requires Distinct(TeamsOf(s)) && multiset(r) == multiset(s)
    ensures Distinct(TeamsOf(r))
  {
    forall i, j | 0 <= i < j < |r| ensures r[i].team != r[j].team {
      if r[i].team == r[j].team {
        assert r[i] in multiset(s) && r[j] in multiset(s);
        var ki :| 0 <= ki < |s| && s[ki] == r[i];
        var kj :| 0 <= kj < |s| && s[kj] == r[j];
        assert TeamsOf(s)[ki] == TeamsOf(s)[kj];
        assert r[i] == r[j];
        MultisetCountOfDistinct(s, r[i]);
        PairCount(r, i, j);
        assert false;
      }
    }
  }

  lemma PairCount(r: seq<Entry>, i: nat, j: nat)
    requires i < j < |r| && r[i] == r[j]
    ensures multiset(r)[r[i]] >= 2
  {
    assert r == r[..i] + [r[i]] + r[i + 1..j] + [r[j]] + r[j + 1..];
  }

  /** The clubs of a list are kept by a permutation of it. */
  lemma PermutationKeepsTeams(s: seq<Entry>, r: seq<Entry>, t: string)
    requires multiset(r) == multiset(s)
    ensures t in TeamsOf(r) <==> t in TeamsOf(s)
  {
    if t in TeamsOf(r) {
      var k :| 0 <= k < |r| && TeamsOf(r)[k] == t;
      assert r[k] in multiset(s);
      var m :| 0 <= m < |s| && s[m] == r[k];
      assert TeamsOf(s)[m] == t;
    }
    if t in TeamsOf(s) {
      var k :| 0 <= k < |s| && TeamsOf(s)[k] == t;
      assert s[k] in multiset(r);
      var m :| 0 <= m < |r| && r[m] == s[k];
      assert TeamsOf(r)[m] == t;
    }
  }


  // ---------------------------------------------------------------------
  // The trials, lines 32-69

  /** The clubs with their wins in one trial, in club-list order. */
  function TrialEntries(teams: seq<string>, completed: seq<TableRow>, upcoming: seq<TableRow>, draw: seq<bool>): (r: seq<Entry>)
    requires |draw| == |upcoming|
    ensures TeamsOf(r) == teams
  {
    seq(|teams|, i requires 0 <= i < |teams| => Entry(teams[i], TrialWins(completed, upcoming, draw, teams[i]) as real))
  }

  /** `sim_rank_df`: a trial's clubs by descending wins; every club appears
      exactly once, carrying its own wins in that trial. */
  function TrialStanding(teams: seq<string>, completed: seq<TableRow>, upcoming: seq<TableRow>, draw: seq<bool>): (r: seq<Entry>)
    requires |draw| == |upcoming| && Distinct(teams)
    ensures Descending(r) && Distinct(TeamsOf(r)) && |r| == |teams|
    ensures forall t :: t in TeamsOf(r) <==> t in teams
    ensures forall i :: 0 <= i < |r| ==> r[i].score == TrialWins(completed, upcoming, draw, r[i].team) as real
  {
    var entries := TrialEntries(teams, completed, upcoming, draw);
    var sorted := SortDesc(entries);
    SortedIsDistinct(entries, sorted);
    forall t ensures t in TeamsOf(sorted) <==> t in teams {
      PermutationKeepsTeams(entries, sorted, t);
    }
    forall i | 0 <= i < |sorted| ensures sorted[i].score == TrialWins(completed, upcoming, draw, sorted[i].team) as real {
      assert sorted[i] in multiset(entries);
      var j :| 0 <= j < |entries| && entries[j] == sorted[i];
    }
    assert |multiset(sorted)| == |multiset(entries)|;
    sorted
  }

  /** In a trial, a club with strictly more wins than another finishes
      strictly ahead of it. */
  lemma MoreWinsRanksHigher(teams: seq<string>, completed: seq<TableRow>, upcoming: seq<TableRow>, draw: seq<bool>, a: string, b: string)
    requires |draw| == |upcoming| && Distinct(teams) && a in teams && b in teams
    requires TrialWins(completed, upcoming, draw, a) > TrialWins(completed, upcoming, draw, b)
    ensures RankOf(TrialStanding(teams, completed, upcoming, draw), a) < RankOf(TrialStanding(teams, completed, upcoming, draw), b)
  {
    var s := TrialStanding(teams, completed, upcoming, draw);
    RanksArePermutation(s, a, b);
  }

  /** Every trial draws one outcome per upcoming game. */
  predicate DrawsFit(draws: seq<seq<bool>>, upcoming: seq<TableRow>) {
    forall k :: 0 <= k < |draws| ==> |draws[k]| == |upcoming|
  }

  /** `total_wins[t]` after the trials `draws`. */
  function WinsSeries(completed: seq<TableRow>, upcoming: seq<TableRow>, draws: seq<seq<bool>>, t: string): (r: seq<int>)
    requires DrawsFit(draws, upcoming)
    ensures |r| == |draws|
  {
    if draws == [] then []
    else WinsSeries(completed, upcoming, draws[..|draws| - 1], t) + [TrialWins(completed, upcoming, draws[|draws| - 1], t)]
  }

  /** `team_ranks[t]` after the trials `draws`. */
  function RankSeries(teams: seq<string>, completed: seq<TableRow>, upcoming: seq<TableRow>, draws: seq<seq<bool>>, t: string): (r: seq<int>)
    requires DrawsFit(draws, upcoming) && Distinct(teams) && t in teams
    ensures |r| == |draws|
  {
    if draws == [] then []
    else
      var standing := TrialStanding(teams, completed, upcoming, draws[|draws| - 1]);
      RankSeries(teams, completed, upcoming, draws[..|draws| - 1], t) + [RankOf(standing, t)]
  }

  /** `total_wins` as a whole. */
  function WinsTable(teams: seq<string>, completed: seq<TableRow>, upcoming: seq<TableRow>, draws: seq<seq<bool>>): map<string, seq<int>>
    requires DrawsFit(draws, upcoming)
  {
    map t | t in teams :: WinsSeries(completed, upcoming, draws, t)
  }

  /** `team_ranks` as a whole. */
  function RanksTable(teams: seq<string>, completed: seq<TableRow>, upcoming: seq<TableRow>, draws: seq<seq<bool>>): map<string, seq<int>>
    requires DrawsFit(draws, upcoming) && Distinct(teams)
  {
    map t | t in teams :: RankSeries(teams, completed, upcoming, draws, t)
  }

  /** The k-th entry of a club's win series is its wins in trial k. */
  lemma {:induction false} WinsSeriesAt(completed: seq<TableRow>, upcoming: seq<TableRow>, draws: seq<seq<bool>>, t: string, k: nat)
    requires DrawsFit(draws, upcoming) && k < |draws|
    ensures WinsSeries(completed, upcoming, draws, t)[k] == TrialWins(completed, upcoming, draws[k], t)
  {
    if k < |draws| - 1 {
      WinsSeriesAt(completed, upcoming, draws[..|draws| - 1], t, k);
    }
  }

  /** The k-th entry of a club's rank series is its rank in trial k, a
      number in 1..n. */
  lemma {:induction false} RankSeriesAt(teams: seq<string>, completed: seq<TableRow>, upcoming: seq<TableRow>, draws: seq<seq<bool>>, t: string, k: nat)
    requires DrawsFit(draws, upcoming) && Distinct(teams) && t in teams && k < |draws|
    ensures RankSeries(teams, completed, upcoming, draws, t)[k] == RankOf(TrialStanding(teams, completed, upcoming, draws[k]), t)
    ensures 1 <= RankSeries(teams, completed, upcoming, draws, t)[k] <= |teams|
  {
    if k < |draws| - 1 {
      RankSeriesAt(teams, completed, upcoming, draws[..|draws| - 1], t, k);
    }
  }

  /** Lines 64-66: every club of the trial's standing gets `idx + 1`. */
  method AppendRanks(standing: seq<Entry>, teamRanks: map<string, seq<int>>) returns (updated: map<string, seq<int>>)
    requires Distinct(TeamsOf(standing))
    requires forall t :: t in TeamsOf(standing) ==> t in teamRanks
    ensures updated.Keys == teamRanks.Keys
    ensures forall t :: t in teamRanks ==>
      updated[t] == teamRanks[t] + (if t in TeamsOf(standing) then [RankOf(standing, t)] else [])
  {
    updated := teamRanks;
    var idx := 0;
    while idx < |standing|
      invariant 0 <= idx <= |standing|
      invariant updated.Keys == teamRanks.Keys
      invariant forall t :: t in teamRanks ==>
        updated[t] == teamRanks[t] + (if t in TeamsOf(standing)[..idx] then [RankOf(standing, t)] else [])
    {
      var team := standing[idx].team;
      RankIsPosition(standing, idx);
      assert TeamsOf(standing)[..idx + 1] == TeamsOf(standing)[..idx] + [team];
      forall m | 0 <= m < idx ensures TeamsOf(standing)[..idx][m] != team {
      }
      updated := updated[team := updated[team] + [idx + 1]];
      idx := idx + 1;
    }
    assert TeamsOf(standing)[..idx] == TeamsOf(standing);
  }

  /** Lines 68-69: every club's trial wins are appended to its series. */
  method AppendWins(teams: seq<string>, simWins: map<string, int>, totalWins: map<string, seq<int>>)
    returns (updated: map<string, seq<int>>)
    requires Distinct(teams)
    requires forall t :: t in teams ==> t in simWins && t in totalWins
    ensures updated.Keys == totalWins.Keys
    ensures forall t :: t in totalWins ==> updated[t] == totalWins[t] + (if t in teams then [simWins[t]] else [])
  {
    updated := totalWins;
    var i := 0;
    while i < |teams|
      invariant 0 <= i <= |teams|
      invariant updated.Keys == totalWins.Keys
      invariant forall t :: t in totalWins ==> updated[t] == totalWins[t] + (if t in teams[..i] then [simWins[t]] else [])
    {
      var team := teams[i];
      assert teams[..i + 1] == teams[..i] + [team];
      forall m | 0 <= m < i ensures teams[..i][m] != team {
      }
      updated := updated[team := updated[team] + [simWins[team]]];
      i := i + 1;
    }
    assert teams[..i] == teams;
  }

  /** One pass of the trial loop, lines 33-69. */
  method RunTrial(teams: seq<string>, completed: seq<TableRow>, upcoming: seq<TableRow>, draw: seq<bool>,
                  totalWins: map<string, seq<int>>, teamRanks: map<string, seq<int>>)
    returns (wins: map<string, seq<int>>, ranks: map<string, seq<int>>)
    requires Distinct(teams) && |draw| == |upcoming|
    requires forall j :: 0 <= j < |upcoming| ==> upcoming[j].home in teams && upcoming[j].away in teams
    requires forall t :: t in teams ==> t in totalWins && t in teamRanks
    ensures wins.Keys == totalWins.Keys && ranks.Keys == teamRanks.Keys
    ensures forall t :: t in teams ==> wins[t] == totalWins[t] + [TrialWins(completed, upcoming, draw, t)]
    ensures forall t :: t in teams ==>
      ranks[t] == teamRanks[t] + [RankOf(TrialStanding(teams, completed, upcoming, draw), t)]
  {
    var simWins := SimulateTrial(teams, completed, upcoming, draw);
    var entries := seq(|teams|, i requires 0 <= i < |teams| => Entry(teams[i], simWins[teams[i]] as real));
    assert entries == TrialEntries(teams, completed, upcoming, draw);
    var standing := SortDesc(entries);
    assert standing == TrialStanding(teams, completed, upcoming, draw);
    ranks := AppendRanks(standing, teamRanks);
    wins := AppendWins(teams, simWins, totalWins);
  }

  lemma WinsSeriesStep(completed: seq<TableRow>, upcoming: seq<TableRow>, draws: seq<seq<bool>>, k: nat, t: string)
    requires DrawsFit(draws, upcoming) && k < |draws|
    ensures DrawsFit(draws[..k + 1], upcoming)
    ensures WinsSeries(completed, upcoming, draws[..k + 1], t)
      == WinsSeries(completed, upcoming, draws[..k], t) + [TrialWins(completed, upcoming, draws[k], t)]
  {
    var p := draws[..k + 1];
    assert p[..|p| - 1] == draws[..k] && p[|p| - 1] == draws[k];
  }

  lemma RankSeriesStep(teams: seq<string>, completed: seq<TableRow>, upcoming: seq<TableRow>, draws: seq<seq<bool>>, k: nat, t: string)
    requires Distinct(teams) && DrawsFit(draws, upcoming) && k < |draws| && t in teams
    ensures DrawsFit(draws[..k + 1], upcoming)
    ensures RankSeries(teams, completed, upcoming, draws[..k + 1], t)
      == RankSeries(teams, completed, upcoming, draws[..k], t) + [RankOf(TrialStanding(teams, completed, upcoming, draws[k]), t)]
  {
    var p := draws[..k + 1];
    assert p[..|p| - 1] == draws[..k] && p[|p| - 1] == draws[k];
  }

  /** Trial k extends every club's win series by its wins in that trial. */
  lemma WinsStep(teams: seq<string>, completed: seq<TableRow>, upcoming: seq<TableRow>, draws: seq<seq<bool>>, k: nat,
                 before: map<string, seq<int>>, wins: map<string, seq<int>>)
    requires DrawsFit(draws, upcoming) && k < |draws|
    requires forall t :: t in teams ==> t in before && before[t] == WinsSeries(completed, upcoming, draws[..k], t)
    requires forall t :: t in teams ==> t in wins && wins[t] == before[t] + [TrialWins(completed, upcoming, draws[k], t)]
    ensures DrawsFit(draws[..k + 1], upcoming)
    ensures forall t :: t in teams ==> wins[t] == WinsSeries(completed, upcoming, draws[..k + 1], t)
  {
    forall t | t in teams ensures wins[t] == WinsSeries(completed, upcoming, draws[..k + 1], t) {
      WinsSeriesStep(completed, upcoming, draws, k, t);
    }
  }

  /** Trial k extends every club's rank series by its rank in that trial. */
  lemma RanksStep(teams: seq<string>, completed: seq<TableRow>, upcoming: seq<TableRow>, draws: seq<seq<bool>>, k: nat,
                  before: map<string, seq<int>>, ranks: map<string, seq<int>>)
    requires Distinct(teams) && DrawsFit(draws, upcoming) && k < |draws|
    requires forall t :: t in teams ==> t in before && before[t] == RankSeries(teams, completed, upcoming, draws[..k], t)
    requires forall t :: t in teams ==>
      (t in ranks && ranks[t] == before[t] + [RankOf(TrialStanding(teams, completed, upcoming, draws[k]), t)])
    ensures DrawsFit(draws[..k + 1], upcoming)
    ensures forall t :: t in teams ==> ranks[t] == RankSeries(teams, completed, upcoming, draws[..k + 1], t)
  {
    forall t | t in teams ensures ranks[t] == RankSeries(teams, completed, upcoming, draws[..k + 1], t) {
      RankSeriesStep(teams, completed, upcoming, draws, k, t);
    }
  }

  lemma IsWinsTable(teams: seq<string>, completed: seq<TableRow>, upcoming: seq<TableRow>, draws: seq<seq<bool>>, m: map<string, seq<int>>)
    requires DrawsFit(draws, upcoming)
    requires forall t :: t in m <==> t in teams
    requires forall t :: t in teams ==> m[t] == WinsSeries(completed, upcoming, draws, t)
    ensures m == WinsTable(teams, completed, upcoming, draws)
  {
  }

  lemma IsRanksTable(teams: seq<string>, completed: seq<TableRow>, upcoming: seq<TableRow>, draws: seq<seq<bool>>, m: map<string, seq<int>>)
    requires DrawsFit(draws, upcoming) && Distinct(teams)
    requires forall t :: t in m <==> t in teams
    requires forall t :: t in teams ==> m[t] == RankSeries(teams, completed, upcoming, draws, t)
    ensures m == RanksTable(teams, completed, upcoming, draws)
  {
  }

  /** Lines 32-69: all trials, collecting each club's wins and ranks. */
  method Simulate(teams: seq<string>, completed: seq<TableRow>, upcoming: seq<TableRow>, draws: seq<seq<bool>>)
    returns (totalWins: map<string, seq<int>>, teamRanks: map<string, seq<int>>)
    requires Distinct(teams) && DrawsFit(draws, upcoming)
    requires forall j :: 0 <= j < |upcoming| ==> upcoming[j].home in teams && upcoming[j].away in teams
    ensures totalWins == WinsTable(teams, completed, upcoming, draws)
    ensures teamRanks == RanksTable(teams, completed, upcoming, draws)
  {
    totalWins := map t | t in teams :: [];
    teamRanks := map t | t in teams :: [];
    var k := 0;
    assert draws[..0] == [];
    while k < |draws|
      invariant 0 <= k <= |draws|
      invariant DrawsFit(draws[..k], upcoming)
      invariant forall t :: t in totalWins <==> t in teams
      invariant forall t :: t in teamRanks <==> t in teams
      invariant forall t :: t in teams ==> totalWins[t] == WinsSeries(completed, upcoming, draws[..k], t)
      invariant forall t :: t in teams ==> teamRanks[t] == RankSeries(teams, completed, upcoming, draws[..k], t)
    {
      var wins, ranks := RunTrial(teams, completed, upcoming, draws[k], totalWins, teamRanks);
      WinsStep(teams, completed, upcoming, draws, k, totalWins, wins);
      RanksStep(teams, completed, upcoming, draws, k, teamRanks, ranks);
      totalWins, teamRanks := wins, ranks;
      k := k + 1;
    }
    assert draws[..k] == draws;
    IsWinsTable(teams, completed, upcoming, draws, totalWins);
    IsRanksTable(teams, completed, upcoming, draws, teamRanks);
  }

  // ---------------------------------------------------------------------
  // Final standings, lines 72-78

  datatype Standing = Standing(rank: int, team: string, predictedWins: real, avgRank: real)

  function Clubs(r: seq<Standing>): (c: seq<string>)
    ensures |c| == |r| && forall i :: 0 <= i < |r| ==> c[i] == r[i].team
  {
    seq(|r|, i requires 0 <= i < |r| => r[i].team)
  }

  /** `np.mean` on a non-empty list, exactly. */
  function Mean(xs: seq<int>): real
    requires |xs| > 0
  {
    Sum(xs) as real / |xs| as real
  }

  lemma {:induction false} SumBounds(xs: seq<int>, lo: int, hi: int)
    requires forall i :: 0 <= i < |xs| ==> lo <= xs[i] <= hi
    ensures lo * |xs| <= Sum(xs) <= hi * |xs|
  {
    if xs != [] {
      SumBounds(xs[..|xs| - 1], lo, hi);
    }
  }

  lemma {:induction false} CastProduct(a: int, b: nat)
    ensures (a * b) as real == a as real * b as real
  {
    if b > 0 {
      CastProduct(a, b - 1);
      assert a * b == a * (b - 1) + a;
      assert a as real * b as real == a as real * (b - 1) as real + a as real;
    }
  }

  lemma CancelPositive(a: real, b: real, n: real)
    requires n > 0.0 && a * n <= b * n
    ensures a <= b
  {
    if a > b {
      assert false;
    }
  }

  /** A mean lies between the least and the greatest possible value. */
  lemma MeanBounds(xs: seq<int>, lo: int, hi: int)
    requires |xs| > 0
    requires forall i :: 0 <= i < |xs| ==> lo <= xs[i] <= hi
    ensures lo as real <= Mean(xs) <= hi as real
  {
    SumBounds(xs, lo, hi);
    CastProduct(lo, |xs|);
    CastProduct(hi, |xs|);
    DivideBounds(Sum(xs) as real, |xs| as real, lo as real, hi as real);
  }

  lemma DivideBounds(total: real, n: real, lo: real, hi: real)
    requires n > 0.0 && lo * n <= total <= hi * n
    ensures lo <= total / n <= hi
  {
    var q := total / n;
    assert q * n == total;
    CancelPositive(lo, q, n);
    CancelPositive(q, hi, n);
  }

  function StandingEntries(teams: seq<string>, totalWins: map<string, seq<int>>): (r: seq<Entry>)
    requires forall t :: t in teams ==> t in totalWins && |totalWins[t]| > 0
    ensures TeamsOf(r) == teams
    ensures forall i :: 0 <= i < |r| ==> r[i].score == Mean(totalWins[r[i].team])
  {
    seq(|teams|, i requires 0 <= i < |teams| => Entry(teams[i], Mean(totalWins[teams[i]])))
  }

  /** Sorting the mean-win entries keeps one entry per club, each with its
      own mean. */
  lemma SortedStandingEntries(teams: seq<string>, totalWins: map<string, seq<int>>, sorted: seq<Entry>)
    requires Distinct(teams) && forall t :: t in teams ==> t in totalWins && |totalWins[t]| > 0
    requires multiset(sorted) == multiset(StandingEntries(teams, totalWins))
    ensures |sorted| == |teams| && Distinct(TeamsOf(sorted))
    ensures forall t :: t in TeamsOf(sorted) <==> t in teams
    ensures forall i :: 0 <= i < |sorted| ==> sorted[i].team in teams && sorted[i].score == Mean(totalWins[sorted[i].team])
  {
    var entries := StandingEntries(teams, totalWins);
    SortedIsDistinct(entries, sorted);
    forall t ensures t in TeamsOf(sorted) <==> t in teams {
      PermutationKeepsTeams(entries, sorted, t);
    }
    forall i | 0 <= i < |sorted| ensures sorted[i] in entries {
      assert sorted[i] in multiset(entries);
    }
    assert |multiset(sorted)| == |multiset(entries)|;
  }

  /** `final_standings`: the clubs by descending mean wins, each once, with
      its mean wins and mean rank, numbered 1..n. */
  function FinalStandings(teams: seq<string>, totalWins: map<string, seq<int>>, teamRanks: map<string, seq<int>>): (r: seq<Standing>)
    requires Distinct(teams)
    requires forall t :: t in teams ==> t in totalWins && |totalWins[t]| > 0 && t in teamRanks && |teamRanks[t]| > 0
    ensures |r| == |teams| && Distinct(Clubs(r))
    ensures forall t :: t in Clubs(r) <==> t in teams
    ensures forall i :: 0 <= i < |r| ==> r[i].rank == i + 1
    ensures forall i, j :: 0 <= i < j < |r| ==> r[i].predictedWins >= r[j].predictedWins
    ensures forall i :: 0 <= i < |r| ==>
      (r[i].team in teams && r[i].predictedWins == Mean(totalWins[r[i].team]) && r[i].avgRank == Mean(teamRanks[r[i].team]))
  {
    var sorted := SortDesc(StandingEntries(teams, totalWins));
    SortedStandingEntries(teams, totalWins, sorted);
    var r := seq(|sorted|, i requires 0 <= i < |sorted| =>
      Standing(i + 1, sorted[i].team, sorted[i].score, Mean(teamRanks[sorted[i].team])));
    assert Clubs(r) == TeamsOf(sorted);
    r
  }

  // ---------------------------------------------------------------------
  // The script

  /** The standings the script prints for a table with upcoming games. */
  function SeasonStandings(features: seq<TableRow>, draws: seq<seq<bool>>): seq<Standing>
    requires |draws| > 0 && DrawsFit(draws, Upcoming(features))
  {
    var teams := TeamList(features);
    TeamListIsClubs(features, "");
    var completed, upcoming := Completed(features), Upcoming(features);
    FinalStandings(teams, WinsTable(teams, completed, upcoming, draws), RanksTable(teams, completed, upcoming, draws))
  }

  /** The upcoming games only involve clubs of the club list. */
  lemma UpcomingClubsListed(features: seq<TableRow>)
    ensures forall j :: 0 <= j < |Upcoming(features)| ==>
      Upcoming(features)[j].home in TeamList(features) && Upcoming(features)[j].away in TeamList(features)
  {
    forall j | 0 <= j < |Upcoming(features)|
      ensures Upcoming(features)[j].home in TeamList(features) && Upcoming(features)[j].away in TeamList(features)
    {
      var x := Upcoming(features)[j];
      assert x in features;
      TeamListIsClubs(features, x.home);
      TeamListIsClubs(features, x.away);
    }
  }

  /** Each club's predicted wins lie between the wins it already has and
      that plus the number of upcoming games it plays, and its mean rank
      between 1 and the number of clubs. */
  lemma StandingBounds(features: seq<TableRow>, draws: seq<seq<bool>>, i: nat)
    requires |draws| > 0 && DrawsFit(draws, Upcoming(features))
    requires i < |SeasonStandings(features, draws)|
    ensures var s := SeasonStandings(features, draws)[i];
      && Baseline(Completed(features), s.team) as real <= s.predictedWins
      && s.predictedWins <= (Baseline(Completed(features), s.team) + GamesIn(Upcoming(features), s.team)) as real
      && 1.0 <= s.avgRank <= |TeamList(features)| as real
  {
    var teams, completed, upcoming := TeamList(features), Completed(features), Upcoming(features);
    TeamListIsClubs(features, "");
    var s := SeasonStandings(features, draws)[i];
    var t := s.team;
    var w := WinsSeries(completed, upcoming, draws, t);
    var base := Baseline(completed, t);
    forall k | 0 <= k < |w| ensures base <= w[k] <= base + GamesIn(upcoming, t) {
      WinsSeriesAt(completed, upcoming, draws, t, k);
      TrialWinsBounds(completed, upcoming, draws[k], t);
    }
    MeanBounds(w, base, base + GamesIn(upcoming, t));
    var rs := RankSeries(teams, completed, upcoming, draws, t);
    forall k | 0 <= k < |rs| ensures 1 <= rs[k] <= |teams| {
      RankSeriesAt(teams, completed, upcoming, draws, t, k);
    }
    MeanBounds(rs, 1, |teams|);
  }

  datatype SeasonOutcome = NoUpcomingGames | Standings(standings: seq<Standing>)

  /** `predict_season.py` after loading the table: nothing is simulated
      without upcoming games; otherwise `NSimulations` trials are run. */
  method PredictSeason(features: seq<TableRow>, draws: seq<seq<bool>>) returns (out: SeasonOutcome)
    requires |draws| == NSimulations && DrawsFit(draws, Upcoming(features))
    ensures out == if Upcoming(features) == [] then NoUpcomingGames else Standings(SeasonStandings(features, draws))
  {
    var upcoming := Upcoming(features);
    var completed := Completed(features);
    if upcoming == [] {
      return NoUpcomingGames;
    }
    var teams := TeamList(features);
    TeamListIsClubs(features, "");
    UpcomingClubsListed(features);
    var totalWins, teamRanks := Simulate(teams, completed, upcoming, draws);
    out := Standings(FinalStandings(teams, totalWins, teamRanks));
  }
}

/**
 * The saved feature table and the row selections the predictors make on
 * it. Before saving, every NaN in a numeric column is replaced by 0.5; the
 * predictors then split the table into scheduled games (target -1) and
 * completed games.
 */
module Table {
  import opened Opt
  import opened StatCache
  import opened Features

  /** The value `fillna` writes into a numeric NaN cell. */
  const FillValue: real := 0.5

  /** One row of the saved table; every numeric cell holds a number. */
  datatype TableRow = TableRow(
    date: int,
    home: string,
    away: string,
    homeStarter: Option<string>,
    awayStarter: Option<string>,
    homeWinPct: real,
    awayWinPct: real,
    homeLast10: real,
    awayLast10: real,
    homeRunsPg: real,
    awayRunsPg: real,
    homeRunsAllowedPg: real,
    awayRunsAllowedPg: real,
    homeEra: real,
    awayEra: real,
    homeWhip: real,
    awayWhip: real,
    homeScore: real,
    awayScore: real,
    target: int)

  function Fill(x: Option<real>): real {
    x.GetOr(FillValue)
  }

  function FillScore(x: Option<int>): real {
    if x.Some? then x.value as real else FillValue
  }

  /** Lines 94-99 on one row. */
  function Backfill(r: FeatureRow): TableRow {
    TableRow(r.date, r.home, r.away, r.homeStarter, r.awayStarter,
      r.homeForm.winPct, r.awayForm.winPct, r.homeForm.last10Pct, r.awayForm.last10Pct,
      Fill(r.homeForm.runsPg), Fill(r.awayForm.runsPg),
      Fill(r.homeForm.runsAllowedPg), Fill(r.awayForm.runsAllowedPg),
      Fill(r.pitching.homeEra), Fill(r.pitching.awayEra),
      Fill(r.pitching.homeWhip), Fill(r.pitching.awayWhip),
      FillScore(r.homeScore), FillScore(r.awayScore), r.target)
  }

  function BackfillTable(rows: seq<FeatureRow>): (t: seq<TableRow>)
    ensures |t| == |rows|
    ensures forall i :: 0 <= i < |rows| ==> t[i] == Backfill(rows[i])
  {
    seq(|rows|, i requires 0 <= i < |rows| => Backfill(rows[i]))
  }

  /** A starter whose statistic the cache could not supply ends up with
      0.5 in the table, not the 4.25 / 1.35 a missing starter gets. The
      same holds for a NaN run rate, and a scheduled game's scores read 0.5. */
  lemma UnknownStatBackfill(r: FeatureRow)
    ensures r.pitching.homeEra.None? ==> Backfill(r).homeEra == FillValue != DefaultEra
    ensures r.pitching.awayEra.None? ==> Backfill(r).awayEra == FillValue != DefaultEra
    ensures r.pitching.homeWhip.None? ==> Backfill(r).homeWhip == FillValue != DefaultWhip
    ensures r.pitching.awayWhip.None? ==> Backfill(r).awayWhip == FillValue != DefaultWhip
    ensures r.homeForm.runsPg.None? ==> Backfill(r).homeRunsPg == FillValue
    ensures r.awayForm.runsPg.None? ==> Backfill(r).awayRunsPg == FillValue
    ensures r.homeForm.runsAllowedPg.None? ==> Backfill(r).homeRunsAllowedPg == FillValue
    ensures r.awayForm.runsAllowedPg.None? ==> Backfill(r).awayRunsAllowedPg == FillValue
    ensures r.homeScore.None? ==> Backfill(r).homeScore == FillValue
    ensures r.awayScore.None? ==> Backfill(r).awayScore == FillValue
  {
  }

  /** Backfilling keeps every present value: the date, the teams, the
      starters, the win and last-ten rates, every run rate, pitcher
      statistic and score that is a number, and the target. */
  lemma BackfillKeepsValues(r: FeatureRow)
    ensures var t := Backfill(r);
      && t.date == r.date && t.home == r.home && t.away == r.away
      && t.homeStarter == r.homeStarter && t.awayStarter == r.awayStarter
      && t.homeWinPct == r.homeForm.winPct && t.awayWinPct == r.awayForm.winPct
      && t.homeLast10 == r.homeForm.last10Pct && t.awayLast10 == r.awayForm.last10Pct
      && (r.homeForm.runsPg.Some? ==> t.homeRunsPg == r.homeForm.runsPg.value)
      && (r.awayForm.runsPg.Some? ==> t.awayRunsPg == r.awayForm.runsPg.value)
      && (r.homeForm.runsAllowedPg.Some? ==> t.homeRunsAllowedPg == r.homeForm.runsAllowedPg.value)
      && (r.awayForm.runsAllowedPg.Some? ==> t.awayRunsAllowedPg == r.awayForm.runsAllowedPg.value)
      && (r.pitching.homeEra.Some? ==> t.homeEra == r.pitching.homeEra.value)
      && (r.pitching.awayEra.Some? ==> t.awayEra == r.pitching.awayEra.value)
      && (r.pitching.homeWhip.Some? ==> t.homeWhip == r.pitching.homeWhip.value)
      && (r.pitching.awayWhip.Some? ==> t.awayWhip == r.pitching.awayWhip.value)
      && (r.homeScore.Some? ==> t.homeScore == r.homeScore.value as real)
      && (r.awayScore.Some? ==> t.awayScore == r.awayScore.value as real)
      && t.target == r.target
  {
  }

  /** A game whose home starter is unknown shows ERA 4.25 and WHIP 1.35 in
      the saved table. */
  lemma MissingStarterInTable(gs: seq<Game>, i: nat, e0: Entries, fetch: string -> Fetch)
    requires i < |gs| && gs[i].homeStarter.None?
    ensures PassShapeHolds(gs, e0, fetch)
    ensures var t := BackfillTable(Pass(gs, e0, fetch).rows)[i];
      t.homeEra == DefaultEra && t.homeWhip == DefaultWhip
  {
    RowReadsPriorState(gs, i, e0, fetch);
    MissingStarterDefaults(Pass(gs[..i], e0, fetch).entries, gs[i], fetch);
  }

  /** `features_df[features_df["target"] == -1]`: every row with target -1,
      as often as the table holds it. */
  function Upcoming(rows: seq<TableRow>): (r: seq<TableRow>)
    ensures forall x :: x in r <==> x in rows && x.target == -1
    ensures |r| <= |rows|
  {
    if rows == [] then []
    else
      (if rows[0].target == -1 then [rows[0]] else []) + Upcoming(rows[1..])
  }

  /** The selection keeps table order: selecting from two stretches of the
      table one after the other is selecting from the whole. */
  lemma {:induction false} UpcomingConcat(a: seq<TableRow>, b: seq<TableRow>)
    ensures Upcoming(a + b) == Upcoming(a) + Upcoming(b)
  {
    if a == [] {
      assert a + b == b;
    } else {
      assert (a + b)[0] == a[0] && (a + b)[1..] == a[1..] + b;
      UpcomingConcat(a[1..], b);
    }
  }

  /** A row with target -1 is kept as often as the table holds it; no other
      row is kept. */
  lemma {:induction false} UpcomingCount(rows: seq<TableRow>, x: TableRow)
    ensures multiset(Upcoming(rows))[x] == if x.target == -1 then multiset(rows)[x] else 0
  {
    if rows != [] {
      assert rows == [rows[0]] + rows[1..];
      UpcomingCount(rows[1..], x);
    }
  }

  /** `features_df[features_df["target"] != -1]`: every other row, as often
      as the table holds it. */
  function Completed(rows: seq<TableRow>): (r: seq<TableRow>)
    ensures forall x :: x in r <==> x in rows && x.target != -1
    ensures |r| <= |rows|
  {
    if rows == [] then []
    else
      (if rows[0].target != -1 then [rows[0]] else []) + Completed(rows[1..])
  }

  /** The selection keeps table order. */
  lemma {:induction false} CompletedConcat(a: seq<TableRow>, b: seq<TableRow>)
    ensures Completed(a + b) == Completed(a) + Completed(b)
  {
    if a == [] {
      assert a + b == b;
    } else {
      assert (a + b)[0] == a[0] && (a + b)[1..] == a[1..] + b;
      CompletedConcat(a[1..], b);
    }
  }

  /** A row with target other than -1 is kept as often as the table holds it;
      no other row is kept. */
  lemma {:induction false} CompletedCount(rows: seq<TableRow>, x: TableRow)
    ensures multiset(Completed(rows))[x] == if x.target != -1 then multiset(rows)[x] else 0
  {
    if rows != [] {
      assert rows == [rows[0]] + rows[1..];
      CompletedCount(rows[1..], x);
    }
  }

  /** Every row is upcoming or completed, never both. */
  lemma {:induction false} SplitCounts(rows: seq<TableRow>)
    ensures |Upcoming(rows)| + |Completed(rows)| == |rows|
  {
    if rows != [] {
      SplitCounts(rows[1..]);
    }
  }

  /** The predictors treat only rows with target -1 as upcoming. */
  lemma NoUpcomingMeansNoScheduledRow(rows: seq<TableRow>)
    ensures Upcoming(rows) == [] <==> forall i :: 0 <= i < |rows| ==> rows[i].target != -1
  {
    if Upcoming(rows) == [] {
      forall i | 0 <= i < |rows| ensures rows[i].target != -1 {
        assert rows[i] in rows;
      }
    }
  }

  /** Lines 75-76 of the game predictor: the scheduled games with exactly
      this home team and this away team. */
  function ScheduledMatchup(rows: seq<TableRow>, home: string, away: string): (r: seq<TableRow>)
    ensures forall x :: x in r <==> x in rows && x.target == -1 && x.home == home && x.away == away
    ensures |r| <= |rows|
  {
    if rows == [] then []
    else
      (if rows[0].target == -1 && rows[0].home == home && rows[0].away == away then [rows[0]] else [])
      + ScheduledMatchup(rows[1..], home, away)
  }

  /** The matchup selection keeps table order, so its first row is the
      matchup's first scheduled row in the table. */
  lemma {:induction false} MatchupConcat(a: seq<TableRow>, b: seq<TableRow>, home: string, away: string)
    ensures ScheduledMatchup(a + b, home, away) == ScheduledMatchup(a, home, away) + ScheduledMatchup(b, home, away)
  {
    if a == [] {
      assert a + b == b;
    } else {
      assert a + b == [a[0]] + (a[1..] + b);
      assert a == [a[0]] + a[1..];
      MatchupCons(a[0], a[1..] + b, home, away);
      MatchupCons(a[0], a[1..], home, away);
      MatchupConcat(a[1..], b, home, away);
      JoinParts(ScheduledMatchup(a + b, home, away), ScheduledMatchup(a, home, away),
        if a[0].target == -1 && a[0].home == home && a[0].away == away then [a[0]] else [],
        ScheduledMatchup(a[1..] + b, home, away), ScheduledMatchup(a[1..], home, away),
        ScheduledMatchup(b, home, away));
    }
  }

  /** Sequence bookkeeping for the step of the induction above. */
  lemma JoinParts<T>(whole: seq<T>, left: seq<T>, h: seq<T>, p: seq<T>, q: seq<T>, r: seq<T>)
    requires whole == h + p && left == h + q && p == q + r
    ensures whole == left + r
  {
    assert h + (q + r) == (h + q) + r;
  }

  lemma MatchupCons(x: TableRow, s: seq<TableRow>, home: string, away: string)
    ensures ScheduledMatchup([x] + s, home, away) ==
      (if x.target == -1 && x.home == home && x.away == away then [x] else []) + ScheduledMatchup(s, home, away)
  {
    assert ([x] + s)[0] == x && ([x] + s)[1..] == s;
  }

  /** A scheduled row of the matchup is kept as often as the table holds it,
      a double-header twice; no other row is kept. */
  lemma {:induction false} MatchupCount(rows: seq<TableRow>, home: string, away: string, x: TableRow)
    ensures multiset(ScheduledMatchup(rows, home, away))[x] == if x.target == -1 && x.home == home && x.away == away then multiset(rows)[x] else 0
  {
    if rows != [] {
      assert rows == [rows[0]] + rows[1..];
      MatchupCount(rows[1..], home, away, x);
    }
  }

  /** The matchup filter keeps the orientation: the same two clubs with
      home and away swapped are not selected. */
  lemma MatchupKeepsOrientation(rows: seq<TableRow>, home: string, away: string, x: TableRow)
    requires home != away && x.home == away && x.away == home
    ensures x !in ScheduledMatchup(rows, home, away)
  {
  }
}

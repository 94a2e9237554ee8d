/**
 * The single-game and the one-day predictors. Both read the saved table,
 * hand the twelve feature columns of the chosen rows to the trained
 * classifier, and report the predicted winner, its win probability and
 * fair American odds. The trained classifier, with its scaler, is a
 * parameter: it maps a feature vector to the home team's win probability.
 */
module Predict {
  import opened Alias
  import opened TeamTables
  import opened Table
  import opened Odds

  /** `X`: the row without the team, starter, target, date and score
      columns, in table column order. */
  function FeatureVector(r: TableRow): (v: seq<real>)
    ensures |v| == 12
    ensures v[0] == r.homeWinPct && v[1] == r.awayWinPct
    ensures v[2] == r.homeLast10 && v[3] == r.awayLast10
    ensures v[4] == r.homeRunsPg && v[5] == r.awayRunsPg
    ensures v[6] == r.homeRunsAllowedPg && v[7] == r.awayRunsAllowedPg
    ensures v[8] == r.homeEra && v[9] == r.awayEra
    ensures v[10] == r.homeWhip && v[11] == r.awayWhip
  {
    [r.homeWinPct, r.awayWinPct, r.homeLast10, r.awayLast10,
     r.homeRunsPg, r.awayRunsPg, r.homeRunsAllowedPg, r.awayRunsAllowedPg,
     r.homeEra, r.awayEra, r.homeWhip, r.awayWhip]
  }

  // ---------------------------------------------------------------------
  // scripts/predict_game.py

  datatype GameOutcome =
    | UnknownTeam(key: string)
    | NoScheduledGames
    | Prediction(pick: Pick, fairOdds: int, row: TableRow)

  /** The script from alias resolution to the fair odds: the home name is
      resolved first, then the away name; the first scheduled row of the
      matchup is the one priced. */
  function PredictGame(rows: seq<TableRow>, homeName: string, awayName: string, classifier: seq<real> -> real): (r: GameOutcome)
    ensures r.UnknownTeam? <==> Normalize(homeName) !in GameTeamNameMap || Normalize(awayName) !in GameTeamNameMap
    ensures r.UnknownTeam? ==>
      r.key == if Normalize(homeName) !in GameTeamNameMap then Normalize(homeName) else Normalize(awayName)
    ensures r.NoScheduledGames? <==> (!r.UnknownTeam? &&
      ScheduledMatchup(rows, GameTeamNameMap[Normalize(homeName)], GameTeamNameMap[Normalize(awayName)]) == [])
    ensures r.Prediction? ==>
      var home, away := GameTeamNameMap[Normalize(homeName)], GameTeamNameMap[Normalize(awayName)];
      && r.row in rows && r.row.target == -1 && r.row.home == home && r.row.away == away
      && r.row == ScheduledMatchup(rows, home, away)[0]
      && r.pick == PickWinner(home, away, classifier(FeatureVector(r.row)))
      && r.fairOdds == ProbToAmerican(r.pick.winProb)
  {
    match Resolve(GameTeamNameMap, homeName)
    case KeyError(k) => UnknownTeam(k)
    case Resolved(home) =>
      match Resolve(GameTeamNameMap, awayName)
      case KeyError(k) => UnknownTeam(k)
      case Resolved(away) =>
        var games := ScheduledMatchup(rows, home, away);
        if games == [] then NoScheduledGames
        else
          var first := games[0];
          assert first in games;
          var pick := PickWinner(home, away, classifier(FeatureVector(first)));
          Prediction(pick, ProbToAmerican(pick.winProb), first)
  }

  /** For two different clubs and a classifier whose output is a
      probability, the reported winner is a side of the game, the home side
      exactly when its probability is at least one half; the other side is
      the loser; and the winner is quoted as a favourite, at -100 or lower. */
  lemma GamePredictionIsFavorite(rows: seq<TableRow>, homeName: string, awayName: string, classifier: seq<real> -> real)
    requires forall v :: 0.0 <= classifier(v) <= 1.0
    requires Normalize(homeName) != Normalize(awayName)
    requires PredictGame(rows, homeName, awayName, classifier).Prediction?
    ensures var r := PredictGame(rows, homeName, awayName, classifier);
      var prob := classifier(FeatureVector(r.row));
      && (r.pick.winner == r.row.home <==> prob >= 0.5)
      && r.pick.loser == (if prob >= 0.5 then r.row.away else r.row.home)
      && r.pick.winner != r.pick.loser
      && 0.5 <= r.pick.winProb <= 1.0
      && r.fairOdds <= -100
  {
    var r := PredictGame(rows, homeName, awayName, classifier);
    GameTeamNameMapInjective();
    assert r.row.home != r.row.away;
    var prob := classifier(FeatureVector(r.row));
    PickIsProper(r.row.home, r.row.away, prob);
    WinnerOdds(r.pick.winProb);
  }

  /** The side with at least even chances is quoted at -100 or lower. */
  lemma WinnerOdds(winProb: real)
    requires 0.5 <= winProb <= 1.0
    ensures ProbToAmerican(winProb) <= -100
  {
    if winProb < 1.0 {
      FavoriteOdds(winProb);
    }
  }

  /** Names that differ only in letter case, padding or interior spaces
      lead to the same prediction. */
  lemma PredictionIgnoresSpelling(rows: seq<TableRow>, homeName: string, homeAlias: string,
                                  awayName: string, awayAlias: string, classifier: seq<real> -> real)
    requires Normalize(homeName) == Normalize(homeAlias) && Normalize(awayName) == Normalize(awayAlias)
    ensures PredictGame(rows, homeName, awayName, classifier) == PredictGame(rows, homeAlias, awayAlias, classifier)
  {
  }

  // ---------------------------------------------------------------------
  // scripts/predict_day.py

  /** `features_df[features_df["date"] == DATE]`: every row of that day,
      played or not, in table order. */
  function OnDate(rows: seq<TableRow>, date: int): (r: seq<TableRow>)
    ensures forall x :: x in r <==> x in rows && x.date == date
    ensures |r| <= |rows|
  {
    if rows == [] then []
    else
      (if rows[0].date == date then [rows[0]] else []) + OnDate(rows[1..], date)
  }

  /** The day's rows come in table order. */
  lemma {:induction false} OnDateConcat(a: seq<TableRow>, b: seq<TableRow>, date: int)
    ensures OnDate(a + b, date) == OnDate(a, date) + OnDate(b, date)
  {
    if a == [] {
      assert a + b == b;
    } else {
      assert (a + b)[0] == a[0] && (a + b)[1..] == a[1..] + b;
      OnDateConcat(a[1..], b, date);
    }
  }

  /** A row of the day is kept as often as the table holds it; no other row
      is kept. */
  lemma {:induction false} OnDateCount(rows: seq<TableRow>, date: int, x: TableRow)
    ensures multiset(OnDate(rows, date))[x] == if x.date == date then multiset(rows)[x] else 0
  {
    if rows != [] {
      assert rows == [rows[0]] + rows[1..];
      OnDateCount(rows[1..], date, x);
    }
  }

  /** A day has no rows exactly when no row carries its date. */
  lemma {:induction false} OnDateEmpty(rows: seq<TableRow>, date: int)
    ensures OnDate(rows, date) == [] <==> forall i :: 0 <= i < |rows| ==> rows[i].date != date
  {
    if rows != [] {
      OnDateEmpty(rows[1..], date);
      assert forall i :: 1 <= i < |rows| ==> rows[i] == rows[1..][i - 1];
    }
  }

  /** One printed line: the teams, the predicted winner, its probability
      and its fair odds. */
  datatype DayLine = DayLine(home: string, away: string, winner: string, winProb: real, odds: int)

  datatype DayOutcome = NoGamesOn(date: int) | Lines(lines: seq<DayLine>)

  /** Lines 60-64 on one row. */
  function DayLineOf(r: TableRow, prob: real): DayLine {
    var pick := PickWinner(r.home, r.away, prob);
    DayLine(r.home, r.away, pick.winner, pick.winProb, ProbToAmerican(pick.winProb))
  }

  /** The script after loading: nothing is predicted for a day without
      rows; otherwise one line per row of that day, in table order. */
  function PredictDay(rows: seq<TableRow>, date: int, classifier: seq<real> -> real): (r: DayOutcome)
    ensures r.NoGamesOn? <==> forall i :: 0 <= i < |rows| ==> rows[i].date != date
    ensures r.Lines? ==> |r.lines| == |OnDate(rows, date)|
    ensures r.Lines? ==> forall i :: 0 <= i < |r.lines| ==>
      var g := OnDate(rows, date)[i];
      r.lines[i].home == g.home && r.lines[i].away == g.away
  {
    var today := OnDate(rows, date);
    OnDateEmpty(rows, date);
    if today == [] then NoGamesOn(date)
    else
      var lines := seq(|today|, i requires 0 <= i < |today| => DayLineOf(today[i], classifier(FeatureVector(today[i]))));
      assert forall i :: 0 <= i < |lines| ==> lines[i] == DayLineOf(today[i], classifier(FeatureVector(today[i])));
      Lines(lines)
  }

  /** Every line of a day's predictions names a side of its game as the
      winner, the home side exactly when its probability is at least one
      half, gives the winner's probability, at least one half, and quotes
      it at -100 or lower. */
  lemma DayLinesAreProper(rows: seq<TableRow>, date: int, classifier: seq<real> -> real, i: nat)
    requires forall v :: 0.0 <= classifier(v) <= 1.0
    requires PredictDay(rows, date, classifier).Lines?
    requires i < |PredictDay(rows, date, classifier).lines|
    requires OnDate(rows, date)[i].home != OnDate(rows, date)[i].away
    ensures var line := PredictDay(rows, date, classifier).lines[i];
      var prob := classifier(FeatureVector(OnDate(rows, date)[i]));
      && (line.winner == line.home <==> prob >= 0.5)
      && line.winner in {line.home, line.away}
      && line.winProb == (if prob >= 0.5 then prob else 1.0 - prob)
      && 0.5 <= line.winProb <= 1.0
      && line.odds <= -100
  {
    var g := OnDate(rows, date)[i];
    var prob := classifier(FeatureVector(g));
    PickIsProper(g.home, g.away, prob);
    WinnerOdds(PickWinner(g.home, g.away, prob).winProb);
  }

  /** The two predictors agree: when the game predictor prices a row that
      is played on the given day, the day predictor prints the same winner,
      probability and odds for it. */
  lemma DayAgreesWithGame(rows: seq<TableRow>, homeName: string, awayName: string, classifier: seq<real> -> real, i: nat)
    requires PredictGame(rows, homeName, awayName, classifier).Prediction?
    requires var g := PredictGame(rows, homeName, awayName, classifier).row;
      i < |OnDate(rows, g.date)| && OnDate(rows, g.date)[i] == g
    ensures var g := PredictGame(rows, homeName, awayName, classifier);
      var day := PredictDay(rows, g.row.date, classifier);
      && day.Lines?
      && day.lines[i].winner == g.pick.winner
      && day.lines[i].winProb == g.pick.winProb
      && day.lines[i].odds == g.fairOdds
  {
    var g := PredictGame(rows, homeName, awayName, classifier);
    var home := GameTeamNameMap[Normalize(homeName)];
    var away := GameTeamNameMap[Normalize(awayName)];
    assert g.row.home == home && g.row.away == away;
  }
}

/**
 * The chronological feature pass over the season's game log. One forward
 * scan keeps a running record per team (games, wins, runs scored, runs
 * allowed, the last ten results). For each game it reads both teams'
 * records as they stand before the game, emits one feature row, and then,
 * unless the game is still scheduled, credits the result to both records.
 *
 * The log is taken as already sorted by date. A score or a starter that is
 * absent from the log (a pandas NaN) is None; runs added to a NaN stay NaN,
 * so the run totals are `Option<int>` with None absorbing.
 */
module Features {
  import opened Opt
  import opened StatCache

  /** One row of the game log. */
  datatype Game = Game(
    date: int,
    home: string,
    away: string,
    status: string,
    homeScore: Option<int>,
    awayScore: Option<int>,
    homeStarter: Option<string>,
    awayStarter: Option<string>)

  predicate IsScheduled(g: Game) {
    g.status == "Scheduled"
  }

  /** The `home_win` column: `Home Score > Away Score`, where any comparison
      with NaN is False. */
  predicate HomeWin(g: Game) {
    g.homeScore.Some? && g.awayScore.Some? && g.homeScore.value > g.awayScore.value
  }

  /** A team's running record, `team_stats[team]`. */
  datatype Record = Record(
    games: nat,
    wins: nat,
    runsScored: Option<int>,
    runsAllowed: Option<int>,
    last10: seq<int>)

  /** The record a team starts with on its first appearance. */
  const NewRecord: Record := Record(0, 0, Some(0), Some(0), [])

  /** The number of results the recent-form window keeps. */
  const WindowSize: nat := 10

  /** `+=` on a run total; NaN absorbs. */
  function Plus(a: Option<int>, b: Option<int>): Option<int> {
    if a.Some? && b.Some? then Some(a.value + b.value) else None
  }

  /** `s[-n:]`. */
  function LastN(s: seq<int>, n: nat): (r: seq<int>)
    ensures |r| == if |s| <= n then |s| else n
  {
    if |s| <= n then s else s[|s| - n..]
  }

  /** `last10.append(x)` followed by `pop(0)` once the list is longer than
      the window. */
  function Push(window: seq<int>, x: int): seq<int> {
    var w := window + [x];
    if |w| > WindowSize then w[1..] else w
  }

  /** Applied to the last ten results of a history, the append-and-evict
      step yields the last ten results of the longer history. */
  lemma PushKeepsLastTen(s: seq<int>, x: int)
    ensures Push(LastN(s, WindowSize), x) == LastN(s + [x], WindowSize)
    ensures |Push(LastN(s, WindowSize), x)| <= WindowSize
  {
    if |s| >= WindowSize {
      assert LastN(s, WindowSize) + [x] == s[|s| - WindowSize..] + [x];
      assert (s[|s| - WindowSize..] + [x])[1..] == (s + [x])[|s| + 1 - WindowSize..];
    }
  }

  /** Appending an eleventh result to a full window drops the oldest one. */
  lemma PushEvictsOldest(window: seq<int>, x: int)
    requires |window| == WindowSize
    ensures Push(window, x) == window[1..] + [x]
  {
  }

  /** One game from one team's side. */
  datatype Outcome = Outcome(won: bool, scored: Option<int>, allowed: Option<int>)

  function HomeSide(g: Game): Outcome {
    Outcome(HomeWin(g), g.homeScore, g.awayScore)
  }

  /** The away team is credited with a win whenever the home team did not
      win, so a tie, or a game with a missing score, is an away win. */
  function AwaySide(g: Game): Outcome {
    Outcome(!HomeWin(g), g.awayScore, g.homeScore)
  }

  /** The five updates of one side of a completed game (lines 77-83 for the
      home team, 85-91 for the away team). */
  function Credit(r: Record, o: Outcome): Record {
    Record(
      r.games + 1,
      r.wins + (if o.won then 1 else 0),
      Plus(r.runsScored, o.scored),
      Plus(r.runsAllowed, o.allowed),
      Push(r.last10, if o.won then 1 else 0))
  }

  type Teams = map<string, Record>

  /** Lines 35-43: both teams get a fresh record on their first appearance. */
  function Enroll(t: Teams, g: Game): (r: Teams)
    ensures r.Keys == t.Keys + {g.home, g.away}
    ensures forall k :: k in t ==> r[k] == t[k]
    ensures forall k :: k in r && k !in t ==> r[k] == NewRecord
  {
    var t1 := if g.home in t then t else t[g.home := NewRecord];
    if g.away in t1 then t1 else t1[g.away := NewRecord]
  }

  /** The state change one game causes: enrolment, then, for a game that is
      not scheduled, the home update followed by the away update. */
  function Apply(t: Teams, g: Game): Teams {
    var e := Enroll(t, g);
    if IsScheduled(g) then e
    else
      var t1 := e[g.home := Credit(e[g.home], HomeSide(g))];
      t1[g.away := Credit(t1[g.away], AwaySide(g))]
  }

  /** `team_stats` after the scan has processed `gs`. */
  function TeamsAfter(gs: seq<Game>): Teams
    decreases |gs|
  {
    if gs == [] then map[] else Apply(TeamsAfter(gs[..|gs| - 1]), gs[|gs| - 1])
  }

  // ---------------------------------------------------------------------
  // An independent description of a record: the team's own results

  /** Whether `t` plays in some game of `gs`. */
  predicate Appears(gs: seq<Game>, t: string) {
    exists i :: 0 <= i < |gs| && (gs[i].home == t || gs[i].away == t)
  }

  /** The sides `t` played in game `g` (none for a scheduled game, both,
      home first, for a game of a team against itself). */
  function SidesIn(g: Game, t: string): seq<Outcome> {
    if IsScheduled(g) then []
    else (if g.home == t then [HomeSide(g)] else []) + (if g.away == t then [AwaySide(g)] else [])
  }

  /** The sides `t` played in the completed games of `gs`, in order. */
  function History(gs: seq<Game>, t: string): seq<Outcome>
    decreases |gs|
  {
    if gs == [] then [] else History(gs[..|gs| - 1], t) + SidesIn(gs[|gs| - 1], t)
  }

  function Results(h: seq<Outcome>): (r: seq<int>)
    ensures |r| == |h|
    ensures forall i :: 0 <= i < |h| ==> r[i] == if h[i].won then 1 else 0
  {
    if h == [] then [] else Results(h[..|h| - 1]) + [if h[|h| - 1].won then 1 else 0]
  }

  function Wins(h: seq<Outcome>): (n: nat)
    ensures n <= |h|
  {
    if h == [] then 0 else Wins(h[..|h| - 1]) + (if h[|h| - 1].won then 1 else 0)
  }

  function ScoredTotal(h: seq<Outcome>): Option<int> {
    if h == [] then Some(0) else Plus(ScoredTotal(h[..|h| - 1]), h[|h| - 1].scored)
  }

  function AllowedTotal(h: seq<Outcome>): Option<int> {
    if h == [] then Some(0) else Plus(AllowedTotal(h[..|h| - 1]), h[|h| - 1].allowed)
  }

  /** The record a history describes: its length, its wins, its run totals
      and its last ten results. */
  function Summarize(h: seq<Outcome>): Record {
    Record(|h|, Wins(h), ScoredTotal(h), AllowedTotal(h), LastN(Results(h), WindowSize))
  }

  lemma CreditSummarize(h: seq<Outcome>, o: Outcome)
    ensures Credit(Summarize(h), o) == Summarize(h + [o])
  {
    var h' := h + [o];
    assert h'[..|h'| - 1] == h;
    PushKeepsLastTen(Results(h), if o.won then 1 else 0);
  }

  lemma {:induction false} HistoryOfAbsent(gs: seq<Game>, t: string)
    requires !Appears(gs, t)
    ensures History(gs, t) == []
    decreases |gs|
  {
    if gs != [] {
      var p := gs[..|gs| - 1];
      assert forall i :: 0 <= i < |p| ==> p[i] == gs[i];
      HistoryOfAbsent(p, t);
      assert gs[|gs| - 1].home != t && gs[|gs| - 1].away != t;
    }
  }

  lemma AppearsExtend(gs: seq<Game>, t: string)
    requires gs != []
    ensures Appears(gs, t) <==>
      Appears(gs[..|gs| - 1], t) || gs[|gs| - 1].home == t || gs[|gs| - 1].away == t
  {
    var p := gs[..|gs| - 1];
    if Appears(gs, t) {
      var i :| 0 <= i < |gs| && (gs[i].home == t || gs[i].away == t);
      if i < |p| {
        assert p[i] == gs[i];
      }
    }
    if Appears(p, t) {
      var i :| 0 <= i < |p| && (p[i].home == t || p[i].away == t);
      assert gs[i] == p[i];
    }
  }

  /** A game leaves the record of a team that does not play in it alone. */
  lemma ApplyElsewhere(t: Teams, g: Game, k: string)
    requires k != g.home && k != g.away
    ensures k in Apply(t, g) <==> k in t
    ensures k in t ==> Apply(t, g)[k] == t[k]
  {
  }

  /** A game turns the summary of a playing team's sides into the summary
      of those sides followed by its sides in this game. */
  lemma ApplyPlaying(t: Teams, g: Game, k: string, h: seq<Outcome>)
    requires k == g.home || k == g.away
    requires k in t ==> t[k] == Summarize(h)
    requires k !in t ==> h == []
    ensures k in Apply(t, g) && Apply(t, g)[k] == Summarize(h + SidesIn(g, k))
  {
    var e := Enroll(t, g);
    assert Summarize([]) == NewRecord;
    assert e[k] == Summarize(h);
    if IsScheduled(g) {
      assert h + SidesIn(g, k) == h;
    } else {
      CompletedPlaying(e, g, k, h);
    }
  }

  lemma CompletedPlaying(e: Teams, g: Game, k: string, h: seq<Outcome>)
    requires !IsScheduled(g) && (k == g.home || k == g.away)
    requires g.home in e && g.away in e && e[k] == Summarize(h)
    ensures var t1 := e[g.home := Credit(e[g.home], HomeSide(g))];
      var t2 := t1[g.away := Credit(t1[g.away], AwaySide(g))];
      t2[k] == Summarize(h + SidesIn(g, k))
  {
    if g.home == k && g.away == k {
      CreditSummarize(h, HomeSide(g));
      CreditSummarize(h + [HomeSide(g)], AwaySide(g));
      assert h + SidesIn(g, k) == h + [HomeSide(g)] + [AwaySide(g)];
    } else if g.home == k {
      CreditSummarize(h, HomeSide(g));
      assert h + SidesIn(g, k) == h + [HomeSide(g)];
    } else {
      CreditSummarize(h, AwaySide(g));
      assert h + SidesIn(g, k) == h + [AwaySide(g)];
    }
  }

  /** Every team that has played is enrolled, no other, and its record is
      exactly the summary of its own results: games played, games won, runs
      for and against, and the last ten results, oldest first. */
  lemma {:induction false} RecordIsHistory(gs: seq<Game>, t: string)
    ensures t in TeamsAfter(gs) <==> Appears(gs, t)
    ensures t in TeamsAfter(gs) ==> TeamsAfter(gs)[t] == Summarize(History(gs, t))
    decreases |gs|
  {
    if gs != [] {
      var p := gs[..|gs| - 1];
      var g := gs[|gs| - 1];
      RecordIsHistory(p, t);
      AppearsExtend(gs, t);
      if t != g.home && t != g.away {
        ApplyElsewhere(TeamsAfter(p), g, t);
        assert SidesIn(g, t) == [];
        assert History(gs, t) == History(p, t);
      } else {
        if t !in TeamsAfter(p) {
          HistoryOfAbsent(p, t);
        }
        ApplyPlaying(TeamsAfter(p), g, t, History(p, t));
      }
    }
  }

  /** The invariants every record keeps: no more wins than games, a window of
      at most ten results, each a 1 or a 0. */
  predicate Sane(r: Record) {
    && r.wins <= r.games
    && |r.last10| <= WindowSize
    && |r.last10| <= r.games
    && forall i :: 0 <= i < |r.last10| ==> r.last10[i] == 0 || r.last10[i] == 1
  }

  lemma SummarizeSane(h: seq<Outcome>)
    ensures Sane(Summarize(h))
  {
    var rs := Results(h);
    var w := LastN(rs, WindowSize);
    forall i | 0 <= i < |w| ensures w[i] == 0 || w[i] == 1 {
      if |rs| > WindowSize {
        assert w[i] == rs[|rs| - WindowSize + i];
      }
    }
  }

  /** After any prefix of the log, every record is sane. */
  lemma RecordsStaySane(gs: seq<Game>, t: string)
    requires t in TeamsAfter(gs)
    ensures Sane(TeamsAfter(gs)[t])
  {
    RecordIsHistory(gs, t);
    SummarizeSane(History(gs, t));
  }

  /** A scheduled game enrols its teams and changes no record. */
  lemma ScheduledLeavesRecords(gs: seq<Game>, g: Game)
    requires IsScheduled(g)
    ensures var before, after := TeamsAfter(gs), TeamsAfter(gs + [g]);
      && after.Keys == before.Keys + {g.home, g.away}
      && (forall k :: k in before ==> after[k] == before[k])
      && (forall k :: k in after && k !in before ==> after[k] == NewRecord)
  {
    assert (gs + [g])[..|gs + [g]| - 1] == gs;
  }

  /** A completed game between two different teams adds one game to each,
      one win to exactly one of them (to the home team exactly when it
      scored more), the scores to the run totals on both sides, and leaves
      every other team alone. */
  lemma CompletedGameCredit(gs: seq<Game>, g: Game)
    requires !IsScheduled(g) && g.home != g.away
    ensures var before := Enroll(TeamsAfter(gs), g);
      var after := TeamsAfter(gs + [g]);
      var hb, ab, ha, aa := before[g.home], before[g.away], after[g.home], after[g.away];
      && after.Keys == before.Keys
      && ha.games == hb.games + 1 && aa.games == ab.games + 1
      && ha.wins == hb.wins + (if HomeWin(g) then 1 else 0)
      && aa.wins == ab.wins + (if HomeWin(g) then 0 else 1)
      && ha.runsScored == Plus(hb.runsScored, g.homeScore) && ha.runsAllowed == Plus(hb.runsAllowed, g.awayScore)
      && aa.runsScored == Plus(ab.runsScored, g.awayScore) && aa.runsAllowed == Plus(ab.runsAllowed, g.homeScore)
      && (forall k :: k in before && k != g.home && k != g.away ==> after[k] == before[k])
  {
    assert (gs + [g])[..|gs + [g]| - 1] == gs;
  }

  /** With both scores present, a tie is credited to the away team. */
  lemma TieIsAwayWin(g: Game)
    requires g.homeScore.Some? && g.awayScore.Some? && g.homeScore.value == g.awayScore.value
    ensures !HomeSide(g).won && AwaySide(g).won
  {
  }

  /** A game that is not scheduled but has no home score (postponed, say)
      still counts as played, as an away win. It makes NaN of the home
      team's runs scored and the away team's runs allowed, and of the other
      two run totals as well when the away score is missing too. */
  lemma UnplayedGameCountsAsAwayWin(t: Teams, g: Game)
    requires !IsScheduled(g) && g.home != g.away && g.homeScore.None?
    ensures var after := Apply(t, g);
      && after[g.away].wins == Enroll(t, g)[g.away].wins + 1
      && after[g.home].runsScored.None? && after[g.away].runsAllowed.None?
      && (g.awayScore.None? ==> after[g.home].runsAllowed.None? && after[g.away].runsScored.None?)
  {
  }

  // ---------------------------------------------------------------------
  // Runs scored and runs allowed balance over the league

  /** The teams in order of first appearance, which is the key order of
      `team_stats`. */
  function Order(gs: seq<Game>): seq<string>
    decreases |gs|
  {
    if gs == [] then []
    else
      var o := Order(gs[..|gs| - 1]);
      var g := gs[|gs| - 1];
      var o1 := if g.home in o then o else o + [g.home];
      if g.away in o1 then o1 else o1 + [g.away]
  }

  predicate Distinct(s: seq<string>) {
    forall i, j :: 0 <= i < j < |s| ==> s[i] != s[j]
  }

  lemma {:induction false} OrderListsTeams(gs: seq<Game>)
    ensures Distinct(Order(gs))
    ensures forall k :: k in Order(gs) <==> k in TeamsAfter(gs)
    decreases |gs|
  {
    if gs != [] {
      OrderListsTeams(gs[..|gs| - 1]);
    }
  }

  datatype Column = Scored | Allowed

  function Runs(r: Record, c: Column): Option<int> {
    match c
    case Scored => r.runsScored
    case Allowed => r.runsAllowed
  }

  /** The sum of one run column over the teams `ks`. */
  function Total(t: Teams, ks: seq<string>, c: Column): Option<int>
    requires forall k :: k in ks ==> k in t
  {
    if ks == [] then Some(0) else Plus(Total(t, ks[..|ks| - 1], c), Runs(t[ks[|ks| - 1]], c))
  }

  lemma PlusShuffle(a: Option<int>, b: Option<int>, x: Option<int>)
    ensures Plus(Plus(a, x), b) == Plus(Plus(a, b), x)
    ensures Plus(a, Plus(b, x)) == Plus(Plus(a, b), x)
  {
  }

  lemma {:induction false} TotalFrame(t: Teams, u: Teams, ks: seq<string>, c: Column)
    requires forall k :: k in ks ==> k in t && k in u && Runs(t[k], c) == Runs(u[k], c)
    ensures Total(t, ks, c) == Total(u, ks, c)
  {
    if ks != [] {
      TotalFrame(t, u, ks[..|ks| - 1], c);
    }
  }

  /** Adding `x` to one team's column adds `x` to the league total. */
  lemma {:induction false} TotalAdd(t: Teams, ks: seq<string>, k: string, r: Record, x: Option<int>, c: Column)
    requires Distinct(ks) && k in ks
    requires forall j :: j in ks ==> j in t
    requires Runs(r, c) == Plus(Runs(t[k], c), x)
    ensures Total(t[k := r], ks, c) == Plus(Total(t, ks, c), x)
  {
    var u := t[k := r];
    var front, last := ks[..|ks| - 1], ks[|ks| - 1];
    if last == k {
      assert k !in front;
      TotalFrame(t, u, front, c);
      PlusShuffle(Total(t, front, c), Runs(t[k], c), x);
    } else {
      assert k in front;
      TotalAdd(t, front, k, r, x, c);
      PlusShuffle(Total(t, front, c), Runs(t[last], c), x);
    }
  }

  /** A team with a fresh record adds nothing to a total. */
  lemma TotalOfNewcomer(t: Teams, o: seq<string>, k: string, c: Column)
    requires forall j :: j in o ==> j in t
    requires k in t && t[k] == NewRecord
    ensures Total(t, o + [k], c) == Total(t, o, c)
  {
    assert (o + [k])[..|o + [k]| - 1] == o;
  }

  /** Enrolling a team adds its zero totals. */
  lemma EnrollTotals(before: Teams, o: seq<string>, g: Game, c: Column)
    requires forall k :: k in o <==> k in before
    ensures var o1 := if g.home in o then o else o + [g.home];
      var o2 := if g.away in o1 then o1 else o1 + [g.away];
      && (forall k :: k in o2 ==> k in Enroll(before, g))
      && Total(Enroll(before, g), o2, c) == Total(before, o, c)
  {
    var e := Enroll(before, g);
    var o1 := if g.home in o then o else o + [g.home];
    var o2 := if g.away in o1 then o1 else o1 + [g.away];
    TotalFrame(before, e, o, c);
    if g.home !in o {
      TotalOfNewcomer(e, o, g.home, c);
    }
    if g.away !in o1 {
      TotalOfNewcomer(e, o1, g.away, c);
    }
  }

  /** Summed over all teams, runs scored equal runs allowed, after every
      prefix of the log: each completed game adds its home score and its away
      score to both sums. */
  lemma {:induction false} RunsBalance(gs: seq<Game>)
    ensures forall k :: k in Order(gs) <==> k in TeamsAfter(gs)
    ensures Total(TeamsAfter(gs), Order(gs), Scored) == Total(TeamsAfter(gs), Order(gs), Allowed)
    decreases |gs|
  {
    OrderListsTeams(gs);
    if gs != [] {
      var p := gs[..|gs| - 1];
      var g := gs[|gs| - 1];
      RunsBalance(p);
      OrderListsTeams(p);
      var o := Order(gs);
      var e := Enroll(TeamsAfter(p), g);
      EnrollTotals(TeamsAfter(p), Order(p), g, Scored);
      EnrollTotals(TeamsAfter(p), Order(p), g, Allowed);
      if !IsScheduled(g) {
        assert TeamsAfter(gs) == Apply(TeamsAfter(p), g);
        CreditBalances(e, o, g);
      }
    }
  }

  /** Crediting a completed game adds the home score and the away score to
      both sums, so a balance is kept. */
  lemma CreditBalances(e: Teams, o: seq<string>, g: Game)
    requires Distinct(o) && g.home in o && g.away in o
    requires forall k :: k in o ==> k in e
    requires Total(e, o, Scored) == Total(e, o, Allowed)
    ensures var t1 := e[g.home := Credit(e[g.home], HomeSide(g))];
      var t2 := t1[g.away := Credit(t1[g.away], AwaySide(g))];
      Total(t2, o, Scored) == Total(t2, o, Allowed)
  {
    var t1 := e[g.home := Credit(e[g.home], HomeSide(g))];
    TotalAdd(e, o, g.home, Credit(e[g.home], HomeSide(g)), g.homeScore, Scored);
    TotalAdd(e, o, g.home, Credit(e[g.home], HomeSide(g)), g.awayScore, Allowed);
    TotalAdd(t1, o, g.away, Credit(t1[g.away], AwaySide(g)), g.awayScore, Scored);
    TotalAdd(t1, o, g.away, Credit(t1[g.away], AwaySide(g)), g.homeScore, Allowed);
    PlusShuffle(Total(e, o, Scored), g.awayScore, g.homeScore);
  }

  // ---------------------------------------------------------------------
  // Feature rows

  /** The four team-form features of one side: win percentage, recent win
      percentage, runs per game and runs allowed per game. The two run
      rates are NaN (None) once a NaN score has entered the totals. */
  datatype Form = Form(winPct: real, last10Pct: real, runsPg: Option<real>, runsAllowedPg: Option<real>)

  /** The features of a team without a completed game. */
  const NeutralForm: Form := Form(0.5, 0.5, Some(4.5), Some(4.5))

  function Sum(s: seq<int>): int {
    if s == [] then 0 else Sum(s[..|s| - 1]) + s[|s| - 1]
  }

  function PerGame(runs: Option<int>, games: nat): Option<real>
    requires games > 0
  {
    if runs.Some? then Some(runs.value as real / games as real) else None
  }

  /** Lines 55-62 for one team. */
  function FormOf(r: Record): Form {
    var window := LastN(r.last10, WindowSize);
    Form(
      if r.games > 0 then r.wins as real / r.games as real else 0.5,
      if r.last10 != [] then Sum(window) as real / |window| as real else 0.5,
      if r.games > 0 then PerGame(r.runsScored, r.games) else Some(4.5),
      if r.games > 0 then PerGame(r.runsAllowed, r.games) else Some(4.5))
  }

  /** The neutral defaults: a team without games gets .5, 4.5 and 4.5, an
      empty window gets .5, and a sane record without games has both. */
  lemma FormDefaults(r: Record)
    ensures r.games == 0 ==> FormOf(r).winPct == 0.5 && FormOf(r).runsPg == Some(4.5) && FormOf(r).runsAllowedPg == Some(4.5)
    ensures r.last10 == [] ==> FormOf(r).last10Pct == 0.5
    ensures Sane(r) && r.games == 0 ==> FormOf(r) == NeutralForm
  {
  }

  lemma {:induction false} SumOfBits(s: seq<int>)
    requires forall i :: 0 <= i < |s| ==> s[i] == 0 || s[i] == 1
    ensures 0 <= Sum(s) <= |s|
  {
    if s != [] {
      SumOfBits(s[..|s| - 1]);
    }
  }

  lemma RatioAtMostOne(a: int, b: int)
    requires 0 <= a <= b && b > 0
    ensures 0.0 <= a as real / b as real <= 1.0
  {
    var q := a as real / b as real;
    assert q * b as real == a as real;
    if q > 1.0 {
      assert false;
    }
  }

  /** For a sane record both percentages lie between 0 and 1. */
  lemma FormBounds(r: Record)
    requires Sane(r)
    ensures 0.0 <= FormOf(r).winPct <= 1.0 && 0.0 <= FormOf(r).last10Pct <= 1.0
  {
    if r.games > 0 {
      RatioAtMostOne(r.wins, r.games);
    }
    if r.last10 != [] {
      assert LastN(r.last10, WindowSize) == r.last10;
      SumOfBits(r.last10);
      RatioAtMostOne(Sum(r.last10), |r.last10|);
    }
  }

  const DefaultEra: real := 4.25
  const DefaultWhip: real := 1.35

  /** The four pitcher features, None where the cache answered None. */
  datatype Pitching = Pitching(homeEra: Option<real>, awayEra: Option<real>, homeWhip: Option<real>, awayWhip: Option<real>)

  /** The pitcher features of a game and the cache afterwards. */
  datatype Priced = Priced(pitching: Pitching, entries: Entries)

  /** Lines 63-66 for one feature: a known starter is looked up, a missing
      one gets the default. */
  function StarterStat(e: Entries, starter: Option<string>, stat: string, default: real, fetch: string -> Fetch): Answer {
    if starter.None? then Answer(Some(default), e) else Lookup(e, starter.value, stat, DefaultSeason, fetch)
  }

  /** The four lookups in the order the feature dict evaluates them. */
  function PitchingOf(e: Entries, g: Game, fetch: string -> Fetch): Priced {
    var a1 := StarterStat(e, g.homeStarter, "era", DefaultEra, fetch);
    var a2 := StarterStat(a1.entries, g.awayStarter, "era", DefaultEra, fetch);
    var a3 := StarterStat(a2.entries, g.homeStarter, "whip", DefaultWhip, fetch);
    var a4 := StarterStat(a3.entries, g.awayStarter, "whip", DefaultWhip, fetch);
    Priced(Pitching(a1.value, a2.value, a3.value, a4.value), a4.entries)
  }

  /** A missing starter gets ERA 4.25 and WHIP 1.35, and no lookup is made
      for that side. */
  lemma MissingStarterDefaults(e: Entries, g: Game, fetch: string -> Fetch)
    ensures g.homeStarter.None? ==>
      PitchingOf(e, g, fetch).pitching.homeEra == Some(DefaultEra) && PitchingOf(e, g, fetch).pitching.homeWhip == Some(DefaultWhip)
    ensures g.awayStarter.None? ==>
      PitchingOf(e, g, fetch).pitching.awayEra == Some(DefaultEra) && PitchingOf(e, g, fetch).pitching.awayWhip == Some(DefaultWhip)
    ensures g.homeStarter.None? && g.awayStarter.None? ==> PitchingOf(e, g, fetch).entries == e
  {
  }

  /** The cache only grows: a stored stat keeps its value. */
  lemma PitchingKeepsCache(e: Entries, g: Game, fetch: string -> Fetch, p: string, s: string)
    requires Hit(e, p, s)
    ensures Hit(PitchingOf(e, g, fetch).entries, p, s) && PitchingOf(e, g, fetch).entries[p][s] == e[p][s]
  {
    var a1 := StarterStat(e, g.homeStarter, "era", DefaultEra, fetch);
    var a2 := StarterStat(a1.entries, g.awayStarter, "era", DefaultEra, fetch);
    var a3 := StarterStat(a2.entries, g.homeStarter, "whip", DefaultWhip, fetch);
    if g.homeStarter.Some? {
      HitKept(e, g.homeStarter.value, "era", fetch, p, s);
    }
    if g.awayStarter.Some? {
      HitKept(a1.entries, g.awayStarter.value, "era", fetch, p, s);
    }
    if g.homeStarter.Some? {
      HitKept(a2.entries, g.homeStarter.value, "whip", fetch, p, s);
    }
    if g.awayStarter.Some? {
      HitKept(a3.entries, g.awayStarter.value, "whip", fetch, p, s);
    }
  }

  lemma HitKept(e: Entries, player: string, stat: string, fetch: string -> Fetch, p: string, s: string)
    requires Hit(e, p, s)
    ensures var r := Lookup(e, player, stat, DefaultSeason, fetch).entries;
      Hit(r, p, s) && r[p][s] == e[p][s]
  {
    if p != player || s != stat {
      LookupFrame(e, player, stat, DefaultSeason, fetch, p, s);
    }
  }

  /** The `target` column: -1 for a scheduled game, otherwise `home_win`. */
  function Target(g: Game): (r: int)
    ensures r == -1 <==> IsScheduled(g)
    ensures r == 1 <==> !IsScheduled(g) && HomeWin(g)
    ensures r == 0 <==> !IsScheduled(g) && !HomeWin(g)
  {
    if IsScheduled(g) then -1 else if HomeWin(g) then 1 else 0
  }

  /** One entry of `features`. */
  datatype FeatureRow = FeatureRow(
    date: int,
    home: string,
    away: string,
    homeStarter: Option<string>,
    awayStarter: Option<string>,
    homeForm: Form,
    awayForm: Form,
    pitching: Pitching,
    homeScore: Option<int>,
    awayScore: Option<int>,
    target: int)

  /** Lines 49-71: the row of game `g`, from the enrolled records `t`. */
  function RowOf(t: Teams, g: Game, p: Pitching): (r: FeatureRow)
    requires g.home in t && g.away in t
    ensures Carries(r, g)
    ensures r.homeForm == FormOf(t[g.home]) && r.awayForm == FormOf(t[g.away]) && r.pitching == p
  {
    FeatureRow(g.date, g.home, g.away, g.homeStarter, g.awayStarter,
      FormOf(t[g.home]), FormOf(t[g.away]), p, g.homeScore, g.awayScore, Target(g))
  }

  /** The row names the game's teams and starters, copies its date and
      scores, and carries its target. */
  predicate Carries(row: FeatureRow, g: Game) {
    && row.date == g.date && row.home == g.home && row.away == g.away
    && row.homeStarter == g.homeStarter && row.awayStarter == g.awayStarter
    && row.homeScore == g.homeScore && row.awayScore == g.awayScore
    && row.target == Target(g)
  }

  datatype PassState = PassState(rows: seq<FeatureRow>, entries: Entries)

  /** One iteration of the scan: the row of `g` is appended, computed from
      the records `t` before the game and the cache before the game. */
  function Step(s: PassState, t: Teams, g: Game, fetch: string -> Fetch): (r: PassState)
    ensures |r.rows| == |s.rows| + 1 && r.rows[..|s.rows|] == s.rows
    ensures Carries(r.rows[|s.rows|], g)
  {
    var priced := PitchingOf(s.entries, g, fetch);
    PassState(s.rows + [RowOf(Enroll(t, g), g, priced.pitching)], priced.entries)
  }

  /** The rows emitted for `gs` and the pitcher cache afterwards, starting
      from the cache `e0`. */
  function Pass(gs: seq<Game>, e0: Entries, fetch: string -> Fetch): PassState
    decreases |gs|
  {
    if gs == [] then PassState([], e0)
    else Step(Pass(gs[..|gs| - 1], e0, fetch), TeamsAfter(gs[..|gs| - 1]), gs[|gs| - 1], fetch)
  }

  /** One row per game, in order, carrying that game's teams, starters,
      scores and target. */
  lemma {:induction false} PassShape(gs: seq<Game>, e0: Entries, fetch: string -> Fetch)
    ensures var rows := Pass(gs, e0, fetch).rows;
      && |rows| == |gs|
      && forall i :: 0 <= i < |gs| ==> Carries(rows[i], gs[i])
    decreases |gs|
  {
    if gs != [] {
      var p := gs[..|gs| - 1];
      PassShape(p, e0, fetch);
      var prev := Pass(p, e0, fetch);
      var rows := Pass(gs, e0, fetch).rows;
      assert rows == Step(prev, TeamsAfter(p), gs[|p|], fetch).rows;
      forall i | 0 <= i < |gs| ensures Carries(rows[i], gs[i]) {
        if i < |p| {
          assert rows[i] == prev.rows[i];
          assert gs[i] == p[i];
        }
      }
    }
  }

  /** The rows of a prefix of the log are a prefix of the rows: a row never
      depends on a later game. */
  lemma {:induction false} PassPrefix(gs: seq<Game>, k: nat, e0: Entries, fetch: string -> Fetch)
    requires k <= |gs|
    ensures PassShapeHolds(gs, e0, fetch)
    ensures Pass(gs[..k], e0, fetch).rows == Pass(gs, e0, fetch).rows[..k]
    decreases |gs|
  {
    PassLength(gs, e0, fetch);
    if k < |gs| {
      var p := gs[..|gs| - 1];
      assert gs[..k] == p[..k];
      PassPrefix(p, k, e0, fetch);
      PassLength(p, e0, fetch);
    } else {
      assert gs[..k] == gs;
    }
  }

  lemma {:induction false} PassLength(gs: seq<Game>, e0: Entries, fetch: string -> Fetch)
    ensures |Pass(gs, e0, fetch).rows| == |gs|
    decreases |gs|
  {
    if gs != [] {
      PassLength(gs[..|gs| - 1], e0, fetch);
    }
  }

  predicate PassShapeHolds(gs: seq<Game>, e0: Entries, fetch: string -> Fetch) {
    |Pass(gs, e0, fetch).rows| == |gs|
  }

  /** Read before write: row `i` is computed from the records as they stood
      after the first `i` games (with this game's teams enrolled) and from
      the cache as those games left it. */
  lemma RowReadsPriorState(gs: seq<Game>, i: nat, e0: Entries, fetch: string -> Fetch)
    requires i < |gs|
    ensures PassShapeHolds(gs, e0, fetch)
    ensures var before := Enroll(TeamsAfter(gs[..i]), gs[i]);
      Pass(gs, e0, fetch).rows[i] ==
        RowOf(before, gs[i], PitchingOf(Pass(gs[..i], e0, fetch).entries, gs[i], fetch).pitching)
  {
    PassPrefix(gs, i + 1, e0, fetch);
    var q := gs[..i + 1];
    assert q[..|q| - 1] == gs[..i];
    assert q[|q| - 1] == gs[i];
    PassShape(gs[..i], e0, fetch);
  }

  /** A game never feeds its own features: changing the status and the
      scores of game `i` changes neither its form nor its pitcher features. */
  lemma OwnResultIgnored(gs: seq<Game>, hs: seq<Game>, i: nat, e0: Entries, fetch: string -> Fetch)
    requires i < |gs| == |hs| && gs[..i] == hs[..i]
    requires gs[i].home == hs[i].home && gs[i].away == hs[i].away
    requires gs[i].homeStarter == hs[i].homeStarter && gs[i].awayStarter == hs[i].awayStarter
    ensures PassShapeHolds(gs, e0, fetch) && PassShapeHolds(hs, e0, fetch)
    ensures var a, b := Pass(gs, e0, fetch).rows[i], Pass(hs, e0, fetch).rows[i];
      a.homeForm == b.homeForm && a.awayForm == b.awayForm && a.pitching == b.pitching
  {
    RowReadsPriorState(gs, i, e0, fetch);
    RowReadsPriorState(hs, i, e0, fetch);
  }

  /** The label of row `i` agrees with what game `i` does to the records:
      -1 exactly when it leaves the home club's game count alone, 1 exactly
      when it adds a win to the home club, 0 exactly when it adds a win to
      the away club. */
  lemma TargetAgreesWithRecords(gs: seq<Game>, i: nat, e0: Entries, fetch: string -> Fetch)
    requires i < |gs| && gs[i].home != gs[i].away
    ensures PassShapeHolds(gs, e0, fetch)
    ensures var t := Pass(gs, e0, fetch).rows[i].target;
      var before, after := Enroll(TeamsAfter(gs[..i]), gs[i]), TeamsAfter(gs[..i + 1]);
      var h, a := gs[i].home, gs[i].away;
      && h in after && a in after
      && (t == -1 <==> after[h].games == before[h].games)
      && (t == 1 <==> after[h].wins == before[h].wins + 1)
      && (t == 0 <==> after[a].wins == before[a].wins + 1)
  {
    assert gs[..i + 1] == gs[..i] + [gs[i]];
    TargetMeansCredit(gs[..i], gs[i]);
    RowReadsPriorState(gs, i, e0, fetch);
  }

  /** The step of the lemma above for one game `g` played after `gs`. */
  lemma TargetMeansCredit(gs: seq<Game>, g: Game)
    requires g.home != g.away
    ensures var before, after := Enroll(TeamsAfter(gs), g), TeamsAfter(gs + [g]);
      var t, h, a := Target(g), g.home, g.away;
      && h in after && a in after
      && (t == -1 <==> after[h].games == before[h].games)
      && (t == 1 <==> after[h].wins == before[h].wins + 1)
      && (t == 0 <==> after[a].wins == before[a].wins + 1)
  {
    if IsScheduled(g) {
      ScheduledLeavesRecords(gs, g);
    } else {
      CompletedGameCredit(gs, g);
    }
  }

  /** A team's first game shows the neutral form. */
  lemma FirstAppearanceNeutral(gs: seq<Game>, i: nat, e0: Entries, fetch: string -> Fetch)
    requires i < |gs| && !Appears(gs[..i], gs[i].home)
    ensures PassShapeHolds(gs, e0, fetch)
    ensures Pass(gs, e0, fetch).rows[i].homeForm == NeutralForm
  {
    RowReadsPriorState(gs, i, e0, fetch);
    RecordIsHistory(gs[..i], gs[i].home);
  }

  /** Lines 63-66: the pitcher lookups of one game, in dict order. */
  method PriceGame(g: Game, cache: PitcherCache, fetch: string -> Fetch) returns (pitching: Pitching)
    modifies cache
    ensures PitchingOf(old(cache.entries), g, fetch) == Priced(pitching, cache.entries)
  {
    var homeEra, awayEra, homeWhip, awayWhip := Some(DefaultEra), Some(DefaultEra), Some(DefaultWhip), Some(DefaultWhip);
    if g.homeStarter.Some? {
      homeEra := cache.Get(g.homeStarter.value, "era", DefaultSeason, fetch);
    }
    if g.awayStarter.Some? {
      awayEra := cache.Get(g.awayStarter.value, "era", DefaultSeason, fetch);
    }
    if g.homeStarter.Some? {
      homeWhip := cache.Get(g.homeStarter.value, "whip", DefaultSeason, fetch);
    }
    if g.awayStarter.Some? {
      awayWhip := cache.Get(g.awayStarter.value, "whip", DefaultSeason, fetch);
    }
    pitching := Pitching(homeEra, awayEra, homeWhip, awayWhip);
  }

  /** Enrolling is idempotent, so the update may start from the enrolled
      records. */
  lemma ApplyAfterEnroll(t: Teams, g: Game)
    ensures Apply(Enroll(t, g), g) == Apply(t, g)
  {
    assert Enroll(Enroll(t, g), g) == Enroll(t, g);
  }

  /** Lines 76-91: a game that is not scheduled is credited to the home
      record and then to the away record. */
  method UpdateRecords(teamStats: Teams, g: Game) returns (updated: Teams)
    requires g.home in teamStats && g.away in teamStats
    ensures updated == Apply(teamStats, g)
  {
    updated := teamStats;
    if !IsScheduled(g) {
      var homeWin := HomeWin(g);
      var r := updated[g.home];
      var window := r.last10 + [if homeWin then 1 else 0];
      if |window| > WindowSize {
        window := window[1..];
      }
      updated := updated[g.home := Record(r.games + 1, r.wins + (if homeWin then 1 else 0),
        Plus(r.runsScored, g.homeScore), Plus(r.runsAllowed, g.awayScore), window)];
      r := updated[g.away];
      window := r.last10 + [if homeWin then 0 else 1];
      if |window| > WindowSize {
        window := window[1..];
      }
      updated := updated[g.away := Record(r.games + 1, r.wins + (if homeWin then 0 else 1),
        Plus(r.runsScored, g.awayScore), Plus(r.runsAllowed, g.homeScore), window)];
    }
  }

  /** One iteration of the loop, lines 24-91: enrol both teams, append the
      row built from their records as they stand, then credit the result. */
  method ProcessGame(g: Game, teamStats: Teams, features: seq<FeatureRow>, cache: PitcherCache, fetch: string -> Fetch)
    returns (teamStats': Teams, features': seq<FeatureRow>)
    modifies cache
    ensures PassState(features', cache.entries) == Step(PassState(features, old(cache.entries)), teamStats, g, fetch)
    ensures teamStats' == Apply(teamStats, g)
  {
    teamStats' := teamStats;
    if g.home !in teamStats' {
      teamStats' := teamStats'[g.home := NewRecord];
    }
    if g.away !in teamStats' {
      teamStats' := teamStats'[g.away := NewRecord];
    }
    assert teamStats' == Enroll(teamStats, g);
    var pitching := PriceGame(g, cache, fetch);
    features' := features + [RowOf(teamStats', g, pitching)];
    ApplyAfterEnroll(teamStats, g);
    teamStats' := UpdateRecords(teamStats', g);
  }

  lemma PassUnfolds(gs: seq<Game>, i: nat, e0: Entries, fetch: string -> Fetch)
    requires i < |gs|
    ensures TeamsAfter(gs[..i + 1]) == Apply(TeamsAfter(gs[..i]), gs[i])
    ensures Pass(gs[..i + 1], e0, fetch) == Step(Pass(gs[..i], e0, fetch), TeamsAfter(gs[..i]), gs[i], fetch)
  {
    assert gs[..i + 1][..i] == gs[..i];
  }

  /** The feature pass, lines 23-91. */
  method BuildFeatures(games: seq<Game>, cache: PitcherCache, fetch: string -> Fetch)
    returns (features: seq<FeatureRow>, teamStats: Teams)
    modifies cache
    ensures PassState(features, cache.entries) == Pass(games, old(cache.entries), fetch)
    ensures teamStats == TeamsAfter(games)
  {
    features, teamStats := [], map[];
    ghost var e0 := cache.entries;
    var i := 0;
    while i < |games|
      invariant 0 <= i <= |games|
      invariant teamStats == TeamsAfter(games[..i])
      invariant PassState(features, cache.entries) == Pass(games[..i], e0, fetch)
    {
      PassUnfolds(games, i, e0, fetch);
      teamStats, features := ProcessGame(games[i], teamStats, features, cache, fetch);
      i := i + 1;
    }
    assert games[..i] == games;
  }
}

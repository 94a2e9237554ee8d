/**
 * The pitcher-statistics cache: `get_pitcher_stat_cached(player, stat,
 * season)` answers from a player -> stat -> value table when it can, and
 * otherwise asks the statistics service, keeps the value of the first
 * pitching-season line of the requested season, writes it through to the
 * table and returns it. A lookup that raises returns None and stores nothing.
 *
 * The service is a parameter: `fetch(player)` is either `Raised` (the player
 * search or the statistics request raised) or the list of statistics lines
 * of the first player the search found.
 */
module StatCache {
  import opened Opt

  /** The season the feature pass asks for (the parameter's default). */
  const DefaultSeason: string := "2025"

  /** One line of a player's statistics. `group`, `kind` and `season` are
      `s.get(...)` and may be absent. A stat that is missing from `stats`
      raises KeyError; one present as None stands for a value that `float()`
      rejects. */
  datatype StatLine = StatLine(
    group: Option<string>,
    kind: Option<string>,
    season: Option<string>,
    stats: map<string, Option<real>>)

  datatype Fetch = Raised | Fetched(lines: seq<StatLine>)

  /** What the `next(...)` over the generator produces: the converted value,
      the default None when no line matches, or an exception raised while
      converting the first matching line. */
  datatype Selection = Found(value: real) | NoSeason | Fails

  /** The table: player -> stat -> value; a stored None is JSON null. */
  type Entries = map<string, map<string, Option<real>>>

  /** The value returned and the table afterwards. */
  datatype Answer = Answer(value: Option<real>, entries: Entries)

  predicate IsSeasonLine(line: StatLine, season: string) {
    line.group == Some("pitching") && line.kind == Some("season") && line.season == Some(season)
  }

  /** `float(s['stats'][stat])` on one line. */
  function Convert(line: StatLine, stat: string): (r: Selection)
    ensures r != NoSeason
    ensures r.Found? <==> stat in line.stats && line.stats[stat].Some?
    ensures r.Found? ==> Some(r.value) == line.stats[stat]
  {
    if stat in line.stats && line.stats[stat].Some? then Found(line.stats[stat].value) else Fails
  }

  /** The generator is lazy: only the first matching line is converted. */
  function Select(lines: seq<StatLine>, stat: string, season: string): (r: Selection)
    ensures r.NoSeason? <==> forall i :: 0 <= i < |lines| ==> !IsSeasonLine(lines[i], season)
  {
    if lines == [] then NoSeason
    else if IsSeasonLine(lines[0], season) then Convert(lines[0], stat)
    else Select(lines[1..], stat, season)
  }

  /** The selection is decided by the first matching line alone. */
  lemma {:induction false} SelectIsFirstMatch(lines: seq<StatLine>, stat: string, season: string, k: nat)
    requires k < |lines| && IsSeasonLine(lines[k], season)
    requires forall j :: 0 <= j < k ==> !IsSeasonLine(lines[j], season)
    ensures Select(lines, stat, season) == Convert(lines[k], stat)
  {
    if k > 0 {
      assert !IsSeasonLine(lines[0], season);
      SelectIsFirstMatch(lines[1..], stat, season, k - 1);
    }
  }

  /** `player in cache and stat in cache[player]`. */
  predicate Hit(e: Entries, player: string, stat: string) {
    player in e && stat in e[player]
  }

  /** Lines 31-35: create the player's row if needed, then set the stat. */
  function Store(e: Entries, player: string, stat: string, v: Option<real>): (r: Entries)
    ensures Hit(r, player, stat) && r[player][stat] == v
    ensures forall p, s :: Hit(e, p, s) && (p != player || s != stat) ==> Hit(r, p, s) && r[p][s] == e[p][s]
    ensures forall p, s :: Hit(r, p, s) ==> Hit(e, p, s) || (p == player && s == stat)
    ensures forall p :: p in e ==> p in r
  {
    var row := if player in e then e[player] else map[];
    e[player := row[stat := v]]
  }

  /** One call of `get_pitcher_stat_cached`. */
  function Lookup(e: Entries, player: string, stat: string, season: string, fetch: string -> Fetch): (r: Answer)
    ensures Hit(r.entries, player, stat) ==> r.entries[player][stat] == r.value
    ensures r.entries == e || r.entries == Store(e, player, stat, r.value)
  {
    if Hit(e, player, stat) then Answer(e[player][stat], e)
    else match fetch(player)
      case Raised => Answer(None, e)
      case Fetched(lines) =>
        match Select(lines, stat, season)
        case Fails => Answer(None, e)
        case NoSeason => Answer(None, Store(e, player, stat, None))
        case Found(v) => Answer(Some(v), Store(e, player, stat, Some(v)))
  }

  /** A hit returns the stored value, None included, and changes nothing;
      the service is not consulted. */
  lemma HitReturnsStored(e: Entries, player: string, stat: string, season: string, fetch: string -> Fetch)
    requires Hit(e, player, stat)
    ensures Lookup(e, player, stat, season, fetch) == Answer(e[player][stat], e)
  {
  }

  /** A lookup that raises, from the service or from `float()`, returns None
      and leaves the table exactly as it was. */
  lemma FailureLeavesTable(e: Entries, player: string, stat: string, season: string, fetch: string -> Fetch)
    requires !Hit(e, player, stat)
    requires fetch(player).Raised? || Select(fetch(player).lines, stat, season).Fails?
    ensures Lookup(e, player, stat, season, fetch) == Answer(None, e)
  {
  }

  /** A miss whose lookup succeeds stores and returns the stat of the first
      matching line, or None when no line of that season exists. */
  lemma MissStoresSelection(e: Entries, player: string, stat: string, season: string, fetch: string -> Fetch)
    requires !Hit(e, player, stat) && fetch(player).Fetched?
    requires !Select(fetch(player).lines, stat, season).Fails?
    ensures var r := Lookup(e, player, stat, season, fetch);
      var sel := Select(fetch(player).lines, stat, season);
      && r.entries == Store(e, player, stat, r.value)
      && (sel.NoSeason? ==> r.value == None)
      && (sel.Found? ==> r.value == Some(sel.value))
  {
  }

  /** The value kept is that of the first pitching-season line. */
  lemma StoredValueIsFirstMatch(e: Entries, player: string, stat: string, season: string, fetch: string -> Fetch, k: nat)
    requires !Hit(e, player, stat) && fetch(player).Fetched?
    requires var lines := fetch(player).lines;
      && k < |lines| && IsSeasonLine(lines[k], season)
      && (forall j :: 0 <= j < k ==> !IsSeasonLine(lines[j], season))
      && stat in lines[k].stats && lines[k].stats[stat].Some?
    ensures var r := Lookup(e, player, stat, season, fetch);
      && r.value == fetch(player).lines[k].stats[stat]
      && Hit(r.entries, player, stat) && r.entries[player][stat] == r.value
  {
    SelectIsFirstMatch(fetch(player).lines, stat, season, k);
  }

  /** When the first pitching-season line lacks the stat or holds a value
      `float()` rejects, the call returns None and stores nothing, even if a
      later line of that season has the stat. */
  lemma UnconvertibleFirstMatchStoresNothing(e: Entries, player: string, stat: string, season: string, fetch: string -> Fetch, k: nat)
    requires !Hit(e, player, stat) && fetch(player).Fetched?
    requires var lines := fetch(player).lines;
      && k < |lines| && IsSeasonLine(lines[k], season)
      && (forall j :: 0 <= j < k ==> !IsSeasonLine(lines[j], season))
      && !(stat in lines[k].stats && lines[k].stats[stat].Some?)
    ensures Lookup(e, player, stat, season, fetch) == Answer(None, e)
  {
    SelectIsFirstMatch(fetch(player).lines, stat, season, k);
  }

  /** Asking again for a key the table now holds is a hit that returns the
      same value, whatever the service would answer the second time. */
  lemma RepeatIsHit(e: Entries, player: string, stat: string, season: string, fetch: string -> Fetch, later: string -> Fetch)
    requires Hit(Lookup(e, player, stat, season, fetch).entries, player, stat)
    ensures var r := Lookup(e, player, stat, season, fetch);
      Lookup(r.entries, player, stat, season, later) == r
  {
  }

  /** Only a raising lookup leaves the key out of the table. */
  lemma StoredUnlessRaised(e: Entries, player: string, stat: string, season: string, fetch: string -> Fetch)
    requires fetch(player).Fetched? && !Select(fetch(player).lines, stat, season).Fails?
    ensures Hit(Lookup(e, player, stat, season, fetch).entries, player, stat)
  {
  }

  /** Every other (player, stat) entry is kept with its value, and no entry
      other than the requested one appears. */
  lemma LookupFrame(e: Entries, player: string, stat: string, season: string, fetch: string -> Fetch, p: string, s: string)
    requires p != player || s != stat
    ensures var r := Lookup(e, player, stat, season, fetch).entries;
      && (Hit(e, p, s) ==> Hit(r, p, s) && r[p][s] == e[p][s])
      && (Hit(r, p, s) ==> Hit(e, p, s))
  {
  }

  /** The module-level `pitcher_cache`, loaded from disk before the first
      call (the file itself is not modelled). */
  class PitcherCache {
    var entries: Entries

    constructor (loaded: Entries)
      ensures entries == loaded
    {
      entries := loaded;
    }

    method Get(player: string, stat: string, season: string, fetch: string -> Fetch) returns (value: Option<real>)
      modifies this
      ensures Lookup(old(entries), player, stat, season, fetch) == Answer(value, entries)
    {
      if player in entries && stat in entries[player] {
        return entries[player][stat];
      }
      var fetched := fetch(player);
      if fetched.Raised? {
        return None;
      }
      var sel := Select(fetched.lines, stat, season);
      if sel.Fails? {
        return None;
      }
      value := if sel.Found? then Some(sel.value) else None;
      ghost var before := entries;
      if player !in entries {
        entries := entries[player := map[]];
      }
      entries := entries[player := entries[player][stat := value]];
      assert entries == Store(before, player, stat, value);
    }
  }
}

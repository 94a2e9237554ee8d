/**
 * Repair of pitcher names whose accented letters were lost in transit and
 * show up as the replacement character U+FFFD. A name with that character
 * is looked up in its team's pitching roster: the first roster name whose
 * lower-cased, de-accented spelling contains the damaged name (with the
 * replacement characters dropped, lower-cased) replaces it. Every answer is
 * memoised by player name.
 *
 * The roster service is a parameter: `rosters(team)` is the list of full
 * names of that team's pitchers, or `LookupRaised` when the team lookup or
 * the roster request raised.
 */
module PlayerNames {
  import opened Opt
  import opened Text

  const Replacement: char := '\U{FFFD}'

  datatype Roster = LookupRaised | Roster(fullNames: seq<string>)

  /** The four accented letters the repair folds, as the chained
      `.replace` calls do; every other character is kept. */
  function DeaccentChar(c: char): char {
    if c == '\U{E9}' then 'e'
    else if c == '\U{ED}' then 'i'
    else if c == '\U{F3}' then 'o'
    else if c == '\U{E1}' then 'a'
    else c
  }

  function Deaccent(s: string): (r: string)
    ensures |r| == |s|
    ensures forall i :: 0 <= i < |s| ==> r[i] == DeaccentChar(s[i])
  {
    if s == [] then [] else [DeaccentChar(s[0])] + Deaccent(s[1..])
  }

  /** What is searched for: the damaged name without the replacement
      characters, lower-cased. */
  function Needle(player: string): string {
    Lower(RemoveAll(player, Replacement))
  }

  /** What is searched in: a roster name, lower-cased and de-accented. */
  function Haystack(fullName: string): string {
    Deaccent(Lower(fullName))
  }

  predicate Matches(player: string, fullName: string) {
    Contains(Haystack(fullName), Needle(player))
  }

  /** The position of the first roster name that matches. */
  function FirstMatch(player: string, names: seq<string>): (r: Option<nat>)
    ensures r.None? <==> forall j :: 0 <= j < |names| ==> !Matches(player, names[j])
    ensures r.Some? ==>
      (r.value < |names| && Matches(player, names[r.value]) && forall j :: 0 <= j < r.value ==> !Matches(player, names[j]))
  {
    if names == [] then None
    else if Matches(player, names[0]) then Some(0)
    else
      var rest := FirstMatch(player, names[1..]);
      if rest.None? then None else Some(rest.value + 1)
  }

  /** The name a call without a cached answer returns (lines 23-48). */
  function Repaired(player: string, roster: Roster): string {
    if Replacement !in player then player
    else if roster.LookupRaised? then player
    else
      var k := FirstMatch(player, roster.fullNames);
      if k.Some? then roster.fullNames[k.value] else player
  }

  /** The name returned and the memo table afterwards. */
  datatype Answer = Answer(fixed: string, cache: map<string, string>)

  /** One call of `fix_player_name(team, player)`. */
  function FixCall(cache: map<string, string>, team: string, player: string, rosters: string -> Roster): (r: Answer)
    ensures player in r.cache && r.cache[player] == r.fixed
    ensures forall p :: p != player ==> (p in r.cache <==> p in cache) && (p in cache ==> r.cache[p] == cache[p])
  {
    if player in cache then Answer(cache[player], cache)
    else
      var fixed := Repaired(player, rosters(team));
      Answer(fixed, cache[player := fixed])
  }

  /** A cached name is returned as it is; the roster is not consulted and
      the table is unchanged. */
  lemma CachedNameWins(cache: map<string, string>, team: string, player: string, rosters: string -> Roster)
    requires player in cache
    ensures FixCall(cache, team, player, rosters) == Answer(cache[player], cache)
  {
  }

  /** A name without the replacement character is kept and cached as itself. */
  lemma CleanNameKept(cache: map<string, string>, team: string, player: string, rosters: string -> Roster)
    requires player !in cache && Replacement !in player
    ensures FixCall(cache, team, player, rosters) == Answer(player, cache[player := player])
  {
  }

  /** A damaged name becomes the first matching roster name. */
  lemma RepairIsFirstMatch(player: string, names: seq<string>, k: nat)
    requires Replacement in player
    requires k < |names| && Matches(player, names[k])
    requires forall j :: 0 <= j < k ==> !Matches(player, names[j])
    ensures Repaired(player, Roster(names)) == names[k]
  {
    FirstMatchAt(player, names, k);
  }

  lemma {:induction false} FirstMatchAt(player: string, names: seq<string>, k: nat)
    requires k < |names| && Matches(player, names[k])
    requires forall j :: 0 <= j < k ==> !Matches(player, names[j])
    ensures FirstMatch(player, names) == Some(k)
  {
    if k > 0 {
      assert !Matches(player, names[0]);
      assert forall j :: 0 <= j < k - 1 ==> names[1..][j] == names[j + 1];
      FirstMatchAt(player, names[1..], k - 1);
    }
  }

  /** The repaired name is a roster name in which the damaged name, cleaned
      up, occurs. */
  lemma RepairComesFromRoster(player: string, roster: Roster)
    requires Repaired(player, roster) != player
    ensures roster.Roster? && Repaired(player, roster) in roster.fullNames
    ensures Contains(Haystack(Repaired(player, roster)), Needle(player))
  {
  }

  /** When the roster lookup raises or no roster name matches, the name is
      returned unchanged. */
  lemma UnmatchedNameKept(player: string, roster: Roster)
    requires roster.LookupRaised? || forall j :: 0 <= j < |roster.fullNames| ==> !Matches(player, roster.fullNames[j])
    ensures Repaired(player, roster) == player
  {
  }

  /** A name made only of replacement characters matches every roster
      name, so it becomes the first name of the roster. */
  lemma BareReplacementTakesFirst(player: string, names: seq<string>)
    requires Replacement in player && Needle(player) == [] && names != []
    ensures Repaired(player, Roster(names)) == names[0]
  {
    assert Matches(player, names[0]);
  }

  /** The table is keyed by the player alone: a second call for the same
      player, for any team and whatever the roster service answers then,
      returns the first answer and changes nothing. */
  lemma SecondCallReusesAnswer(cache: map<string, string>, team: string, laterTeam: string, player: string,
                               rosters: string -> Roster, laterRosters: string -> Roster)
    ensures var first := FixCall(cache, team, player, rosters);
      FixCall(first.cache, laterTeam, player, laterRosters) == first
  {
  }

  /** The module-level `fixed_names_cache`. */
  class NameFixer {
    var cache: map<string, string>

    constructor ()
      ensures cache == map[]
    {
      cache := map[];
    }

    /** `fix_player_name`, scanning the roster with an early return. */
    method Fix(team: string, player: string, rosters: string -> Roster) returns (fixed: string)
      modifies this
      ensures FixCall(old(cache), team, player, rosters) == Answer(fixed, cache)
    {
      if player in cache {
        return cache[player];
      }
      if Replacement !in player {
        cache := cache[player := player];
        return player;
      }
      var roster := rosters(team);
      if roster.LookupRaised? {
        cache := cache[player := player];
        return player;
      }
      var names := roster.fullNames;
      var i := 0;
      while i < |names|
        invariant 0 <= i <= |names|
        invariant forall j :: 0 <= j < i ==> !Matches(player, names[j])
        invariant cache == old(cache)
      {
        if Contains(Haystack(names[i]), Needle(player)) {
          RepairIsFirstMatch(player, names, i);
          cache := cache[player := names[i]];
          return names[i];
        }
        i := i + 1;
      }
      cache := cache[player := player];
      fixed := player;
    }
  }
}

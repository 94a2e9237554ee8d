/**
 * The two copies of the alias table: informal, lower-case, space-free team
 * names mapped to the canonical names of the 30 franchises.
 */
module TeamTables {

  /** The table of utils/resolve_alias.py. */
  const TeamNameMap: map<string, string> := map[
    "diamondbacks" := "Arizona Diamondbacks",
    "braves" := "Atlanta Braves",
    "orioles" := "Baltimore Orioles",
    "redsox" := "Boston Red Sox",
    "whitesox" := "Chicago White Sox",
    "cubs" := "Chicago Cubs",
    "reds" := "Cincinnati Reds",
    "guardians" := "Cleveland Guardians",
    "rockies" := "Colorado Rockies",
    "tigers" := "Detroit Tigers",
    "astros" := "Houston Astros",
    "royals" := "Kansas City Royals",
    "angels" := "Los Angeles Angels",
    "dodgers" := "Los Angeles Dodgers",
    "marlins" := "Miami Marlins",
    "brewers" := "Milwaukee Brewers",
    "twins" := "Minnesota Twins",
    "yankees" := "New York Yankees",
    "mets" := "New York Mets",
    "athletics" := "Oakland Athletics",
    "phillies" := "Philadelphia Phillies",
    "pirates" := "Pittsburgh Pirates",
    "padres" := "San Diego Padres",
    "giants" := "San Francisco Giants",
    "mariners" := "Seattle Mariners",
    "cardinals" := "St. Louis Cardinals",
    "rays" := "Tampa Bay Rays",
    "rangers" := "Texas Rangers",
    "bluejays" := "Toronto Blue Jays",
    "nationals" := "Washington Nationals"
  ]

  /** The copy of the table in scripts/predict_game.py. */
  const GameTeamNameMap: map<string, string> := map[
    "diamondbacks" := "Arizona Diamondbacks",
    "braves" := "Atlanta Braves",
    "orioles" := "Baltimore Orioles",
    "redsox" := "Boston Red Sox",
    "whitesox" := "Chicago White Sox",
    "cubs" := "Chicago Cubs",
    "reds" := "Cincinnati Reds",
    "guardians" := "Cleveland Guardians",
    "rockies" := "Colorado Rockies",
    "tigers" := "Detroit Tigers",
    "astros" := "Houston Astros",
    "royals" := "Kansas City Royals",
    "angels" := "Los Angeles Angels",
    "dodgers" := "Los Angeles Dodgers",
    "marlins" := "Miami Marlins",
    "brewers" := "Milwaukee Brewers",
    "twins" := "Minnesota Twins",
    "yankees" := "New York Yankees",
    "mets" := "New York Mets",
    "athletics" := "Las Vegas Athletics",
    "phillies" := "Philadelphia Phillies",
    "pirates" := "Pittsburgh Pirates",
    "padres" := "San Diego Padres",
    "giants" := "San Francisco Giants",
    "mariners" := "Seattle Mariners",
    "cardinals" := "St. Louis Cardinals",
    "rays" := "Tampa Bay Rays",
    "rangers" := "Texas Rangers",
    "bluejays" := "Toronto Blue Jays",
    "nationals" := "Washington Nationals"
  ]

  // ---------------------------------------------------------------------
  // Properties of the tables

  ghost predicate Injective(table: map<string, string>) {
    forall k1, k2 :: k1 in table && k2 in table && k1 != k2 ==> table[k1] != table[k2]
  }

  /** The inverse of the table of utils/resolve_alias.py: each canonical
      name and the key it is filed under. */
  const KeyOf: map<string, string> := map[
    "Washington Nationals" := "nationals",
    "Toronto Blue Jays" := "bluejays",
    "Texas Rangers" := "rangers",
    "Tampa Bay Rays" := "rays",
    "St. Louis Cardinals" := "cardinals",
    "Seattle Mariners" := "mariners",
    "San Francisco Giants" := "giants",
    "San Diego Padres" := "padres",
    "Pittsburgh Pirates" := "pirates",
    "Philadelphia Phillies" := "phillies",
    "Oakland Athletics" := "athletics",
    "New York Mets" := "mets",
    "New York Yankees" := "yankees",
    "Minnesota Twins" := "twins",
    "Milwaukee Brewers" := "brewers",
    "Miami Marlins" := "marlins",
    "Los Angeles Dodgers" := "dodgers",
    "Los Angeles Angels" := "angels",
    "Kansas City Royals" := "royals",
    "Houston Astros" := "astros",
    "Detroit Tigers" := "tigers",
    "Colorado Rockies" := "rockies",
    "Cleveland Guardians" := "guardians",
    "Cincinnati Reds" := "reds",
    "Chicago Cubs" := "cubs",
    "Chicago White Sox" := "whitesox",
    "Boston Red Sox" := "redsox",
    "Baltimore Orioles" := "orioles",
    "Atlanta Braves" := "braves",
    "Arizona Diamondbacks" := "diamondbacks"
  ]

  // The table facts are split three entries at a time to keep each proof small.

  lemma InverseOnDiamondbacksToOrioles()
    ensures TeamNameMap["diamondbacks"] == "Arizona Diamondbacks" && KeyOf["Arizona Diamondbacks"] == "diamondbacks"
    ensures TeamNameMap["braves"] == "Atlanta Braves" && KeyOf["Atlanta Braves"] == "braves"
    ensures TeamNameMap["orioles"] == "Baltimore Orioles" && KeyOf["Baltimore Orioles"] == "orioles"
  {
  }

  lemma InverseOnRedsoxToCubs()
    ensures TeamNameMap["redsox"] == "Boston Red Sox" && KeyOf["Boston Red Sox"] == "redsox"
    ensures TeamNameMap["whitesox"] == "Chicago White Sox" && KeyOf["Chicago White Sox"] == "whitesox"
    ensures TeamNameMap["cubs"] == "Chicago Cubs" && KeyOf["Chicago Cubs"] == "cubs"
  {
  }

  lemma InverseOnRedsToRockies()
    ensures TeamNameMap["reds"] == "Cincinnati Reds" && KeyOf["Cincinnati Reds"] == "reds"
    ensures TeamNameMap["guardians"] == "Cleveland Guardians" && KeyOf["Cleveland Guardians"] == "guardians"
    ensures TeamNameMap["rockies"] == "Colorado Rockies" && KeyOf["Colorado Rockies"] == "rockies"
  {
  }

  lemma InverseOnTigersToRoyals()
    ensures TeamNameMap["tigers"] == "Detroit Tigers" && KeyOf["Detroit Tigers"] == "tigers"
    ensures TeamNameMap["astros"] == "Houston Astros" && KeyOf["Houston Astros"] == "astros"
    ensures TeamNameMap["royals"] == "Kansas City Royals" && KeyOf["Kansas City Royals"] == "royals"
  {
  }

  lemma InverseOnAngelsToMarlins()
    ensures TeamNameMap["angels"] == "Los Angeles Angels" && KeyOf["Los Angeles Angels"] == "angels"
    ensures TeamNameMap["dodgers"] == "Los Angeles Dodgers" && KeyOf["Los Angeles Dodgers"] == "dodgers"
    ensures TeamNameMap["marlins"] == "Miami Marlins" && KeyOf["Miami Marlins"] == "marlins"
  {
  }

  lemma InverseOnBrewersToYankees()
    ensures TeamNameMap["brewers"] == "Milwaukee Brewers" && KeyOf["Milwaukee Brewers"] == "brewers"
    ensures TeamNameMap["twins"] == "Minnesota Twins" && KeyOf["Minnesota Twins"] == "twins"
    ensures TeamNameMap["yankees"] == "New York Yankees" && KeyOf["New York Yankees"] == "yankees"
  {
  }

  lemma InverseOnMetsToPhillies()
    ensures TeamNameMap["mets"] == "New York Mets" && KeyOf["New York Mets"] == "mets"
    ensures TeamNameMap["athletics"] == "Oakland Athletics" && KeyOf["Oakland Athletics"] == "athletics"
    ensures TeamNameMap["phillies"] == "Philadelphia Phillies" && KeyOf["Philadelphia Phillies"] == "phillies"
  {
  }

  lemma InverseOnPiratesToGiants()
    ensures TeamNameMap["pirates"] == "Pittsburgh Pirates" && KeyOf["Pittsburgh Pirates"] == "pirates"
    ensures TeamNameMap["padres"] == "San Diego Padres" && KeyOf["San Diego Padres"] == "padres"
    ensures TeamNameMap["giants"] == "San Francisco Giants" && KeyOf["San Francisco Giants"] == "giants"
  {
  }

  lemma InverseOnMarinersToRays()
    ensures TeamNameMap["mariners"] == "Seattle Mariners" && KeyOf["Seattle Mariners"] == "mariners"
    ensures TeamNameMap["cardinals"] == "St. Louis Cardinals" && KeyOf["St. Louis Cardinals"] == "cardinals"
    ensures TeamNameMap["rays"] == "Tampa Bay Rays" && KeyOf["Tampa Bay Rays"] == "rays"
  {
  }

  lemma InverseOnRangersToNationals()
    ensures TeamNameMap["rangers"] == "Texas Rangers" && KeyOf["Texas Rangers"] == "rangers"
    ensures TeamNameMap["bluejays"] == "Toronto Blue Jays" && KeyOf["Toronto Blue Jays"] == "bluejays"
    ensures TeamNameMap["nationals"] == "Washington Nationals" && KeyOf["Washington Nationals"] == "nationals"
  {
  }

  /** Every entry of the table is recovered from its canonical name. */
  lemma KeyOfInvertsTable()
    ensures forall k :: k in TeamNameMap ==> TeamNameMap[k] in KeyOf && KeyOf[TeamNameMap[k]] == k
  {
    InverseOnDiamondbacksToOrioles();
    InverseOnRedsoxToCubs();
    InverseOnRedsToRockies();
    InverseOnTigersToRoyals();
    InverseOnAngelsToMarlins();
    InverseOnBrewersToYankees();
    InverseOnMetsToPhillies();
    InverseOnPiratesToGiants();
    InverseOnMarinersToRays();
    InverseOnRangersToNationals();
  }

  /** No two keys of the table name the same club. */
  lemma TeamNameMapInjective()
    ensures Injective(TeamNameMap)
  {
    KeyOfInvertsTable();
  }

  /** The copy in the game predictor names the Athletics after Las Vegas and
      otherwise agrees entry for entry. */
  lemma TablesDiffer()
    ensures TeamNameMap["athletics"] == "Oakland Athletics"
    ensures GameTeamNameMap["athletics"] == "Las Vegas Athletics"
    ensures GameTeamNameMap == TeamNameMap["athletics" := "Las Vegas Athletics"]
    ensures GameTeamNameMap != TeamNameMap
  {
  }

  lemma UpdateKeepsInjective(table: map<string, string>, key: string, name: string)
    requires Injective(table)
    requires forall k :: k in table && k != key ==> table[k] != name
    ensures Injective(table[key := name])
  {
  }

  /** No key of the first table names the Las Vegas Athletics. */
  lemma LasVegasIsNew()
    ensures forall k :: k in TeamNameMap ==> TeamNameMap[k] != "Las Vegas Athletics"
  {
    KeyOfInvertsTable();
    assert "Las Vegas Athletics" !in KeyOf;
  }

  /** The copy is injective too. */
  lemma GameTeamNameMapInjective()
    ensures Injective(GameTeamNameMap)
  {
    TablesDiffer();
    TeamNameMapInjective();
    LasVegasIsNew();
    UpdateKeepsInjective(TeamNameMap, "athletics", "Las Vegas Athletics");
  }
}

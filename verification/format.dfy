/** The three normalisation functions of `format.js`: the country query key,
    the country display phrase and the US state name. */
module Format {
  import opened Optional
  import opened Text

  /** A canonical API key and the lower-case spellings that select it. */
  datatype SynonymGroup = SynonymGroup(key: string, synonyms: seq<string>)

  /** The country synonym groups, in the order `formatQuery` tests them. */
  const CountryGroups: seq<SynonymGroup> := [
    SynonymGroup("USA", ["usa", "united states", "united states of america", "america", "us"]),
    SynonymGroup("UK", ["uk", "united kingdom"]),
    SynonymGroup("UAE", ["uae", "united arab emirates"]),
    SynonymGroup("S. Korea", ["korea", "south korea"]),
    SynonymGroup("CAR", ["car", "central african republic"]),
    SynonymGroup("DRC", ["drc", "democratic republic of congo", "democratic republic of the congo", "congo kinshasa"]),
    SynonymGroup("Congo", ["congo", "congo republic", "congo brazzaville"]),
    SynonymGroup("U.S. Virgin Islands", ["us virgin islands", "u.s. virgin islands"]),
    SynonymGroup("R\U{E9}union", ["reunion", "r\U{E9}union"]),
    SynonymGroup("Cura\U{E7}ao", ["curacao", "cura\U{E7}ao"])
  ]

  /** No spelling belongs to two groups, so the test order is not observable. */
  ghost predicate Disjoint(groups: seq<SynonymGroup>) {
    forall i, j, a, b ::
      0 <= i < j < |groups| && 0 <= a < |groups[i].synonyms| && 0 <= b < |groups[j].synonyms| ==>
        groups[i].synonyms[a] != groups[j].synonyms[b]
  }

  /** The key of the first group (in order) that lists `s`, if any. */
  function FirstMatch(groups: seq<SynonymGroup>, s: string): Option<string>
    decreases |groups|
  {
    if |groups| == 0 then None
    else if s in groups[0].synonyms then Some(groups[0].key)
    else FirstMatch(groups[1..], s)
  }

  /** The chain of `if`s finds nothing iff no group lists `s`, and otherwise
      stops at the first group that lists it. */
  lemma {:induction false} FirstMatchIsFirstListing(groups: seq<SynonymGroup>, s: string)
    ensures FirstMatch(groups, s).None? <==> forall i :: 0 <= i < |groups| ==> s !in groups[i].synonyms
    ensures FirstMatch(groups, s).Some? ==>
              exists i :: 0 <= i < |groups| && s in groups[i].synonyms && FirstMatch(groups, s).value == groups[i].key
                          && forall j :: 0 <= j < i ==> s !in groups[j].synonyms
    decreases |groups|
  {
    if |groups| > 0 && s !in groups[0].synonyms {
      FirstMatchIsFirstListing(groups[1..], s);
      assert forall i :: 1 <= i < |groups| ==> groups[i] == groups[1..][i - 1];
      if FirstMatch(groups, s).Some? {
        var i :| 0 <= i < |groups[1..]| && s in groups[1..][i].synonyms && FirstMatch(groups, s).value == groups[1..][i].key
                 && forall j :: 0 <= j < i ==> s !in groups[1..][j].synonyms;
        assert s in groups[i + 1].synonyms && forall j :: 0 <= j < i + 1 ==> s !in groups[j].synonyms;
      }
    }
  }

  /** No spelling of group `k` is listed by an earlier group, so the ordered
      chain stops at group `k` for every spelling it lists. */
  ghost predicate ListedFirstAt(groups: seq<SynonymGroup>, k: nat)
    requires k < |groups|
  {
    forall j, a, b ::
      0 <= j < k && 0 <= a < |groups[j].synonyms| && 0 <= b < |groups[k].synonyms| ==>
        groups[j].synonyms[a] != groups[k].synonyms[b]
  }

  lemma FirstMatchListedFirst(groups: seq<SynonymGroup>, s: string, k: nat)
    requires k < |groups| && ListedFirstAt(groups, k) && s in groups[k].synonyms
    ensures FirstMatch(groups, s) == Some(groups[k].key)
  {
    FirstMatchIsFirstListing(groups, s);
    var r := FirstMatch(groups, s);
    var i :| 0 <= i < |groups| && s in groups[i].synonyms && r.value == groups[i].key
             && forall j :: 0 <= j < i ==> s !in groups[j].synonyms;
    var a :| 0 <= a < |groups[i].synonyms| && groups[i].synonyms[a] == s;
    var b :| 0 <= b < |groups[k].synonyms| && groups[k].synonyms[b] == s;
    assert i == k;
  }

  /** Groups each listed first where they stand are pairwise disjoint. */
  lemma DisjointWhenListedFirst(groups: seq<SynonymGroup>)
    requires forall k :: 0 <= k < |groups| ==> ListedFirstAt(groups, k)
    ensures Disjoint(groups)
  {
    forall i, j, a, b | 0 <= i < j < |groups| && 0 <= a < |groups[i].synonyms| && 0 <= b < |groups[j].synonyms|
      ensures groups[i].synonyms[a] != groups[j].synonyms[b]
    {
      assert ListedFirstAt(groups, j);
    }
  }

  /** `formatQuery`: the key of the first group that lists the lower-case
      query; the title-cased query when no group lists it. */
  function FormatQuery(query: string): (r: string)
    ensures forall k :: 0 <= k < |CountryGroups| && LowerCase(query) in CountryGroups[k].synonyms &&
                          (forall j :: 0 <= j < k ==> LowerCase(query) !in CountryGroups[j].synonyms) ==>
                            r == CountryGroups[k].key
    ensures (forall k :: 0 <= k < |CountryGroups| ==> LowerCase(query) !in CountryGroups[k].synonyms) ==>
              r == TitleCase(query)
  {
    FirstMatchIsFirstListing(CountryGroups, LowerCase(query));
    match FirstMatch(CountryGroups, LowerCase(query))
    case Some(key) => key
    case None => TitleCase(query)
  }

  /** The display phrases `formatCountry` knows, keyed by API key. The Korean
      entry is keyed "S.Korea", without the space `FormatQuery` emits. */
  const CountryDisplay: map<string, string> := map[
    "USA" := "the United States",
    "UK" := "the United Kingdom",
    "S.Korea" := "South Korea",
    "CAR" := "the Central African Republic",
    "DRC" := "the Democratic Republic of the Congo / Congo Kinshasa",
    "Congo" := "the Congo Republic / Congo Brazzaville",
    "U.S. Virgin Islands" := "the U.S. Virgin Islands"
  ]

  /** `formatCountry`: the phrase for a known key, the key itself otherwise. */
  function FormatCountry(country: string): (r: string)
    ensures country in CountryDisplay ==> r == CountryDisplay[country]
    ensures country !in CountryDisplay ==> r == country
  {
    if country == "USA" then "the United States"
    else if country == "UK" then "the United Kingdom"
    else if country == "S.Korea" then "South Korea"
    else if country == "CAR" then "the Central African Republic"
    else if country == "DRC" then "the Democratic Republic of the Congo / Congo Kinshasa"
    else if country == "Congo" then "the Congo Republic / Congo Brazzaville"
    else if country == "U.S. Virgin Islands" then "the U.S. Virgin Islands"
    else country
  }

  /** Text without a dot is not the dotted Virgin Islands spelling. */
  lemma DotFreeIsNotDottedVirginIslands(s: string)
    requires '.' !in s
    ensures s != "u.s. virgin islands"
  {
    assert "u.s. virgin islands"[1] == '.';
  }

  /** No group key is displayed "South Korea"; the Korean key "S. Korea"
      misses the display entry "S.Korea". */
  lemma GroupKeysNeverShowSouthKorea()
    ensures forall k :: 0 <= k < |CountryGroups| ==> FormatCountry(CountryGroups[k].key) != "South Korea"
  {
  }

  lemma SouthKoreaLowerCase(phrase: string)
    requires phrase == "South Korea"
    ensures LowerCase(phrase) == CountryGroups[3].synonyms[1]
  {
  }

  /** Only the key "S.Korea", and the phrase itself passed through, are
      displayed "South Korea". */
  lemma DisplayedSouthKorea(key: string)
    ensures FormatCountry(key) == "South Korea" ==> key == "S.Korea" || key == "South Korea"
  {
  }

  /** Only a casing of "south korea" title-cases to "South Korea". */
  lemma TitleCasedSouthKorea(q: string, phrase: string)
    requires phrase == "South Korea"
    ensures TitleCase(q) == phrase ==> LowerCase(q) == CountryGroups[3].synonyms[1]
  {
    TitleCaseKeepsLowerCase(q);
    SouthKoreaLowerCase(phrase);
  }

  /** A listed query is displayed with its group key's phrase, never "South Korea". */
  lemma ListedQueryNeverShowsSouthKorea(q: string)
    requires FirstMatch(CountryGroups, LowerCase(q)).Some?
    ensures FormatCountry(FormatQuery(q)) != "South Korea"
  {
    FirstMatchIsFirstListing(CountryGroups, LowerCase(q));
    GroupKeysNeverShowSouthKorea();
  }

  /** An unlisted query without a dot title-cases to neither "S.Korea" (it has
      no dot) nor "South Korea" (that spelling is listed). */
  lemma UnlistedQueryNeverShowsSouthKorea(q: string)
    requires '.' !in q
    requires FirstMatch(CountryGroups, LowerCase(q)).None?
    ensures FormatCountry(FormatQuery(q)) != "South Korea"
  {
    FirstMatchIsFirstListing(CountryGroups, LowerCase(q));
    assert LowerCase(q) != CountryGroups[3].synonyms[1];
    TitleCasedSouthKorea(q, "South Korea");
    var t := TitleCase(q);
    DisplayedSouthKorea(t);
    TitleCaseKeepsDotFree(q);
    assert t != "S.Korea" by {
      assert "S.Korea"[1] == '.';
    }
  }

  /** A query without a dot is never displayed "South Korea": the one key with
      that phrase, "S.Korea", has a dot that title-casing cannot make, and a
      query that title-cases to "South Korea" is listed in the Korean group. */
  lemma DotFreeQueryNeverShowsSouthKorea(q: string)
    requires '.' !in q
    ensures FormatCountry(FormatQuery(q)) != "South Korea"
  {
    if FirstMatch(CountryGroups, LowerCase(q)).Some? {
      ListedQueryNeverShowsSouthKorea(q);
    } else {
      UnlistedQueryNeverShowsSouthKorea(q);
    }
  }

  /** The nine directional shorthands `formatState` expands; matched exactly,
      with their capitals. */
  const StateShorthands: map<string, string> := map[
    "N Hampshire" := "New Hampshire",
    "N Jersey" := "New Jersey",
    "N Mexico" := "New Mexico",
    "N York" := "New York",
    "N Carolina" := "North Carolina",
    "N Dakota" := "North Dakota",
    "S Carolina" := "South Carolina",
    "S Dakota" := "South Dakota",
    "W Virginia" := "West Virginia"
  ]

  /** What the state abbreviation table holds: two upper-case letters to a
      non-empty state name. */
  ghost predicate AbbreviationTable(abbreviations: map<string, string>) {
    forall a :: a in abbreviations ==>
      |a| == 2 && IsUpperLetter(a[0]) && IsUpperLetter(a[1]) && abbreviations[a] != []
  }

  /** `formatState`: a two-character input is looked up upper-cased in the
      abbreviation table, with `None` (JavaScript's `undefined`) when absent;
      any other input is expanded when it is exactly a shorthand and returned
      unchanged otherwise. */
  function FormatState(abbreviations: map<string, string>, state: string): (r: Option<string>)
    ensures |state| == 2 ==> (r.Some? <==> UpperCase(state) in abbreviations)
    ensures |state| == 2 && r.Some? ==> r.value == abbreviations[UpperCase(state)]
    ensures |state| != 2 && state in StateShorthands ==> r == Some(StateShorthands[state])
    ensures |state| != 2 && state !in StateShorthands ==> r == Some(state)
  {
    if |state| == 2 then
      var abbreviation := UpperCase(state);
      if abbreviation in abbreviations then Some(abbreviations[abbreviation]) else None
    else if state == "N Hampshire" then Some("New Hampshire")
    else if state == "N Jersey" then Some("New Jersey")
    else if state == "N Mexico" then Some("New Mexico")
    else if state == "N York" then Some("New York")
    else if state == "N Carolina" then Some("North Carolina")
    else if state == "N Dakota" then Some("North Dakota")
    else if state == "S Carolina" then Some("South Carolina")
    else if state == "S Dakota" then Some("South Dakota")
    else if state == "W Virginia" then Some("West Virginia")
    else Some(state)
  }

  /** Table hits depend only on the lower-cased query: any casing of a
      spelling gives the same key. */
  lemma QueryIgnoresCaseOnHits(a: string, b: string, k: nat)
    requires LowerCase(a) == LowerCase(b)
    requires k < |CountryGroups| && LowerCase(a) in CountryGroups[k].synonyms && ListedFirstAt(CountryGroups, k)
    ensures FormatQuery(a) == FormatQuery(b) == CountryGroups[k].key
  {
    assert forall j :: 0 <= j < k ==> LowerCase(a) !in CountryGroups[j].synonyms by {
      forall j | 0 <= j < k
        ensures LowerCase(a) !in CountryGroups[j].synonyms
      {
        var b :| 0 <= b < |CountryGroups[k].synonyms| && CountryGroups[k].synonyms[b] == LowerCase(a);
      }
    }
  }

  /** Every casing of the five United States spellings is the key "USA",
      displayed with the definite article. */
  lemma UnitedStatesSpellings(q: string)
    ensures LowerCase(q) in ["usa", "united states", "united states of america", "america", "us"] ==>
              FormatQuery(q) == "USA" && FormatCountry(FormatQuery(q)) == "the United States"
  {
    CountryGroupsListedFirst();
    if LowerCase(q) in CountryGroups[0].synonyms {
      QueryIgnoresCaseOnHits(q, q, 0);
    }
  }

  lemma UnitedKingdomSpellings(q: string)
    ensures LowerCase(q) in ["uk", "united kingdom"] ==> FormatQuery(q) == "UK"
  {
    CountryGroupsListedFirst();
    if LowerCase(q) in CountryGroups[1].synonyms {
      QueryIgnoresCaseOnHits(q, q, 1);
    }
  }

  lemma EmiratesSpellings(q: string)
    ensures LowerCase(q) in ["uae", "united arab emirates"] ==> FormatQuery(q) == "UAE"
  {
    CountryGroupsListedFirst();
    if LowerCase(q) in CountryGroups[2].synonyms {
      QueryIgnoresCaseOnHits(q, q, 2);
    }
  }

  /** Both Korean spellings give the key "S. Korea", which the display table
      does not know (it lists "S.Korea"), so the key is displayed as is. */
  lemma KoreaSpellings(q: string)
    ensures LowerCase(q) in ["korea", "south korea"] ==>
              FormatQuery(q) == "S. Korea" && FormatCountry(FormatQuery(q)) == "S. Korea"
  {
    CountryGroupsListedFirst();
    if LowerCase(q) in CountryGroups[3].synonyms {
      QueryIgnoresCaseOnHits(q, q, 3);
    }
    assert "S. Korea" != "S.Korea" by {
      assert "S. Korea"[2] != "S.Korea"[2];
    }
  }

  lemma CentralAfricanRepublicSpellings(q: string)
    ensures LowerCase(q) in ["car", "central african republic"] ==> FormatQuery(q) == "CAR"
  {
    CountryGroupsListedFirst();
    if LowerCase(q) in CountryGroups[4].synonyms {
      QueryIgnoresCaseOnHits(q, q, 4);
    }
  }

  /** The four Democratic Republic spellings, "congo kinshasa" among them. */
  lemma DemocraticCongoSpellings(q: string)
    ensures var spellings := ["drc", "democratic republic of congo", "democratic republic of the congo", "congo kinshasa"];
            LowerCase(q) in spellings ==> FormatQuery(q) == "DRC"
  {
    CountryGroupsListedFirst();
    if LowerCase(q) in CountryGroups[5].synonyms {
      QueryIgnoresCaseOnHits(q, q, 5);
    }
  }

  /** The three Republic spellings: the bare "congo" is the Republic, because
      the whole query is compared, not its words. */
  lemma CongoRepublicSpellings(q: string)
    ensures LowerCase(q) in ["congo", "congo republic", "congo brazzaville"] ==> FormatQuery(q) == "Congo"
  {
    CountryGroupsListedFirst();
    if LowerCase(q) in CountryGroups[6].synonyms {
      QueryIgnoresCaseOnHits(q, q, 6);
    }
  }

  lemma VirginIslandsSpellings(q: string)
    ensures LowerCase(q) in ["us virgin islands", "u.s. virgin islands"] ==> FormatQuery(q) == "U.S. Virgin Islands"
  {
    CountryGroupsListedFirst();
    if LowerCase(q) in CountryGroups[7].synonyms {
      QueryIgnoresCaseOnHits(q, q, 7);
    }
  }

  /** The unaccented and accented spellings give the accented key. */
  lemma ReunionSpellings(q: string)
    ensures LowerCase(q) in ["reunion", "r\U{E9}union"] ==> FormatQuery(q) == "R\U{E9}union"
  {
    CountryGroupsListedFirst();
    if LowerCase(q) in CountryGroups[8].synonyms {
      QueryIgnoresCaseOnHits(q, q, 8);
    }
  }

  lemma ReunionCapitalsLowerCase()
    ensures LowerCase("R\U{C9}UNION") == "r\U{E9}union"
  {
  }

  /** With Latin-1 case mapping the capitals "RÉUNION" are one of the
      Réunion spellings. */
  lemma ReunionCapitals()
    ensures FormatQuery("R\U{C9}UNION") == "R\U{E9}union"
  {
    ReunionCapitalsLowerCase();
    ReunionSpellings("R\U{C9}UNION");
  }

  lemma CuracaoSpellings(q: string)
    ensures LowerCase(q) in ["curacao", "cura\U{E7}ao"] ==> FormatQuery(q) == "Cura\U{E7}ao"
  {
    CountryGroupsListedFirst();
    if LowerCase(q) in CountryGroups[9].synonyms {
      QueryIgnoresCaseOnHits(q, q, 9);
    }
  }

  /** Each synonym group shares no spelling with the groups tested before it;
      the ten groups are checked a few at a time. */
  lemma CountryGroupsListedFirst()
    ensures forall k :: 0 <= k < |CountryGroups| ==> ListedFirstAt(CountryGroups, k)
  {
    FirstGroupsListedFirst();
    MiddleGroupsListedFirst();
    LastGroupsListedFirst();
  }

  /** The United States, United Kingdom, Emirates and Korea groups. */
  lemma FirstGroupsListedFirst()
    ensures forall k :: 0 <= k < 4 ==> ListedFirstAt(CountryGroups, k)
  {
    forall k | 0 <= k < 4
      ensures ListedFirstAt(CountryGroups, k)
    {
      if k == 0 {
      } else if k == 1 {
      } else if k == 2 {
      } else {
        assert k == 3;
      }
    }
  }

  /** The Central African Republic and the two Congo groups. */
  lemma MiddleGroupsListedFirst()
    ensures forall k :: 4 <= k < 7 ==> ListedFirstAt(CountryGroups, k)
  {
    forall k | 4 <= k < 7
      ensures ListedFirstAt(CountryGroups, k)
    {
      if k == 4 {
      } else if k == 5 {
      } else {
        assert k == 6;
      }
    }
  }

  /** The Virgin Islands, Réunion and Curaçao groups. */
  lemma LastGroupsListedFirst()
    ensures forall k :: 7 <= k < |CountryGroups| ==> ListedFirstAt(CountryGroups, k)
  {
    forall k | 7 <= k < |CountryGroups|
      ensures ListedFirstAt(CountryGroups, k)
    {
      if k == 7 {
      } else if k == 8 {
      } else {
        assert k == 9;
      }
    }
  }

  /** No spelling belongs to two groups, so the order in which `formatQuery`
      tests them is not observable. */
  lemma CountryGroupsDisjoint()
    ensures Disjoint(CountryGroups)
  {
    CountryGroupsListedFirst();
    DisjointWhenListedFirst(CountryGroups);
  }

  /** Every shorthand begins with a capital, so text without capitals is
      never one. */
  lemma LowerTextIsNoShorthand(s: string)
    requires NoUpper(s)
    ensures s !in StateShorthands
  {
    assert forall k :: k in StateShorthands ==> |k| > 0 && IsUpperLetter(k[0]);
  }

  /** A two-character state is looked up without regard to its case. */
  lemma AbbreviationIgnoresCase(abbreviations: map<string, string>, a: string, b: string)
    requires |a| == 2 && LowerCase(a) == LowerCase(b)
    ensures FormatState(abbreviations, a) == FormatState(abbreviations, b)
  {
    UpperCaseIgnoresCase(a, b);
  }

  /** Every entry of a well-formed abbreviation table is reached, in upper or
      lower case, and names a non-empty state. */
  lemma AbbreviationRoundTrip(abbreviations: map<string, string>, a: string)
    requires AbbreviationTable(abbreviations) && a in abbreviations
    ensures FormatState(abbreviations, a) == Some(abbreviations[a])
    ensures FormatState(abbreviations, LowerCase(a)) == Some(abbreviations[a])
    ensures abbreviations[a] != []
  {
    UpperCaseOfLowerCase(a);
  }

  /** No shorthand is two characters long, so the abbreviation branch never
      hides one: each of the nine expands. */
  lemma ShorthandsExpand(abbreviations: map<string, string>, s: string)
    requires s in StateShorthands
    ensures |s| != 2
    ensures FormatState(abbreviations, s) == Some(StateShorthands[s])
  {
  }

  /** The shorthands are matched with their exact capitals. */
  lemma ShorthandsAreCaseSensitive(abbreviations: map<string, string>)
    ensures FormatState(abbreviations, "N Carolina") == Some("North Carolina")
    ensures FormatState(abbreviations, "n carolina") == Some("n carolina")
  {
    ShorthandsExpand(abbreviations, "N Carolina");
    LowerTextIsNoShorthand("n carolina");
  }
}

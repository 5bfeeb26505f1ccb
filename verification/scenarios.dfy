/** Whole messages taken through the handler, for the command forms the help
    text advertises and for the edges of the grammar. The tokenizer is a
    parameter; each scenario states the words it yields for the message. */
module Scenarios {
  import opened Optional
  import opened Text
  import opened Format
  import opened Router

  /** Lower-case facts about the words the scenarios use, one per lemma so
      that each is evaluated on its own. */
  lemma YesterdayLowerCase()
    ensures LowerCase(YesterdayWord) == YesterdayWord
  {
  }

  lemma WorldLowerCase()
    ensures LowerCase("world") == "world"
  {
  }

  lemma OregonLowerCase()
    ensures LowerCase("oregon") == "oregon"
    ensures "oregon" !in StateShorthands
    ensures TitleCase("oregon") == "Oregon"
  {
  }

  lemma UsLowerCase()
    ensures LowerCase("us") == "us"
  {
  }

  lemma KoreaLowerCase()
    ensures LowerCase("korea") == "korea"
  {
  }

  /** "!cbot show state oregon yesterday": Oregon, as of yesterday. */
  lemma StateReportForYesterday(content: string, tokenize: string -> seq<string>, abbreviations: map<string, string>)
    requires LowerCase(content) == "!cbot show state oregon yesterday"
    requires tokenize(LowerCase(content)) == ["cbot", "show", "state", "oregon", "yesterday"]
    ensures Route(content, tokenize, abbreviations, true) == State("Oregon", true)
  {
    YesterdayLowerCase();
    var c := Parse(LowerCase(content), tokenize).value;
    assert c == Command(Some("show"), Some("state"), ["oregon"], true);
    assert Join(c.query, " ") == "oregon";
    OregonLowerCase();
  }

  /** "!cbot show world": the world report for today. */
  lemma WorldReport(content: string, tokenize: string -> seq<string>, abbreviations: map<string, string>)
    requires LowerCase(content) == "!cbot show world"
    requires tokenize(LowerCase(content)) == ["cbot", "show", "world"]
    ensures Route(content, tokenize, abbreviations, true) == World(false)
  {
    YesterdayLowerCase();
    WorldLowerCase();
    assert Parse(LowerCase(content), tokenize).value == Command(Some("show"), Some("world"), [], false);
  }

  /** "!cbots show world": the trigger test has no word boundary, and the
      first word is dropped whatever it is. */
  lemma TriggerHasNoWordBoundary(content: string, tokenize: string -> seq<string>, abbreviations: map<string, string>)
    requires LowerCase(content) == "!cbots show world"
    requires tokenize(LowerCase(content)) == ["cbots", "show", "world"]
    ensures Route(content, tokenize, abbreviations, true) == World(false)
  {
    YesterdayLowerCase();
    WorldLowerCase();
    assert Parse(LowerCase(content), tokenize).value == Command(Some("show"), Some("world"), [], false);
  }

  /** "!cbot bogus": a command word that is neither "help" nor "show". */
  lemma UnknownCommandWord(content: string, tokenize: string -> seq<string>, abbreviations: map<string, string>)
    requires Trigger <= LowerCase(content)
    requires tokenize(LowerCase(content)) == ["cbot", "bogus"]
    ensures Route(content, tokenize, abbreviations, true) == Unknown
  {
    assert LowerCase("bogus") != YesterdayWord;
  }

  /** "!cbot show" and "!cbot show yesterday": "show" without a scope. */
  lemma MissingScope(content: string, tokenize: string -> seq<string>, abbreviations: map<string, string>)
    requires Trigger <= LowerCase(content)
    requires tokenize(LowerCase(content)) in [["cbot", "show"], ["cbot", "show", "yesterday"]]
    ensures Route(content, tokenize, abbreviations, true) == Unknown
  {
    YesterdayLowerCase();
    assert LowerCase("show") != YesterdayWord;
    assert Parse(LowerCase(content), tokenize).value.scope == None;
  }

  /** "!cbot yesterday": once the yesterday word is taken off, no command is
      left. */
  lemma NothingButYesterday(content: string, tokenize: string -> seq<string>, abbreviations: map<string, string>)
    requires Trigger <= LowerCase(content)
    requires tokenize(LowerCase(content)) == ["cbot", "yesterday"]
    ensures Route(content, tokenize, abbreviations, true) == Unknown
  {
    YesterdayLowerCase();
    assert Parse(LowerCase(content), tokenize).value.command == None;
  }

  /** "!cbot show country us": the key "USA", shown as "the United States". */
  lemma CountryReportForUs(content: string, tokenize: string -> seq<string>, abbreviations: map<string, string>)
    requires LowerCase(content) == "!cbot show country us"
    requires tokenize(LowerCase(content)) == ["cbot", "show", "country", "us"]
    ensures Route(content, tokenize, abbreviations, true) == Country("USA", "the United States", false)
  {
    YesterdayLowerCase();
    UsLowerCase();
    var c := Parse(LowerCase(content), tokenize).value;
    assert c == Command(Some("show"), Some("country"), ["us"], false);
    UnitedStatesSpellings(Join(c.query, " "));
  }

  /** "!cbot show country korea": the key "S. Korea", displayed unchanged. */
  lemma CountryReportForKorea(content: string, tokenize: string -> seq<string>, abbreviations: map<string, string>)
    requires LowerCase(content) == "!cbot show country korea"
    requires tokenize(LowerCase(content)) == ["cbot", "show", "country", "korea"]
    ensures Route(content, tokenize, abbreviations, true) == Country("S. Korea", "S. Korea", false)
  {
    YesterdayLowerCase();
    KoreaLowerCase();
    var c := Parse(LowerCase(content), tokenize).value;
    assert c == Command(Some("show"), Some("country"), ["korea"], false);
    KoreaSpellings(Join(c.query, " "));
  }

  lemma CarolinaLowerCase()
    ensures LowerCase("carolina") == "carolina"
  {
  }

  lemma TitleCaseOfNCarolina(s: string)
    requires s == "n carolina"
    ensures TitleCase(s) == "N Carolina"
  {
    assert s == "n" + " " + "carolina";
    TitleCaseAcrossSpace("n", "carolina");
    assert TitleCase("carolina") == "Carolina";
  }

  /** "!cbot show state n carolina": the shorthand is lower-cased with the
      message, so it is not expanded and "N Carolina" is looked up. */
  lemma StateShorthandThroughTheBot(content: string, tokenize: string -> seq<string>, abbreviations: map<string, string>)
    requires LowerCase(content) == "!cbot show state n carolina"
    requires tokenize(LowerCase(content)) == ["cbot", "show", "state", "n", "carolina"]
    ensures Route(content, tokenize, abbreviations, true) == State("N Carolina", false)
  {
    YesterdayLowerCase();
    CarolinaLowerCase();
    var c := Parse(LowerCase(content), tokenize).value;
    assert c == Command(Some("show"), Some("state"), ["n", "carolina"], false);
    assert Join(c.query, " ") == "n carolina" by {
      assert Join(c.query[1..], " ") == "carolina";
    }
    ShorthandsAreCaseSensitive(abbreviations);
    TitleCaseOfNCarolina(Join(c.query, " "));
  }

  lemma OrCases()
    ensures LowerCase("or") == "or"
    ensures UpperCase("or") == "OR"
    ensures TitleCase("Oregon") == "Oregon"
  {
  }

  /** "!cbot show state or": the abbreviation, looked up as "OR". */
  lemma StateAbbreviationThroughTheBot(content: string, tokenize: string -> seq<string>, abbreviations: map<string, string>)
    requires LowerCase(content) == "!cbot show state or"
    requires tokenize(LowerCase(content)) == ["cbot", "show", "state", "or"]
    requires "OR" in abbreviations && abbreviations["OR"] == "Oregon"
    ensures Route(content, tokenize, abbreviations, true) == State("Oregon", false)
  {
    YesterdayLowerCase();
    OrCases();
    var c := Parse(LowerCase(content), tokenize).value;
    assert c == Command(Some("show"), Some("state"), ["or"], false);
  }

  lemma ZzCases()
    ensures LowerCase("zz") == "zz"
    ensures UpperCase("zz") == "ZZ"
  {
  }

  /** "!cbot show state zz": an abbreviation missing from the table gives
      `undefined`, which title-cases to the empty state name. */
  lemma UnknownAbbreviationThroughTheBot(content: string, tokenize: string -> seq<string>, abbreviations: map<string, string>)
    requires LowerCase(content) == "!cbot show state zz"
    requires tokenize(LowerCase(content)) == ["cbot", "show", "state", "zz"]
    requires "ZZ" !in abbreviations
    ensures Route(content, tokenize, abbreviations, true) == State("", false)
  {
    YesterdayLowerCase();
    ZzCases();
    var c := Parse(LowerCase(content), tokenize).value;
    assert c == Command(Some("show"), Some("state"), ["zz"], false);
  }

  /** A message without the trigger, or with a space inside it, is ignored,
      and so is any message in a channel that is not allowed. */
  lemma IgnoredMessages(bare: string, spaced: string, content: string, tokenize: string -> seq<string>,
                        abbreviations: map<string, string>)
    requires LowerCase(bare) == "cbot show world"
    requires LowerCase(spaced) == "! cbot show world"
    ensures Route(bare, tokenize, abbreviations, true) == Ignored
    ensures Route(spaced, tokenize, abbreviations, true) == Ignored
    ensures Route(content, tokenize, abbreviations, false) == Ignored
  {
    assert LowerCase(bare)[0] != Trigger[0];
    assert LowerCase(spaced)[1] != Trigger[1];
  }

  /** A lower-case spelling that no synonym group lists. */
  ghost predicate Unlisted(s: string) {
    forall i, a :: 0 <= i < |CountryGroups| && 0 <= a < |CountryGroups[i].synonyms| ==>
      CountryGroups[i].synonyms[a] != s
  }

  lemma UnlistedIsTitleCased(query: string)
    requires Unlisted(LowerCase(query))
    ensures FormatQuery(query) == TitleCase(query)
  {
  }

  lemma PeruIsTitleCased()
    ensures Unlisted("peru")
    ensures TitleCase("peru") == "Peru"
  {
  }

  lemma DottedKoreaIsTitleCased()
    ensures Unlisted("s.korea")
    ensures TitleCase("s.korea") == "S.Korea"
  {
  }

  /** A country outside the table is title-cased and passed on. */
  lemma UnlistedCountryIsTitleCased()
    ensures FormatQuery("peru") == "Peru"
  {
    PeruIsTitleCased();
    UnlistedIsTitleCased("peru");
  }

  /** Typed as "s.korea", Korea is title-cased to "S.Korea", the key the
      Korean display phrase is filed under, and is displayed as "South Korea". */
  lemma DottedKoreaReachesDisplayPhrase()
    ensures FormatQuery("s.korea") == "S.Korea"
    ensures FormatCountry(FormatQuery("s.korea")) == "South Korea"
  {
    DottedKoreaIsTitleCased();
    UnlistedIsTitleCased("s.korea");
  }

  lemma SKoreaIsTitleCased(s: string)
    requires s == "s korea"
    ensures LowerCase(s) == s
    ensures Unlisted(s)
    ensures TitleCase(s) == "S Korea"
  {
    assert s == "s" + " " + "korea";
    TitleCaseAcrossSpace("s", "korea");
    assert TitleCase("korea") == "Korea";
  }

  lemma DottedKoreaParse(message: string, tokenize: string -> seq<string>)
    requires message == "!cbot show country s.korea"
    requires tokenize(message) == ["cbot", "show", "country", "s", "korea"]
    ensures Parse(message, tokenize) == Some(Command(Some("show"), Some("country"), ["s", "korea"], false))
  {
    YesterdayLowerCase();
    KoreaLowerCase();
  }

  /** "!cbot show country s.korea": the word splitter breaks "s.korea" at the
      dot, the two words are joined back with a space, and the unlisted
      "s korea" is title-cased and shown as it is; the bot never shows
      "South Korea". */
  lemma DottedKoreaThroughTheBot(content: string, tokenize: string -> seq<string>, abbreviations: map<string, string>)
    requires LowerCase(content) == "!cbot show country s.korea"
    requires tokenize(LowerCase(content)) == ["cbot", "show", "country", "s", "korea"]
    ensures Route(content, tokenize, abbreviations, true) == Country("S Korea", "S Korea", false)
  {
    DottedKoreaParse(LowerCase(content), tokenize);
    var q := Join(["s", "korea"], " ");
    assert q == "s korea";
    SKoreaIsTitleCased(q);
    UnlistedIsTitleCased(q);
  }
}

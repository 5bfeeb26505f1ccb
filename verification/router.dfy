/** The command line of the bot's message handler (`index.js`), lifted out of
    the event callback into a pure function from the message text to the one
    report or reply the bot chooses. */
module Router {
  import opened Optional
  import opened Text
  import opened Format

  const BotName: string := "cbot"
  /** What a lower-cased message must begin with; no word boundary follows. */
  const Trigger: string := "!" + BotName

  const HelpCommand: string := "help"
  const ShowCommand: string := "show"
  const WorldScope: string := "world"
  const CountryScope: string := "country"
  const StateScope: string := "state"
  const YesterdayWord: string := "yesterday"

  /** What the handler does with one message. */
  datatype Outcome =
    | Ignored                                                  // not a bot command, or not an allowed channel
    | Help                                                     // the help text
    | Unknown                                                  // the unknown-command reply
    | World(yesterday: bool)                                   // world report
    | Country(key: string, display: string, yesterday: bool)   // country report: API key and display phrase
    | State(key: string, yesterday: bool)                      // state report: API state name

  /** The destructured words `[command, scope, ...query]` with the yesterday
      flag; an absent command or scope is JavaScript's `undefined`. */
  datatype Command = Command(command: Option<string>, scope: Option<string>, query: seq<string>, yesterday: bool)

  function OptionToSeq(o: Option<string>): seq<string> {
    match o
    case Some(w) => [w]
    case None => []
  }

  /** The words a command was destructured from, flag aside. */
  function Flatten(c: Command): seq<string> {
    OptionToSeq(c.command) + OptionToSeq(c.scope) + c.query
  }

  /** Destructuring fills the command first, then the scope, then the query. */
  predicate WellFormed(c: Command) {
    (c.scope.Some? ==> c.command.Some?) && (c.query != [] ==> c.scope.Some?)
  }

  /** `v.words(message).slice(1)`: every word but the first. */
  function Arguments(words: seq<string>): (r: seq<string>)
    ensures |words| > 0 ==> words == [words[0]] + r
    ensures |words| == 0 ==> r == []
  {
    if |words| == 0 then [] else words[1..]
  }

  /** The yesterday flag is raised exactly when the last word lower-cases to
      "yesterday"; that one word, and nothing else, is then dropped. */
  function StripYesterday(words: seq<string>): (r: (seq<string>, bool))
    ensures r.1 <==> |words| > 0 && LowerCase(words[|words| - 1]) == YesterdayWord
    ensures r.0 + (if r.1 then [words[|words| - 1]] else []) == words
  {
    if |words| > 0 && LowerCase(words[|words| - 1]) == YesterdayWord then
      (words[..|words| - 1], true)
    else
      (words, false)
  }

  /** `const [command, scope, ...query] = words`. Destructuring loses no word:
      flattening the result gives the words back. */
  function Destructure(words: seq<string>, yesterday: bool): (c: Command)
    ensures WellFormed(c)
    ensures Flatten(c) == words
    ensures c.yesterday == yesterday
  {
    if |words| == 0 then Command(None, None, [], yesterday)
    else if |words| == 1 then Command(Some(words[0]), None, [], yesterday)
    else Command(Some(words[0]), Some(words[1]), words[2..], yesterday)
  }

  /** The other direction: a well-formed command is the destructuring of its
      own words, so the contract of `Destructure` pins down its result. */
  lemma DestructureFlatten(c: Command)
    requires WellFormed(c)
    ensures Destructure(Flatten(c), c.yesterday) == c
  {
    match c.command
    case None =>
    case Some(w) =>
      match c.scope
      case None =>
      case Some(v) =>
        assert Flatten(c) == [w, v] + c.query;
  }

  /** The command a lower-cased message carries, or `None` when it does not
      begin with the trigger. The first word (the trigger's) is discarded; the
      command, scope and query are the remaining words in order, and the flag
      is raised exactly when a final "yesterday" was dropped from them. */
  function Parse(message: string, tokenize: string -> seq<string>): (r: Option<Command>)
    ensures r.None? <==> !(Trigger <= message)
    ensures r.Some? ==> WellFormed(r.value)
    ensures var args := Arguments(tokenize(message));
            r.Some? ==> (r.value.yesterday <==> |args| > 0 && LowerCase(args[|args| - 1]) == YesterdayWord)
    ensures var args := Arguments(tokenize(message));
            r.Some? ==> Flatten(r.value) + (if r.value.yesterday then [args[|args| - 1]] else []) == args
  {
    if Trigger <= message then
      var (words, yesterday) := StripYesterday(Arguments(tokenize(message)));
      Some(Destructure(words, yesterday))
    else
      None
  }

  /** The two `switch` statements, for an allowed channel. A country report
      carries `formatQuery` of the joined query and `formatCountry` of that
      key; a state report carries `titleCase(formatState(...))` of the joined
      query, where title-casing `undefined` gives the empty string. */
  function Dispatch(c: Command, abbreviations: map<string, string>): (o: Outcome)
    ensures o != Ignored
    ensures o.Help? <==> c.command == Some(HelpCommand)
    ensures o.World? <==> c.command == Some(ShowCommand) && c.scope == Some(WorldScope)
    ensures o.Country? <==> c.command == Some(ShowCommand) && c.scope == Some(CountryScope)
    ensures o.State? <==> c.command == Some(ShowCommand) && c.scope == Some(StateScope)
    ensures o.Unknown? <==> c.command != Some(HelpCommand) &&
                            (c.command != Some(ShowCommand) || c.scope !in [Some(WorldScope), Some(CountryScope), Some(StateScope)])
    ensures (o.World? || o.Country? || o.State?) ==> o.yesterday == c.yesterday
    ensures o.Country? ==> o.key == FormatQuery(Join(c.query, " ")) && o.display == FormatCountry(o.key)
    ensures o.State? ==> o.key == TitleCase(FormatState(abbreviations, Join(c.query, " ")).OrElse(""))
  {
    match c.command
    case Some(command) =>
      if command == ShowCommand then
        match c.scope
        case Some(scope) =>
          if scope == WorldScope then World(c.yesterday)
          else if scope == CountryScope then
            var key := FormatQuery(Join(c.query, " "));
            Country(key, FormatCountry(key), c.yesterday)
          else if scope == StateScope then
            State(TitleCase(FormatState(abbreviations, Join(c.query, " ")).OrElse("")), c.yesterday)
          else Unknown
        case None => Unknown
      else if command == HelpCommand then Help
      else Unknown
    case None => Unknown
  }

  /** The message handler: lower-case the content, check the trigger, read the
      command, and dispatch it only when the channel is allowed. */
  function Route(content: string, tokenize: string -> seq<string>, abbreviations: map<string, string>,
                 channelAllowed: bool): (o: Outcome)
    ensures o == Ignored <==> !(Trigger <= LowerCase(content)) || !channelAllowed
    ensures o != Ignored ==> o == Dispatch(Parse(LowerCase(content), tokenize).value, abbreviations)
  {
    match Parse(LowerCase(content), tokenize)
    case None => Ignored
    case Some(c) => if channelAllowed then Dispatch(c, abbreviations) else Ignored
  }

  /** The handler reads only the lower-cased message, so the casing of the
      content never changes the outcome. */
  lemma RouteIgnoresCase(content: string, tokenize: string -> seq<string>, abbreviations: map<string, string>,
                         channelAllowed: bool)
    ensures Route(LowerCase(content), tokenize, abbreviations, channelAllowed)
         == Route(content, tokenize, abbreviations, channelAllowed)
  {
    LowerCaseIdempotent(content);
  }

  /** A report's yesterday flag is raised exactly when the last word after
      the trigger word is "yesterday". */
  lemma YesterdayFlag(content: string, tokenize: string -> seq<string>, abbreviations: map<string, string>)
    requires Trigger <= LowerCase(content)
    ensures var o := Route(content, tokenize, abbreviations, true);
            var args := Arguments(tokenize(LowerCase(content)));
            (o.World? || o.Country? || o.State?) ==>
              (o.yesterday <==> |args| > 0 && LowerCase(args[|args| - 1]) == YesterdayWord)
  {
  }

  /** A command word "help" selects the help text whatever words follow it,
      a trailing "yesterday" included. */
  lemma HelpWhateverFollows(content: string, tokenize: string -> seq<string>, abbreviations: map<string, string>)
    requires Trigger <= LowerCase(content)
    requires |tokenize(LowerCase(content))| >= 2 && tokenize(LowerCase(content))[1] == HelpCommand
    ensures Route(content, tokenize, abbreviations, true) == Help
  {
    var args := Arguments(tokenize(LowerCase(content)));
    assert args[0] == HelpCommand;
    assert LowerCase(HelpCommand) == HelpCommand;
    var (words, yesterday) := StripYesterday(args);
    assert |words| > 0 && words[0] == HelpCommand;
  }

  /** Every query word of a parsed message is one of the tokenizer's words. */
  lemma QueryWordsAreTokens(message: string, tokenize: string -> seq<string>)
    requires Trigger <= message
    ensures forall w :: w in Parse(message, tokenize).value.query ==> w in tokenize(message)
  {
    var words := tokenize(message);
    var args := Arguments(words);
    var c := Parse(message, tokenize).value;
    forall w | w in c.query
      ensures w in words
    {
      var i :| 0 <= i < |c.query| && c.query[i] == w;
      var k := |OptionToSeq(c.command) + OptionToSeq(c.scope)|;
      assert Flatten(c)[k + i] == w;
      assert args[k + i] == w;
      assert words[k + i + 1] == w;
    }
  }

  /** voca's `words` splits at dots, so no word it yields has one. When the
      tokenizer keeps to that, the joined country query has no dot either:
      the bot never displays "South Korea" and never meets the spelling
      "u.s. virgin islands". */
  lemma DottedSpellingsUnreachable(content: string, tokenize: string -> seq<string>,
                                   abbreviations: map<string, string>, channelAllowed: bool)
    requires forall w :: w in tokenize(LowerCase(content)) ==> '.' !in w
    ensures var o := Route(content, tokenize, abbreviations, channelAllowed);
            o.Country? ==> o.display != "South Korea"
    ensures var c := Parse(LowerCase(content), tokenize);
            c.Some? ==> LowerCase(Join(c.value.query, " ")) != "u.s. virgin islands"
  {
    var message := LowerCase(content);
    if Trigger <= message {
      var c := Parse(message, tokenize).value;
      QueryWordsAreTokens(message, tokenize);
      assert forall i :: 0 <= i < |c.query| ==> '.' !in c.query[i] by {
        forall i | 0 <= i < |c.query|
          ensures '.' !in c.query[i]
        {
          assert c.query[i] in c.query;
        }
      }
      var q := Join(c.query, " ");
      JoinKeepsDotFree(c.query, " ");
      DotFreeQueryNeverShowsSouthKorea(q);
      LowerCaseKeepsDotFree(q);
      DotFreeIsNotDottedVirginIslands(LowerCase(q));
    }
  }

  /** The shorthand table of `formatState` is matched case-sensitively, but
      the handler lower-cases the message first: when the tokenizer returns
      words without capitals (as it does on lower-cased text), a state query
      that is not two characters long is only title-cased, never expanded. */
  lemma StateShorthandsUnreachable(content: string, tokenize: string -> seq<string>,
                                   abbreviations: map<string, string>)
    requires forall w :: w in tokenize(LowerCase(content)) ==> NoUpper(w)
    requires Route(content, tokenize, abbreviations, true).State?
    ensures var q := Join(Parse(LowerCase(content), tokenize).value.query, " ");
            |q| != 2 ==> Route(content, tokenize, abbreviations, true).key == TitleCase(q)
  {
    var c := Parse(LowerCase(content), tokenize).value;
    QueryWordsAreTokens(LowerCase(content), tokenize);
    assert forall i :: 0 <= i < |c.query| ==> NoUpper(c.query[i]) by {
      forall i | 0 <= i < |c.query| ensures NoUpper(c.query[i]) {
        assert c.query[i] in c.query;
      }
    }
    var q := Join(c.query, " ");
    if |q| != 2 {
      LowerTextIsNoShorthand(q);
    }
  }
}

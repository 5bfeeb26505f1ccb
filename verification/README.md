# covid-data-bot: query normalisation and command routing

This project models the decision logic of a Discord bot that answers
`!cbot …` commands with COVID-19 figures. It covers two pieces.

- **The three normalisers of `format.js`** (module `Format`).
  - `FormatQuery` turns free text into the country key the statistics API
    expects. It tests ten synonym groups in source order, without regard to
    case, and title-cases anything else.
  - `FormatCountry` turns a key into the phrase shown to users. It knows
    seven keys and returns any other key unchanged.
  - `FormatState` handles a state query. It looks a two-character query up,
    upper-cased, in the abbreviation table, and gives `undefined` (`None`)
    when the abbreviation is missing. It expands one of nine exact shorthands
    such as `N Carolina`. It passes anything else through.
- **The message handler of `index.js`** (module `Router`), written as a pure
  function `Route(content, tokenize, abbreviations, channelAllowed)`. It
  lower-cases the message and tests the `!cbot` prefix. It drops the first
  word, and strips one trailing `yesterday` into a flag. It destructures
  `[command, scope, ...query]` and returns exactly one `Outcome`: `Ignored`,
  `Help`, `Unknown`, `World(y)`, `Country(key, display, y)` or
  `State(key, y)`. The country and state payloads are computed the way the
  report handlers compute them.

The library calls the source relies on are modelled in module `Text`. Case
mapping (voca's `lowerCase`, `upperCase`, `titleCase`) works over ASCII and
the Latin-1 supplement, so `RÉUNION` lower-cases to `réunion`. `TitleCase`
follows voca's Latin word pattern: a letter begins a word after a non-letter,
at a lower-to-upper change, or where an upper-case run meets a lower-case
letter. `Join` models lodash's `join`. Module `Stats` holds the derived
`recovered = cases - deaths - active` count. Module `Scenarios` takes whole
messages through `Route`.

The model reproduces these sharp edges of the code as written. Each one is
proved.

- `formatQuery` emits `"S. Korea"`, but `formatCountry` is keyed on
  `"S.Korea"`. Korea is therefore displayed as `"S. Korea"`. Called directly,
  `formatQuery("s.korea")` title-cases to `"S.Korea"` and so reaches
  `"South Korea"`. Through the bot it never does: voca's `words` splits
  `"s.korea"` at the dot, the handler joins the pieces with a space, and
  `formatQuery("s korea")` gives `"S Korea"`, shown as it is. For the same
  reason the spelling `"u.s. virgin islands"` is never matched through the
  bot. The tokenizer is a parameter here, so these two are proved for every
  tokenizer that yields no word with a dot, as voca's does
  (`Router.DottedSpellingsUnreachable`).
- An unknown two-letter state gives `undefined`. `titleCase(undefined)` is
  the empty string, so the bot fetches every state and looks up state `""`.
- The shorthands are matched case-sensitively. The handler lower-cases every
  message first, so no shorthand can be reached through the bot:
  `show state n carolina` looks up `"N Carolina"`.
- The prefix test has no word boundary, so `!cbots show world` is a world
  report.
- The state handler title-cases whatever `formatState` returns, table values
  included. A value with a lower-case inner word is raised: `"District of
  Columbia"` is looked up as `"District Of Columbia"`.

Title-casing is idempotent on text without capitals
(`Text.TitleCaseIdempotent`). voca's `titleCase` is not idempotent on mixed
case: `"aB"` becomes `"AB"`, then `"Ab"`
(`Text.TitleCaseNotIdempotentOnMixedCase`).

## Model

| member | source | states |
|---|---|---|
| Text.LowerCase | index.js:208 | the lower-cased message keeps its length, has no upper-case letter, and each character equals the input's up to case; text without capitals is unchanged |
| Text.LowerCaseIdempotent | index.js:213 | lower-casing an already lower-cased word changes nothing |
| Text.UpperCase | format.js:99 | the upper-cased abbreviation keeps its length, has no lower-case letter that has an upper-case partner, and each character equals the input's up to case |
| Text.UpperCaseIgnoresCase | format.js:99 | two strings equal up to case upper-case to the same string |
| Text.UpperCaseOfLowerCase | format.js:99 | a string of capitals is restored by upper-casing its lower-case form |
| Text.TitleCase | format.js:59 | title-casing changes only the case of letters: same length, each character equal up to case, non-letters kept |
| Text.TitleCaseRaisesWordStarts | format.js:58-59 | the capitalised version: every letter at the start or after a non-letter is upper-cased, and a lower-case letter after a letter is kept |
| Text.TitleCaseKeepsLowerCase | format.js:59 | the title-cased string lower-cases to the same string as the input |
| Text.TitleCaseOfLowerTextAt | index.js:139 | on text without capitals, a letter is raised iff it starts the text or follows a non-letter, and every other character is kept |
| Text.TitleCaseAcrossSpace | index.js:139 | title-casing two words joined by a space title-cases each word on its own |
| Text.TitleCaseRaisesInnerWords | index.js:139 | a table value with a lower-case inner word is raised: "District of Columbia" becomes "District Of Columbia" |
| Text.TitleCaseIdempotent | format.js:59 | title-casing text without capitals twice is the same as once |
| Text.TitleCaseNotIdempotentOnMixedCase | format.js:59 | with capitals inside a word it is not: "aB" becomes "AB", which becomes "Ab" |
| Text.Join | index.js:97 | joining no words gives "", one word gives that word, and words and separator without capitals join to text without capitals |
| Text.JoinSnoc | index.js:97 | appending a word appends the separator and the word to the joined text |
| Text.JoinLength | index.js:97 | the joined length is the words' total length plus one separator between each two words |
| Text.JoinKeepsDotFree | index.js:97 | words and separator without a dot join to text without a dot |
| Format.FirstMatchIsFirstListing | format.js:11-60 | the chain of `if`s finds nothing iff no group lists the spelling, and otherwise gives the key of a group that lists it with no earlier group listing it |
| Format.FirstMatchListedFirst | format.js:11-56 | when no earlier group shares a spelling with group k, every spelling of group k stops the chain at group k |
| Format.DisjointWhenListedFirst | format.js:11-56 | groups that each share no spelling with an earlier group are pairwise disjoint |
| Format.CountryGroupsListedFirst | format.js:11-56 | each of the ten synonym groups shares no spelling with the groups tested before it |
| Format.FormatQuery | format.js:9-62 | the key of the first group listing the lower-cased query; the title-cased query when no group lists it |
| Format.QueryIgnoresCaseOnHits | format.js:11-56 | two casings of one spelling of group k, listed by no earlier group, both give group k's key |
| Format.UnitedStatesSpellings | format.js:11-17 | every casing of usa, united states, united states of america, america and us is "USA", displayed "the United States" |
| Format.UnitedKingdomSpellings | format.js:18-21 | uk and united kingdom, in any casing, give "UK" |
| Format.EmiratesSpellings | format.js:22-25 | uae and united arab emirates, in any casing, give "UAE" |
| Format.KoreaSpellings | format.js:26-29 | korea and south korea give "S. Korea", which the display table (keyed "S.Korea" at line 75) returns unchanged |
| Format.CentralAfricanRepublicSpellings | format.js:30-33 | car and central african republic, in any casing, give "CAR" |
| Format.DemocraticCongoSpellings | format.js:34-39 | the four Democratic Republic spellings, congo kinshasa among them, give "DRC" |
| Format.CongoRepublicSpellings | format.js:40-44 | congo, congo republic and congo brazzaville give "Congo": the whole query selects the group, not a word of it |
| Format.VirginIslandsSpellings | format.js:45-48 | us virgin islands and u.s. virgin islands give "U.S. Virgin Islands" |
| Format.ReunionSpellings | format.js:49-52 | reunion and réunion, in any casing, give "Réunion" |
| Format.ReunionCapitals | format.js:49-52 | the capitals RÉUNION lower-case to réunion and so give "Réunion" |
| Format.CuracaoSpellings | format.js:53-56 | curacao and curaçao, in any casing, give "Curaçao" |
| Format.CountryGroupsDisjoint | format.js:11-56 | the ten synonym groups share no spelling, so their test order is not observable |
| Format.DotFreeQueryNeverShowsSouthKorea | format.js:26-29 | a query without a dot is never displayed "South Korea": the group key "S. Korea" misses the display entry "S.Korea", and title-casing cannot make the dot |
| Format.FormatCountry | format.js:69-89 | a key of the seven-entry display table gives its phrase; every other string is returned unchanged |
| Format.FormatState | format.js:96-111 | a two-character state is found iff its upper-case form is in the table, giving the table's name; any other string gives the shorthand's expansion when it is exactly a shorthand, itself otherwise |
| Format.AbbreviationIgnoresCase | format.js:97-100 | two-character states equal up to case resolve alike |
| Format.AbbreviationRoundTrip | format.js:97-100 | every entry of a well-formed abbreviation table is reached in upper and in lower case; that its state name is non-empty is part of the assumed table shape (`AbbreviationTable`) |
| Format.ShorthandsExpand | format.js:101-109 | no shorthand has length 2, and each of the nine expands to its full name |
| Format.ShorthandsAreCaseSensitive | format.js:101-110 | "N Carolina" expands to "North Carolina" while "n carolina" passes through unchanged |
| Format.LowerTextIsNoShorthand | format.js:101-110 | text without capitals is never a shorthand |
| Router.Arguments | index.js:211 | the arguments are the words after the first, and nothing when there are no words |
| Router.StripYesterday | index.js:212-216 | the flag is raised iff the last word lower-cases to "yesterday"; the remaining words plus the removed one are the input |
| Router.Destructure | index.js:217 | destructuring is well formed and flattening it gives the words back |
| Router.DestructureFlatten | index.js:217 | every well-formed command is the destructuring of its own words |
| Router.Parse | index.js:208-217 | a message yields a command iff it begins with "!cbot"; the flag is raised iff the last argument lower-cases to "yesterday"; the command, scope and query words, plus the removed "yesterday", are exactly the arguments |
| Router.Dispatch | index.js:219-240 | help iff the command is "help"; world, country, state iff "show" with that scope; unknown otherwise; reports carry the flag and the payloads of lines 97, 113 and 139 |
| Router.Route | index.js:207-243 | a message is ignored iff it lacks the "!cbot" prefix or the channel is not allowed; otherwise its command is dispatched |
| Router.RouteIgnoresCase | index.js:208 | the content's casing never changes the outcome |
| Router.YesterdayFlag | index.js:212-216 | a report's flag is raised iff the last argument is "yesterday" |
| Router.HelpWhateverFollows | index.js:235-237 | a first argument "help" gives the help text whatever follows |
| Router.QueryWordsAreTokens | index.js:211-217 | every query word is a word of the tokenised message |
| Router.DottedSpellingsUnreachable | index.js:97-113 | when no word the tokenizer yields has a dot, a country report is never displayed "South Korea" and the joined query never lower-cases to "u.s. virgin islands" |
| Router.StateShorthandsUnreachable | index.js:139 | with lower-case words, a state query that is not two characters long is only title-cased, never expanded |
| Stats.Recovered | index.js:150 | recovered plus deaths plus active equals cases; recovered is non-negative iff deaths plus active do not exceed cases |
| Stats.WithRecovered | index.js:186-187 | the record gets the derived recovered count and keeps every other field |
| Scenarios.StateReportForYesterday | index.js:207-243 | "!cbot show state oregon yesterday" is the Oregon report for yesterday |
| Scenarios.WorldReport | index.js:222-224 | "!cbot show world" is the world report for today |
| Scenarios.TriggerHasNoWordBoundary | index.js:210-211 | "!cbots show world" is still a world report |
| Scenarios.UnknownCommandWord | index.js:238-239 | "!cbot bogus" gives the unknown-command reply |
| Scenarios.MissingScope | index.js:231-233 | "!cbot show", with or without a trailing "yesterday", gives the unknown-command reply |
| Scenarios.NothingButYesterday | index.js:212-217 | "!cbot yesterday" leaves no command once the flag is stripped, and gives the unknown-command reply |
| Scenarios.CountryReportForUs | index.js:97 | "!cbot show country us" reports key "USA" displayed "the United States" |
| Scenarios.CountryReportForKorea | index.js:113 | "!cbot show country korea" reports key "S. Korea" displayed "S. Korea" |
| Scenarios.StateShorthandThroughTheBot | index.js:139 | "!cbot show state n carolina" looks up "N Carolina" |
| Scenarios.StateAbbreviationThroughTheBot | format.js:97-100 | "!cbot show state or" looks up the table's "Oregon" |
| Scenarios.UnknownAbbreviationThroughTheBot | format.js:100 | "!cbot show state zz" with ZZ missing from the table looks up state "" |
| Scenarios.IgnoredMessages | index.js:210 | messages without the prefix, and every message in a channel that is not allowed, are ignored |
| Scenarios.UnlistedCountryIsTitleCased | format.js:57-60 | "peru" is passed on as "Peru" |
| Scenarios.DottedKoreaReachesDisplayPhrase | format.js:75-76 | `formatQuery("s.korea")`, called directly, title-cases to "S.Korea", the one key displayed "South Korea" |
| Scenarios.DottedKoreaThroughTheBot | index.js:97 | "!cbot show country s.korea", split at the dot, looks up and displays "S Korea" |

## Left out

- Discord plumbing is not modelled: connecting, logging in, `channel.send`, fetching the push channel, and the ready log. These are I/O.
- The NovelCovid API calls are not modelled. Neither are the `data.find` lookups over fetched data or the try/catch apology replies. These depend on the network.
- The `node-schedule` job and `update` are not modelled, apart from their recovered arithmetic (`Stats.WithRecovered`). They form a timer-driven push.
- Message text is not modelled. This covers the help and unknown replies and the report templates built with `numeral`, `moment().fromNow()` and `toLocaleString`, including the Oregon footnote. These are formatting libraries and clock readings.
- The contents of `abbreviations.json` are not part of this model. The table is a `map<string, string>` parameter, and `AbbreviationTable` states its assumed shape.
- The `config.json` channel allow-list is a boolean parameter.
- Tokenisation (voca's `words`) is a parameter `tokenize`, applied to the lower-cased message. Scenarios state the words it yields; `Scenarios.DottedKoreaThroughTheBot` gives it the split at the dot that voca makes.
- Text.LowerCase: maps only ASCII and Latin-1 letters. JavaScript's full Unicode `toLowerCase` is not modelled.
- Text.UpperCase: leaves ß, ÿ and the micro sign µ unchanged. JavaScript upper-cases them to "SS", U+0178 and U+039C.
- Text.TitleCase: follows voca's Latin-1 word pattern. Characters outside Latin-1 count as non-letters. voca switches to its Unicode word pattern for such strings, and capitalises a leading ß as "SS" and a leading ÿ as U+0178; the model keeps both unchanged.
- Format.FormatState: `|state|` counts Unicode scalar values. JavaScript's `length` counts UTF-16 code units, which differ only outside the Basic Multilingual Plane.
- Stats.Recovered: computes over unbounded integers. The source subtracts JavaScript numbers, which are exact only below 2^53, and a missing field gives NaN.

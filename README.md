# Dream journal core, modelled in Dafny

This project models the deterministic logic inside the dream-journal web
application (`js/index.js`), and proves properties of that model. The
application's logic has these parts:

- **Seeded shuffle.** `shuffleArray` is a Fisher–Yates loop over a copy of its
  input. Its draws come from `seededRandom`.
- **Keyword analyser.** `dreamAnalysisDB` works as follows:
  - it matches the dream text against a fixed symbol lexicon, in table order,
    and uses a general fallback symbol when nothing matches;
  - it grades clarity by text length;
  - it fills in the mood, the suggestion and a short story from tables with
    defaults.

  `analyzeDreamTheme` picks the first matching visual theme, and
  `analyzeDream` ties the two together.
- **Universe story weaver.** `generateDreamUniverseStory` works on the pool of
  shared dreams:
  - it groups the pool by emotion and picks a largest group;
  - it shuffles that group with the story seed;
  - it takes at most five dreams and truncates each to 100 characters;
  - it draws three keywords and composes the intro, the numbered parts and the
    outro.
- **Journal summaries.**
  - `analyzeDreamPatterns` has five threshold detectors, emitted in a fixed order.
  - `calculateEmotionStats` gives the emotion percentages.
  - `filterDreams` is the diary filter: filter, then reverse.
- **Stored lists.**
  - Adding entries: `saveDream` (with its duration clamp) and `shareDream`.
  - Deleting entries: `deleteDream` and `deleteDreamFromList`.
  - Reality checks: `updateRealityCheck` and `saveRealityNote`.
  - `savedAnalysesManager`.
  - Saved universe stories: `saveUniverseStory`, which de-duplicates by seed,
    and `deleteSavedStory`.

Files and modules:

| file | module | contents |
|---|---|---|
| `common.dfy` | `Common` | `Option`, `includes`, `trim`-blank, number to string, integer `Math.round` of a percentage, keyed lookup |
| `shuffle.dfy` | `Shuffle` | `shuffleArray` as an in-place array loop, proved equal to a recursive specification and a permutation |
| `entities.dfy` | `Entities` | dream, shared dream and reality-check records, the `emotions` table |
| `analyzer.dfy` | `Analyzer` | `dreamAnalysisDB`, `analyzeDreamTheme`, `analyzeDream` |
| `weaver.dfy` | `Weaver` | `generateDreamUniverseStory` |
| `patterns.dfy` | `Patterns` | `analyzeDreamPatterns`, `calculateEmotionStats`, `filterDreams` |
| `store.dfy` | `Store` | `appState` (class `AppState`), `savedAnalysesManager` (class `SavedAnalyses`), the saved stories (class `SavedStories`) |

How the model treats what the code leaves to the browser:

- **`seededRandom`.** This is floating-point (`Math.sin`). It is a parameter
  `rand: int -> UnitReal`, where `UnitReal` is a real in [0, 1). A draw is the
  floor of the exact real product `u * n`. The code floors a product that has
  already been rounded to a double, so that result can differ. But it is always
  an index below `n`, and `rand` is arbitrary, so every draw the browser makes
  is a draw of some generator of the model. Every property proved about the
  shuffle holds for every generator.
- **The weaver's `rng()`.** It mixes in `Math.random()`, so its three uses are
  three free parameters: `tieDraw`, `introDraw` and `outroDraw`. Nothing is
  claimed about repeating the same seed for those choices.
- **`Date.now()`.** It is a parameter `now`. It supplies ids and timestamps, and
  it replaces a zero seed (`seed || Date.now()`). Where one operation calls
  `Date.now()` more than once, the calls may differ by a millisecond. Examples
  are the id and `createdAt` in `saveDream`, the id and timestamp in
  `shareDream`, and the seed fallback and story id in `saveUniverseStory`. The
  model treats those calls as the same instant, and no contract relies on them
  being equal. `new Date()` strings (the ISO
  date, the locale date) are parameters as well.
- **Stored lists.** An array that the code reads from and writes back to
  `localStorage` is a `seq` field of a class, and the operations reassign it.
  The shuffle's working copy is a Dafny `array`, since the source swaps in place.
- **Absent emotions.** An absent or empty emotion (`undefined`, `null` or `''`)
  is the empty string. This is why the dream's emotion, or `fantasy` when it is empty and
  `appState.currentEmotion || 'fantasy'` become a test against `""`. The code
  keys `emotionCounts` by the value itself, so `undefined`, `null` and `''`
  would be three keys, and each card would show its own name. The model merges
  them into one key `""`. This matters only for records that `saveDream` never
  creates: it refuses to save without an emotion.
- **`Math.round(c / n * 100)`.** It is computed exactly as
  `(200c + n) div (2n)`: the nearest integer, with halves rounded up.
- **JavaScript objects.** An object used as a dictionary (`emotionGroups`,
  `emotionCounts`) is a sequence of key/value pairs in insertion order, as
  `Object.entries` lists them. `sort` in the engine is stable, so the first
  element after sorting by decreasing count is the first entry of largest count.

Two observations about the code, modelled as written:

- **The analysis always uses the fantasy mood.** `analyzeDream` passes
  `theme.emotion || 'fantasy'` to `getAnalysis` (js/index.js:1466). No entry of
  `dreamThemes` has an `emotion` field, so `getAnalysis` always receives
  `'fantasy'`. `Analyzer.AnalyzeDream` states this outright.
- **The two delete paths compare ids differently.** `deleteDream` compares ids
  with `!==`, and `deleteDreamFromList` compares `String(id)`. The two agree on
  every journal whose ids are strings, which is what `saveDream` stores. They
  differ on a stored numeric id: `Store.DeletePathsAgreeOnStringIds` covers the
  first case and `Store.DeletePathsDifferOnNumericIds` the second.

## Model

| member | source | states |
|---|---|---|
| `Shuffle.Swap` | js/index.js:623 | the destructuring swap `[arr[i], arr[j]] = [arr[j], arr[i]]` on a sequence |
| `Shuffle.ShuffleFrom` | js/index.js:620-625 | the rest of the Fisher–Yates loop from index `i` down, drawing with seed `s` |
| `Shuffle.Shuffled` | js/index.js:614-627 | the reference definition of `shuffleArray(array, seed)`; its properties are stated by `Shuffle.ShuffledPermutes` and `Shuffle.ShuffledMember` |
| `Shuffle.Draw` | js/index.js:621 | `Math.floor(u * n)` with `u` in [0, 1) is an index below `n` |
| `Shuffle.EffectiveSeed` | js/index.js:618 | a non-zero seed is used as given; a zero seed is replaced by the clock |
| `Shuffle.ShuffleFromPermutes` | js/index.js:620-625 | every run of the swap loop yields a permutation of the array it started from |
| `Shuffle.ShuffledPermutes` | js/index.js:614-627 | `shuffleArray` returns a sequence of the same length and the same multiset as its input, for every seed and every generator |
| `Shuffle.ShuffledMember` | js/index.js:614-627 | every element of the shuffled result is an element of the input |
| `Shuffle.ShufflePrefixDrawn` | js/index.js:663-664 | a prefix taken by `slice(0, k)` from a shuffle uses each input element at most as often as the input holds it |
| `Shuffle.ShuffleArray` | js/index.js:614-627 | the in-place loop on the copied array returns the specified shuffle, a permutation of the input; the caller's sequence is a value and cannot change |
| `Common.Contains` | js/index.js:60 | `text.includes(keyword)`: some position of `text` starts a copy of `keyword` |
| `Common.IsBlank` | js/index.js:1455 | `!input.trim()`: every character is JavaScript whitespace |
| `Common.NatToString` | js/index.js:161 | `Date.now().toString()`: the decimal digits of the clock |
| `Common.KeepIf` | js/index.js:171 | `Array.prototype.filter`; its contents, copies and order are stated by `Common.KeepIfContents` |
| `Common.RoundPercent` | js/index.js:926-929 | the result is the integer nearest to 100·count/total (halves up): it is bracketed by 100·count/total ± 1/2, and at most 100 when count ≤ total |
| `Entities.EmotionTable` | js/index.js:181-186 | the `emotions` literal, entry by entry |
| `Entities.IdText` | js/index.js:2101-2102 | `String(id)` of a string or numeric dream id |
| `Entities.EmotionOf` | js/index.js:181-186 | the table has an entry exactly for happy, horror, fantasy and chaos; the fantasy entry is the 奇幻 / #d83f87 one |
| `Analyzer.SymbolTable` | js/index.js:22-43 | the `symbols` lexicon literal, entry by entry, in declaration order |
| `Analyzer.MatchedSymbols` | js/index.js:57-64 | the entries whose keyword occurs, in table order; stated by `Analyzer.MatchedSymbolsMembers` and `Analyzer.MatchedSymbolsInTableOrder` |
| `Analyzer.FallbackNotInTable` | js/index.js:66-73 | the general fallback symbol 梦境 is not a lexicon entry |
| `Analyzer.MatchedSymbolsMembers` | js/index.js:59-63 | a lexicon entry is collected exactly when its keyword occurs in the text |
| `Analyzer.MatchedSymbolsInTableOrder` | js/index.js:59-63 | the collected entries keep the lexicon's declaration order |
| `Analyzer.ScanSymbols` | js/index.js:57-64 | the `for` loop pushing matches returns exactly the lexicon entries whose keyword occurs, in table order |
| `Analyzer.SymbolsWithFallback` | js/index.js:66-73 | after the fallback is substituted for an empty list, the symbols are never empty, and they are the single fallback exactly when no keyword occurs |
| `Analyzer.ClarityOf` | js/index.js:85 | high exactly when the length exceeds 100, medium exactly for 51..100, low otherwise |
| `Analyzer.SymbolSentence` | js/index.js:88-89 | the sentence one symbol contributes to `symbolInterpretation` |
| `Analyzer.SymbolInterpretation` | js/index.js:88-90 | the joined sentences are empty exactly when there are no symbols, and name every symbol's keyword |
| `Analyzer.SymbolInterpretationAppend` | js/index.js:88-90 | the interpretation of a concatenation of symbol lists is the concatenation of their interpretations |
| `Analyzer.MoodTable` | js/index.js:114-119 | the `emotionMap` literal, entry by entry |
| `Analyzer.MoodSentence` | js/index.js:122 | the `梦境整体呈现…的情绪基调。…。` sentence of a mood |
| `Analyzer.EmotionAnalysis` | js/index.js:113-123 | `getEmotionAnalysis`: the sentence of the mood `Analyzer.MoodOf` picks |
| `Analyzer.MoodOf` | js/index.js:113-124 | each of happy, horror and chaos gets its own mood; every other emotion, unknown ones included, gets the fantasy mood |
| `Analyzer.SuggestionTable` | js/index.js:127-137 | the `suggestions` literal, entry by entry |
| `Analyzer.Suggestion` | js/index.js:126-140 | a symbol type with a table entry gets that entry, and every other type gets the default 记录梦境有助于了解自己 |
| `Analyzer.StoryMoodName` | js/index.js:148 | the emotion's display name, or 奇妙 when it has none |
| `Analyzer.StoryText` | js/index.js:148 | the story template literal with its three slots |
| `Analyzer.GenerateStory` | js/index.js:143-149 | the story template filled with the second keyword (神秘世界 by default), the first keyword (梦境 by default) and the mood name; what it mentions is stated by `Analyzer.StoryMentions` |
| `Analyzer.StoryMentions` | js/index.js:143-148 | the story names the main symbol, the second symbol (or 神秘世界 when there is only one), and the emotion's name (奇妙 when unknown) |
| `Analyzer.StoryTextMentions` | js/index.js:143-148 | the story template contains the setting, the main element and the mood it is filled with |
| `Analyzer.GenerateSpecificAnalysis` | js/index.js:80-110 | the analysis record built from the symbols; its fields are stated through `Analyzer.GetAnalysis` |
| `Analyzer.GetAnalysis` | js/index.js:54-111 | see the list of guarantees below this table |
| `Analyzer.ThemeTable` | js/index.js:1372-1384 | the `dreamThemes` literal, entry by entry, in declaration order |
| `Analyzer.FirstMatch` | js/index.js:1442-1446 | the first position from `from` whose key occurs in the text, or none when no later key occurs |
| `Analyzer.AnalyzeDreamTheme` | js/index.js:1441-1448 | the theme of the first `dreamThemes` keyword occurring in the text, and the 梦 theme when none occurs |
| `Analyzer.AnalyzeDream` | js/index.js:1453-1474 | refused exactly for blank input; otherwise the record has the 梦境解析 title, the text and the theme, and its analysis uses the fantasy mood whatever the text |
| `Weaver.GroupKey` | js/index.js:643 | the dream's emotion, or `fantasy` when it is empty |
| `Weaver.WithKey` | js/index.js:641-648 | the dreams of the pool whose key is k, in pool order; stated by `Weaver.WithKeyMembers` |
| `Weaver.GroupsOf` | js/index.js:641-648 | `emotionGroups` as key/dreams pairs in insertion order; stated by `Weaver.GroupsOfDescribes` |
| `Weaver.WithKeyMembers` | js/index.js:642-649 | a dream is in the group of key k exactly when it is in the pool and its emotion (`'fantasy'` when absent) is k |
| `Weaver.GroupsOfDescribes` | js/index.js:642-649 | the groups have distinct keys, each holds exactly the pool's dreams of its key in pool order, none is empty, and every dream has a group |
| `Weaver.GroupByEmotion` | js/index.js:642-649 | the `forEach` that pushes into `emotionGroups` builds exactly the specified groups |
| `Weaver.MaxSize` | js/index.js:652-653 | the largest group size bounds every group and, for a non-empty list, is attained |
| `Weaver.TopGroups` | js/index.js:651-654 | `topEmotions` is non-empty for a non-empty list; a group is in it exactly when it has the largest size; and the tied groups keep their first-occurrence order, as the stable sort leaves them |
| `Weaver.MainGroup` | js/index.js:655-657 | the chosen group is one of the groups and has the largest size, whatever the tie-break draw |
| `Weaver.MainGroupFacts` | js/index.js:643-657 | the chosen group holds exactly the pool's dreams of its key, is not empty, and is at least as large as the group of any dream in the pool |
| `Weaver.KeywordSets` | js/index.js:671-680 | the `keywordSets` literal, entry by entry |
| `Weaver.KeywordSetFor` | js/index.js:671-682 | every keyword set has eight words; a key without a set gets the fantasy set |
| `Weaver.AppEmotionsUseFantasyKeywords` | js/index.js:671-682 | each of the app's four emotions ends up with the fantasy keyword set |
| `Weaver.IntroTemplates` | js/index.js:686-693 | the six `storyIntros` templates, filled with the first two keywords |
| `Weaver.OutroTemplates` | js/index.js:697-704 | the six `storyOutros` templates, filled with the third keyword |
| `Weaver.TransitionTemplates` | js/index.js:708-714 | the five `transitions` templates |
| `Weaver.StoryEmotionInfo` | js/index.js:666-668 | `emotions[key]`, or 奇幻 / #d83f87 / ✨ field by field when the key has no entry |
| `Weaver.Truncate` | js/index.js:718 | content of at most 100 characters is kept whole; longer content becomes its first 100 characters followed by `...` |
| `Weaver.MakePart` | js/index.js:714-723 | a part carries the truncated content and the emotion of its dream, and the given transition |
| `Weaver.TransitionFor` | js/index.js:714-716 | the transition of part i is one of the five transition templates |
| `Weaver.BuildParts` | js/index.js:714-724 | the `map` over the selected dreams yields one part per dream, part i made from dream i with the transition shuffled by `seed + i` |
| `Weaver.Join` | js/index.js:731-737 | `Array.prototype.join` with a separator |
| `Weaver.NumberedParts` | js/index.js:731-732 | `` `${idx + 1}. ${part.transition}${part.content}` `` for each part, numbered from 1 |
| `Weaver.ComposeStory` | js/index.js:730-734 | `fullStory`: the intro, the numbered parts joined by blank lines, and the outro; `Weaver.WovenFrom` requires the story content to be this |
| `Weaver.IsStoryOf` | js/index.js:630-750 | the returned story: an emotion of the pool whose group is largest, woven from that group as `Weaver.WovenFrom` says |
| `Weaver.WeaveGroup` | js/index.js:662-749 | the story built from the chosen group satisfies `WovenFrom` (see below this table) |
| `Weaver.GenerateDreamUniverseStory` | js/index.js:630-750 | see the list of guarantees below this table |
| `Weaver.WovenPartsFromGroup` | js/index.js:662-724 | every part comes from a dream of the chosen group, no dream is used twice, contents are truncations, and transitions come from the templates |
| `Weaver.WovenKeywordsFromSet` | js/index.js:682-683 | each keyword is a word of the keyword set, and none is used more often than the set holds it |
| `Weaver.StoryKeywordsFromSet` | js/index.js:682-683 | a woven story has three keywords, all from the emotion's keyword set (the fantasy set when the key has none) |
| `Weaver.StoryPartsFromPool` | js/index.js:662-724 | every part of a woven story has the content (truncated) and the emotion of a pool dream whose grouping key is the story's emotion |
| `Weaver.WovenPartsFromPool` | js/index.js:662-724 | the same, for a story woven from the group of a given key |
| `Patterns.EmotionsOf` | js/index.js:2062 | `dreams.map(d => d.emotion)` |
| `Patterns.Occurrences` | js/index.js:1998-2000 | how often an emotion occurs, the count the tally keeps |
| `Patterns.TallyOf` | js/index.js:1997-2000 | `emotionCounts` after the `forEach`; stated by `Patterns.TallyDescribes` |
| `Patterns.TallyDescribes` | js/index.js:1997-2000 | the `emotionCounts` tally has one entry per distinct emotion, counting its occurrences, with keys in order of first occurrence |
| `Patterns.TallyEmotions` | js/index.js:1997-2000 | the `forEach` loop builds exactly that tally |
| `Patterns.TopEntry` | js/index.js:2002 | the first element after the stable sort by decreasing count: an entry of largest count, with every earlier entry strictly smaller |
| `Patterns.DominantIsEarliestMostFrequent` | js/index.js:1997-2002 | the dominant emotion occurs at least as often as any other, and among emotions tied with it, it occurs first in the journal |
| `Patterns.NameOrKey` | js/index.js:2004 | the emotion's display name, or the key itself when it has no entry (also used at line 2066) |
| `Patterns.ColorOrDefault` | js/index.js:2005 | the emotion's colour, or `#ffd166` when it has no entry (also used at line 2073) |
| `Patterns.DominantPattern` | js/index.js:2006-2014 | the 🎭 card literal, with its description and tags |
| `Patterns.RecurringPattern` | js/index.js:2020-2028 | the 🔄 card literal |
| `Patterns.PropheticPattern` | js/index.js:2034-2042 | the 🔮 card literal |
| `Patterns.ClarityPattern` | js/index.js:2048-2056 | the ✨ card literal |
| `Patterns.RecentPattern` | js/index.js:2067-2075 | the 📊 card literal |
| `Patterns.IsRecurring` | js/index.js:2018 | `d => d.isRecurring` |
| `Patterns.CameTrue` | js/index.js:2032 | `d => d.realityCheck?.cameTrue === true` |
| `Patterns.IsHighClarity` | js/index.js:2046 | `d => d.clarity >= 4` |
| `Patterns.CountWhere` | js/index.js:2018-2046 | the length of `dreams.filter(p)` |
| `Patterns.DistinctEmotions` | js/index.js:2063 | the size of `new Set(recentEmotions)` |
| `Patterns.DominantSection` | js/index.js:2002-2015 | the 🎭 card when the top count reaches 3, else nothing |
| `Patterns.RecentSection` | js/index.js:2060-2077 | the 📊 card when there are at least five dreams and the last five share one emotion |
| `Patterns.ReportFrom` | js/index.js:2079-2082 | `{ hasData: patterns.length > 0, patterns }` |
| `Patterns.PatternsOf` | js/index.js:1987-2083 | the report the journal yields; which cards it holds, and in which order, is stated by `Patterns.PatternConditions` and `Patterns.DominantCard` |
| `Patterns.AnalyzeDreamPatterns` | js/index.js:1987-2083 | the method returns the specified report `PatternsOf(dreams)` |
| `Patterns.PatternConditions` | js/index.js:1990-2082 | no data for fewer than three dreams; otherwise the cards appear in the order 🎭 🔄 🔮 ✨ 📊, each exactly when its own condition holds; `hasData` holds exactly when some card exists |
| `Patterns.DominantCard` | js/index.js:2003-2017 | the first card names the most frequent emotion, earliest among ties, with its count and `RoundPercent(count, n)` |
| `Patterns.SingleEmotionMeansAllSame` | js/index.js:2061-2064 | a one-element `new Set` of the recent emotions means that all five recent dreams share one emotion |
| `Patterns.IsAppEmotion` | js/index.js:915-921 | `stats[dream.emotion] !== undefined`: one of the four keys of `stats` |
| `Patterns.CalculateEmotionStats` | js/index.js:914-932 | 25 each for an empty journal; otherwise each of the four emotions gets its count over all dreams, rounded |
| `Patterns.AppEmotionCounts` | js/index.js:920-924 | the four counts add up to at most the number of dreams, and exactly to it when every dream has one of the four emotions |
| `Patterns.StatsNearlySumToHundred` | js/index.js:914-932 | when every dream has one of the four emotions, each percentage is at most 100 and they add up to between 99 and 102 |
| `Patterns.HasEmotion` | js/index.js:944 | `d => d.emotion === filter` |
| `Patterns.Reverse` | js/index.js:947 | `Array.prototype.reverse`: element i of the result is element n-1-i of the input |
| `Patterns.FilterDreams` | js/index.js:940-948 | the diary list: the journal, filtered by emotion unless the filter is `'all'`, reversed; its contents are stated by `Patterns.FilterDreamsContents` |
| `Patterns.FilterDreamsContents` | js/index.js:940-948 | see the list of guarantees below this table |
| `Patterns.KeepCounts` | js/index.js:943-945 | an emotion filter keeps exactly as many dreams as carry that emotion |
| `Patterns.ReverseMembers` | js/index.js:947 | reversing keeps the same members |
| `Patterns.ReverseReverse` | js/index.js:947 | reversing twice gives the list back, so the diary read backwards is in journal order |
| `Common.KeepIfContents` | js/index.js:171 | after `filter`, an element remains exactly when it was there and passes the test, every copy of a passing element stays, none of a failing one, and the survivors keep their order |
| `Common.KeepIfIdempotent` | js/index.js:2089 | filtering twice by the same test is filtering once |
| `Store.FirstWhere` | js/index.js:176 | `find` returns the first position that passes, or nothing when none passes |
| `Store.ClampDuration` | js/index.js:1338-1340 | the duration is in [0, 24]: an unparsable input gives 0, values in range are kept, and values out of range are clamped to the nearer bound |
| `Store.ClampDurationIdempotent` | js/index.js:1338-1340 | clamping a clamped duration changes nothing |
| `Store.WithoutId` | js/index.js:2088 | `dreams.filter(d => d.id !== dreamId)` |
| `Store.WithoutIdText` | js/index.js:2101-2102 | `dreams.filter(d => String(d.id) !== dreamIdStr)` |
| `Store.DeleteRemovesExactly` | js/index.js:2085-2102 | each delete path removes exactly the dreams whose id matches, keeps every copy of every other dream, in order, and a second delete changes nothing |
| `Store.StrictDeleteFacts` | js/index.js:2088 | the strict delete removes exactly the matching dreams, keeps every copy of the others in order, and is idempotent |
| `Store.TextDeleteFacts` | js/index.js:2101-2102 | the same for the `String()` delete |
| `Store.DeletePathsAgreeOnStringIds` | js/index.js:2088-2102 | on a journal whose ids are all strings, the strict and the `String()` comparisons delete the same dreams |
| `Store.DeletePathsDifferOnNumericIds` | js/index.js:2088-2102 | a dream stored with the number 5 as id survives `deleteDream('5')` and is removed by `deleteDreamFromList('5')` |
| `Store.FindDream` | js/index.js:1950 | the first dream whose id is strictly equal to the argument, or none |
| `Store.WithCameTrue` | js/index.js:1953-1958 | sets `cameTrue` and `updatedAt`, creating an empty reality check when there is none; keeps the note and every other field |
| `Store.WithNote` | js/index.js:1973-1980 | sets `note` and `updatedAt`, creating an empty reality check when there is none; keeps `cameTrue` and every other field |
| `Store.MarkCameTrue` | js/index.js:1949-1958 | the journal after `updateRealityCheck`; its effect is stated by `Store.MarkCameTrueEffect` |
| `Store.AttachNote` | js/index.js:1969-1980 | the journal after `saveRealityNote`; its effect is stated by `Store.AttachNoteEffect` |
| `Store.MarkCameTrueEffect` | js/index.js:1949-1966 | only the first dream with the id changes, gaining the outcome and keeping its note; an unknown id changes nothing |
| `Store.AttachNoteEffect` | js/index.js:1969-1984 | only the first dream with the id changes, gaining the note and keeping its outcome; an unknown id changes nothing |
| `Store.AppState.SaveDream` | js/index.js:1328-1366 | refused when no emotion is selected; otherwise appends one entry with the clock id, the selected emotion and rating and the clamped duration, then clears the selection |
| `Store.AppState.DeleteDream` | js/index.js:2085-2088 | when confirmed, the journal becomes the strict-id filter; otherwise nothing changes |
| `Store.AppState.DeleteDreamFromList` | js/index.js:2097-2102 | when confirmed, the journal becomes the `String()`-id filter; otherwise nothing changes |
| `Store.AppState.UpdateRealityCheck` | js/index.js:1949-1958 | the journal becomes `MarkCameTrue` of the old one; nothing else changes |
| `Store.AppState.SaveRealityNote` | js/index.js:1969-1980 | the journal becomes `AttachNote` of the old one; nothing else changes |
| `Store.AppState.ShareDream` | js/index.js:1685-1703 | refused exactly for blank text; otherwise appends one entry to the pool with the selected emotion, or fantasy when none is selected |
| `Store.WithoutAnalysis` | js/index.js:171 | `getAll().filter(a => a.id !== id)` |
| `Store.FindAnalysis` | js/index.js:176-177 | `getById` gives an entry with that id, the first such entry; nothing when no entry has it |
| `Store.SaveThenFind` | js/index.js:158-177 | right after `save`, `getById` of the returned id finds the new entry |
| `Store.DeleteThenFind` | js/index.js:170-177 | after `delete(id)` nothing with that id is found, every copy of every other entry is kept, and the kept entries stay in order |
| `Store.SavedAnalyses.Save` | js/index.js:158-168 | the new entry, with the clock id and save time, goes first; the id is returned |
| `Store.SavedAnalyses.Delete` | js/index.js:170-173 | the list becomes the filter by id |
| `Store.SavedAnalyses.GetById` | js/index.js:175-177 | `getById` finds nothing exactly when no saved entry has the id; otherwise it returns an entry with that id that no earlier entry shares |
| `Store.HasSeed` | js/index.js:1857 | `savedStories.some(s => s.seed === universeStory.seed)` |
| `Store.SeedsDistinct` | js/index.js:1857-1861 | no two saved stories share a seed, the invariant the duplicate check keeps |
| `Store.WithoutStory` | js/index.js:1785 | `savedStories.filter(s => s.id !== storyId)` |
| `Store.AppendKeepsSeedsDistinct` | js/index.js:1857-1880 | appending a story whose seed is not yet saved keeps all seeds distinct |
| `Store.DeleteKeepsSeedsDistinct` | js/index.js:1784-1786 | filtering the saved stories keeps their seeds distinct |
| `Store.DeleteStoryRemovesExactly` | js/index.js:1781-1786 | deleting a story removes exactly the entries with that id and keeps every copy of the others, in order |
| `Store.SavedStories.SaveUniverseStory` | js/index.js:1847-1884 | see the list of guarantees below this table |
| `Store.SavedStories.DeleteSavedStory` | js/index.js:1781-1786 | when confirmed, the list becomes the filter by id, and the seeds stay distinct; otherwise nothing changes |

`Analyzer.GetAnalysis` guarantees the following about its result:

- the symbol list is never empty;
- a lexicon entry is present exactly when its keyword occurs in the text;
- the list is the single general fallback exactly when no keyword occurs;
- otherwise the list follows the table order;
- with no keyword, the suggestion is the default;
- the clarity bucket, the interpretation, the mood (fantasy for an empty
  emotion), the suggestion for the first symbol, the story and the timestamp
  are as specified.

`Weaver.GenerateDreamUniverseStory` guarantees the following:

- It returns nothing exactly when the pool has fewer than three dreams, or when
  every emotion group (and therefore the largest) has fewer than two dreams.
- Otherwise the story satisfies `IsStoryOf`:
  - its emotion occurs in the pool, and its group is as large as any other;
  - `dreamCount` equals the number of parts, which is min(5, group size);
  - part i is made from element i of the group shuffled with the seed;
  - the keywords are the first three of the keyword set shuffled with `seed + 1`;
  - the intro and outro are the drawn templates;
  - the content is intro, numbered parts and outro;
  - the title and emotion display fields are as specified.

`Patterns.FilterDreamsContents` guarantees the following about the diary list:

- a dream is listed exactly when it is in the journal and matches the filter;
- read backwards, the list is a subsequence of the journal;
- for `'all'` it is the whole journal reversed;
- for an emotion, it has as many entries as the journal has dreams with that emotion.

Together these pin the list down as the matching dreams, newest first.

`Store.SavedStories.SaveUniverseStory` guarantees the following:

- There is no story exactly when the weaver gives none, and then nothing is
  saved.
- A story whose seed is already saved is refused as a duplicate.
- Otherwise exactly one entry, with the clock id, is appended at the end, and
  the earlier entries are unchanged.
- Seeds that were distinct stay distinct.

## Left out

- The body of `seededRandom` (`Math.sin` floating point, js/index.js:608-611): the generator is a parameter, so no property of its particular sequence is modelled.
- `Math.random()` inside the weaver's `rng` (js/index.js:638): the three draws are free parameters, so the model does not say which template or tied group a real run picks.
- `Shuffle.Draw`: floors the exact real product `u * n`, while the code floors the product already rounded to a double (for example, `Math.floor(0.7 * 10)` is 7). No property depends on which index is drawn, so the difference only changes which generator a given browser run corresponds to.
- Floating-point `Math.round`: the exact integer rounding agrees with the browser except where the float product `c / n * 100` lands on the other side of a half point.
- Strings are sequences of Unicode code points, while JavaScript indexes UTF-16 code units. `length > 100`, `substring(0, 100)` and `length > 50` therefore differ for text outside the Basic Multilingual Plane.
- Keys that an object inherits through its prototype (for example an emotion named `constructor`) and the `Object.entries` rule that lists integer-like keys first are not modelled. Every tally and group lists keys in insertion order.
- `emotionKeywords` (js/index.js:46-51) is declared but never read, so it is not modelled.
- The `text` argument of `getEmotionAnalysis` and `generateStory`, and the `emotion` argument of `getSuggestion`, are never read, so they are not modelled.
- `regenerateUniverseStory` sets `appState.universeStorySeed` from the clock; the stored seed is a parameter of the weaver.
- The rest of `saveDream`, `analyzeDream` and the other handlers: DOM reads, `showToast`, page navigation, timers and the modal markup. So are the `render*` functions, speech recognition, canvas art, the d3 map, `formatDate`/`formatTimeAgo`/`getGreeting`, `stripHtml`, export/download and the JSON encoding to and from `localStorage`. These are browser I/O, not logic.
- `parseFloat` in `saveDream`: an input that does not parse is `None`, and the clamp is applied to the parsed number.
- `confirm()` dialogs: their answer is the `confirmed` parameter of the delete operations.

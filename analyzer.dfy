/**
 * The keyword dream analyser (`dreamAnalysisDB`) and the theme lookup
 * (`analyzeDreamTheme`): substring matching against fixed tables, a clarity
 * bucket from the text length, defaults for missing table keys, and the
 * templated texts built from the matches.
 */
module Analyzer {
  import opened Common
  import opened Entities

  /** One entry of the symbol lexicon; `kind` is the source's `type` field and
      `emotion` its valence. */
  datatype SymbolEntry = SymbolEntry(keyword: string, meaning: string, kind: string, emotion: string)

  datatype Clarity = Low | Medium | High

  datatype AnalysisResult = AnalysisResult(
    symbols: seq<SymbolEntry>,
    clarity: Clarity,
    symbolInterpretation: string,
    emotionAnalysis: string,
    suggestion: string,
    story: string,
    timestamp: int)

  /** `dreamAnalysisDB.symbols`, in declaration (iteration) order. */
  function SymbolTable(): seq<SymbolEntry>
  {
    [ SymbolEntry("飞", "渴望自由，想要摆脱束缚", "freedom", "positive"),
      SymbolEntry("翔", "追求更高目标，有上升愿望", "growth", "positive"),
      SymbolEntry("水", "情感状态，潜意识流动", "emotion", "neutral"),
      SymbolEntry("海", "广阔的情感世界，未知领域", "emotion", "neutral"),
      SymbolEntry("火", "激情、愤怒或净化", "energy", "intense"),
      SymbolEntry("森林", "探索未知，寻找自我", "exploration", "mysterious"),
      SymbolEntry("树", "成长、生命力和根基", "growth", "positive"),
      SymbolEntry("星", "希望、目标和遥远理想", "aspiration", "positive"),
      SymbolEntry("梦", "潜意识的投射，内心愿望", "subconscious", "neutral"),
      SymbolEntry("城", "社会关系，生活环境", "social", "neutral"),
      SymbolEntry("山", "挑战、障碍或成就", "challenge", "neutral"),
      SymbolEntry("跑", "逃避问题或追求目标", "action", "urgent"),
      SymbolEntry("追", "面临压力或未解决问题", "pressure", "anxious"),
      SymbolEntry("掉", "失控感或安全感缺失", "insecurity", "negative"),
      SymbolEntry("死", "结束与新生，重大转变", "transformation", "neutral"),
      SymbolEntry("蛇", "潜在威胁或隐藏的智慧", "warning", "caution"),
      SymbolEntry("猫", "独立性，女性特质", "personality", "neutral"),
      SymbolEntry("狗", "忠诚，友谊，保护", "relationship", "positive"),
      SymbolEntry("家", "安全感，归属感", "security", "positive"),
      SymbolEntry("门", "机会，选择，过渡", "opportunity", "neutral") ]
  }

  /** The entry used when no lexicon keyword occurs in the text. */
  const FallbackSymbol := SymbolEntry("梦境", "潜意识的自我表达", "general", "neutral")

  /** The general fallback is not a lexicon entry. */
  lemma FallbackNotInTable()
    ensures FallbackSymbol !in SymbolTable()
  {
    forall i | 0 <= i < |SymbolTable()| ensures SymbolTable()[i] != FallbackSymbol {
      assert SymbolTable()[i].kind != "general";
    }
  }

  /** The lexicon entries whose keyword occurs in text, in table order. */
  function MatchedSymbols(text: string, table: seq<SymbolEntry>): seq<SymbolEntry>
    decreases |table|
  {
    if table == [] then []
    else
      var last := table[|table| - 1];
      MatchedSymbols(text, table[..|table| - 1]) + (if Contains(text, last.keyword) then [last] else [])
  }

  /** An entry is matched exactly when it is in the table and its keyword occurs in the text. */
  lemma {:induction false} MatchedSymbolsMembers(text: string, table: seq<SymbolEntry>, e: SymbolEntry)
    ensures e in MatchedSymbols(text, table) <==> e in table && Contains(text, e.keyword)
    decreases |table|
  {
    if table != [] {
      var init := table[..|table| - 1];
      MatchedSymbolsMembers(text, init, e);
      assert table == init + [table[|table| - 1]];
    }
  }

  /** The matches keep the table's order. */
  lemma {:induction false} MatchedSymbolsInTableOrder(text: string, table: seq<SymbolEntry>)
    ensures IsSubsequence(MatchedSymbols(text, table), table)
    decreases |table|
  {
    if table != [] {
      var init := table[..|table| - 1];
      var last := table[|table| - 1];
      var m := MatchedSymbols(text, init);
      MatchedSymbolsInTableOrder(text, init);
      if Contains(text, last.keyword) {
        assert (m + [last])[..|m + [last]| - 1] == m;
      } else {
        assert m + [] == m;
        SubsequenceOfPrefix(m, init, table);
      }
    }
  }

  lemma {:induction false} SubsequenceOfPrefix<T>(a: seq<T>, b: seq<T>, c: seq<T>)
    requires c != [] && b == c[..|c| - 1]
    requires IsSubsequence(a, b)
    ensures IsSubsequence(a, c)
  {
    if a != [] {
      assert c[..|c| - 1] == b;
    }
  }

  /** `text.length > 100 ? 'high' : text.length > 50 ? 'medium' : 'low'`. */
  function ClarityOf(length: nat): (c: Clarity)
    ensures c == High <==> length > 100
    ensures c == Medium <==> 50 < length <= 100
    ensures c == Low <==> length <= 50
  {
    if length > 100 then High else if length > 50 then Medium else Low
  }

  /** One sentence of the symbol interpretation. */
  function SymbolSentence(s: SymbolEntry): string
  {
    "梦中出现「" + s.keyword + "」元素，象征" + s.meaning + "。"
  }

  /** `symbols.map(sentence).join('')`: names every symbol's keyword. */
  function SymbolInterpretation(symbols: seq<SymbolEntry>): (r: string)
    ensures r == "" <==> symbols == []
    ensures forall i :: 0 <= i < |symbols| ==> Contains(r, symbols[i].keyword)
    decreases |symbols|
  {
    if symbols == [] then ""
    else
      var head := SymbolSentence(symbols[0]);
      var rest := SymbolInterpretation(symbols[1..]);
      assert forall i :: 1 <= i < |symbols| ==> Contains(head + rest, symbols[i].keyword) by {
        forall i | 1 <= i < |symbols| ensures Contains(head + rest, symbols[i].keyword) {
          assert symbols[i] == symbols[1..][i - 1];
          ContainsInSuffix(head, rest, symbols[i].keyword);
        }
      }
      assert Contains(head + rest, symbols[0].keyword) by {
        OccursInMiddle("梦中出现「", symbols[0].keyword, "」元素，象征" + symbols[0].meaning + "。");
        assert head == "梦中出现「" + symbols[0].keyword + ("」元素，象征" + symbols[0].meaning + "。");
        ContainsInPrefix(head, rest, symbols[0].keyword);
      }
      head + rest
  }

  /** The interpretation of a concatenation is the concatenation of the interpretations. */
  lemma {:induction false} SymbolInterpretationAppend(a: seq<SymbolEntry>, b: seq<SymbolEntry>)
    ensures SymbolInterpretation(a + b) == SymbolInterpretation(a) + SymbolInterpretation(b)
    decreases |a|
  {
    if a == [] {
      assert a + b == b;
    } else {
      assert (a + b)[0] == a[0];
      assert (a + b)[1..] == a[1..] + b;
      SymbolInterpretationAppend(a[1..], b);
    }
  }

  datatype Mood = Mood(desc: string, advice: string)

  /** The `emotionMap` of `getEmotionAnalysis`. */
  function MoodTable(): seq<(string, Mood)>
  {
    [ ("happy", Mood("积极愉悦", "保持这份好心情")),
      ("horror", Mood("焦虑恐惧", "尝试面对内心的恐惧")),
      ("fantasy", Mood("好奇探索", "保持对世界的好奇心")),
      ("chaos", Mood("混乱迷茫", "需要理清思绪，找到方向")) ]
  }

  function MoodSentence(m: Mood): string
  {
    "梦境整体呈现" + m.desc + "的情绪基调。" + m.advice + "。"
  }

  const FantasyMood := Mood("好奇探索", "保持对世界的好奇心")

  /** `emotionMap[emotion] || emotionMap.fantasy`. */
  function MoodOf(emotion: string): (m: Mood)
    ensures emotion == "happy" ==> m == Mood("积极愉悦", "保持这份好心情")
    ensures emotion == "horror" ==> m == Mood("焦虑恐惧", "尝试面对内心的恐惧")
    ensures emotion == "chaos" ==> m == Mood("混乱迷茫", "需要理清思绪，找到方向")
    ensures emotion !in {"happy", "horror", "chaos"} ==> m == FantasyMood
  {
    match Lookup(MoodTable(), emotion)
    case Some(m) => m
    case None => FantasyMood
  }

  /** `getEmotionAnalysis(emotion, text)`: the sentence for the emotion's mood.
      The source does not use the text argument. */
  function EmotionAnalysis(emotion: string): string
  {
    MoodSentence(MoodOf(emotion))
  }

  /** The `suggestions` table of `getSuggestion`, keyed by symbol type. */
  function SuggestionTable(): seq<(string, string)>
  {
    [ ("freedom", "你可能需要更多的自主空间"),
      ("growth", "这是个人成长的好时机"),
      ("emotion", "关注自己的情感需求"),
      ("energy", "合理释放你的能量"),
      ("exploration", "勇敢探索未知领域"),
      ("aspiration", "坚持你的理想和目标"),
      ("pressure", "适当减压，寻求帮助"),
      ("insecurity", "建立内心的安全感"),
      ("transformation", "接受生活中的变化") ]
  }

  const DefaultSuggestion := "记录梦境有助于了解自己"

  predicate HasSuggestion(kind: string)
  {
    kind in {"freedom", "growth", "emotion", "energy", "exploration",
             "aspiration", "pressure", "insecurity", "transformation"}
  }

  /** `getSuggestion(symbol)`: the suggestion for the symbol's type, or the
      journaling default exactly when the type has none. */
  function Suggestion(symbol: SymbolEntry): (r: string)
    ensures !HasSuggestion(symbol.kind) ==> r == DefaultSuggestion
    ensures HasSuggestion(symbol.kind) ==> r != DefaultSuggestion && (symbol.kind, r) in SuggestionTable()
  {
    var found := Lookup(SuggestionTable(), symbol.kind);
    match found
    case Some(s) => s
    case None => DefaultSuggestion
  }

  /** `xs[i] || d`: the i-th element when it exists and is non-empty, else d. */
  function ElementOr(xs: seq<string>, i: nat, d: string): (r: string)
    ensures r != "" || d == ""
  {
    if i < |xs| && xs[i] != "" then xs[i] else d
  }

  function Keywords(symbols: seq<SymbolEntry>): (ks: seq<string>)
    ensures |ks| == |symbols| && forall i :: 0 <= i < |symbols| ==> ks[i] == symbols[i].keyword
  {
    seq(|symbols|, i requires 0 <= i < |symbols| => symbols[i].keyword)
  }

  /** The emotion's display name in the story, `'奇妙'` when unknown. */
  function StoryMoodName(emotion: string): string
  {
    match EmotionOf(emotion)
    case Some(info) => if info.name != "" then info.name else "奇妙"
    case None => "奇妙"
  }

  /** The story template, filled with the setting, the main element and the mood. */
  function StoryText(setting: string, mainElement: string, mood: string): string
  {
    "在" + setting + "的深处，你发现了关于" + mainElement
      + "的秘密。这个梦境暗示着你的潜意识正在尝试告诉你一些重要的事情。当你醒来时，那种"
      + mood + "的感觉依然萦绕在心头..."
  }

  /** `generateStory(text, symbols, emotion)`. */
  function GenerateStory(symbols: seq<SymbolEntry>, emotion: string): string
  {
    var elements := Keywords(symbols);
    StoryText(ElementOr(elements, 1, "神秘世界"), ElementOr(elements, 0, "梦境"), StoryMoodName(emotion))
  }

  /** The filled template contains each of the three words put into it. */
  lemma StoryTextMentions(st: string, m: string, n: string)
    ensures Contains(StoryText(st, m, n), st)
    ensures Contains(StoryText(st, m, n), m)
    ensures Contains(StoryText(st, m, n), n)
  {
    var p1 := "的深处，你发现了关于";
    var p2 := "的秘密。这个梦境暗示着你的潜意识正在尝试告诉你一些重要的事情。当你醒来时，那种";
    var p3 := "的感觉依然萦绕在心头...";
    var story := StoryText(st, m, n);
    assert story == "在" + st + (p1 + m + p2 + n + p3);
    OccursInMiddle("在", st, p1 + m + p2 + n + p3);
    assert story == ("在" + st + p1) + m + (p2 + n + p3);
    OccursInMiddle("在" + st + p1, m, p2 + n + p3);
    assert story == ("在" + st + p1 + m + p2) + n + p3;
    OccursInMiddle("在" + st + p1 + m + p2, n, p3);
  }

  /** The story names the first two matched keywords (or their defaults) and the mood. */
  lemma StoryMentions(symbols: seq<SymbolEntry>, emotion: string)
    requires |symbols| > 0
    ensures symbols[0].keyword != "" ==> Contains(GenerateStory(symbols, emotion), symbols[0].keyword)
    ensures |symbols| > 1 && symbols[1].keyword != "" ==>
              Contains(GenerateStory(symbols, emotion), symbols[1].keyword)
    ensures |symbols| == 1 ==> Contains(GenerateStory(symbols, emotion), "神秘世界")
    ensures Contains(GenerateStory(symbols, emotion), StoryMoodName(emotion))
  {
    var elements := Keywords(symbols);
    StoryTextMentions(ElementOr(elements, 1, "神秘世界"), ElementOr(elements, 0, "梦境"), StoryMoodName(emotion));
  }

  /** `generateSpecificAnalysis(text, symbols, emotion)`. */
  function GenerateSpecificAnalysis(text: string, symbols: seq<SymbolEntry>, emotion: string, now: int)
    : AnalysisResult
    requires |symbols| > 0
  {
    AnalysisResult(
      symbols,
      ClarityOf(|text|),
      SymbolInterpretation(symbols),
      EmotionAnalysis(emotion),
      Suggestion(symbols[0]),
      GenerateStory(symbols, emotion),
      now)
  }

  /** The `for ... of Object.entries(this.symbols)` loop of `getAnalysis`: pushes
      every entry whose keyword occurs in the text. */
  method ScanSymbols(text: string, table: seq<SymbolEntry>) returns (found: seq<SymbolEntry>)
    ensures found == MatchedSymbols(text, table)
  {
    found := [];
    var i := 0;
    while i < |table|
      invariant 0 <= i <= |table|
      invariant found == MatchedSymbols(text, table[..i])
    {
      if Contains(text, table[i].keyword) {
        found := found + [table[i]];
      }
      assert table[..i + 1][..i] == table[..i];
      i := i + 1;
    }
    assert table[..|table|] == table;
  }

  /** With the fallback substituted for an empty match list, the symbols are
      nonempty, hold exactly the matching table entries in table order, and are
      the fallback alone exactly when nothing matched. */
  lemma {:induction false} SymbolsWithFallback(text: string, table: seq<SymbolEntry>)
    requires FallbackSymbol !in table
    ensures var m := MatchedSymbols(text, table);
            var symbols := if m == [] then [FallbackSymbol] else m;
            && (forall e :: e in table ==> (e in symbols <==> Contains(text, e.keyword)))
            && ((forall e :: e in table ==> !Contains(text, e.keyword)) <==> symbols == [FallbackSymbol])
            && (m != [] ==> IsSubsequence(symbols, table))
  {
    var m := MatchedSymbols(text, table);
    forall e | e in table ensures e in m <==> Contains(text, e.keyword) {
      MatchedSymbolsMembers(text, table, e);
    }
    MatchedSymbolsInTableOrder(text, table);
    if m != [] {
      MatchedSymbolsMembers(text, table, m[0]);
      MatchedSymbolsMembers(text, table, FallbackSymbol);
      assert m[0] in table;
      assert m != [FallbackSymbol];
    }
  }

  predicate NoKeywordIn(text: string, table: seq<SymbolEntry>)
  {
    forall e :: e in table ==> !Contains(text, e.keyword)
  }

  /** `getAnalysis(text, emotion)`: scans the lexicon, falls back to the general
      entry, and composes the analysis. `now` stands for `Date.now()`. */
  method GetAnalysis(text: string, emotion: string, now: int) returns (r: AnalysisResult)
    ensures r.symbols != []
    ensures forall e :: e in SymbolTable() ==> (e in r.symbols <==> Contains(text, e.keyword))
    ensures NoKeywordIn(text, SymbolTable()) <==> r.symbols == [FallbackSymbol]
    ensures !NoKeywordIn(text, SymbolTable()) ==> IsSubsequence(r.symbols, SymbolTable())
    ensures NoKeywordIn(text, SymbolTable()) ==> r.suggestion == DefaultSuggestion
    ensures r.clarity == ClarityOf(|text|)
    ensures r.symbolInterpretation == SymbolInterpretation(r.symbols)
    ensures r.emotionAnalysis == EmotionAnalysis(if emotion == "" then "fantasy" else emotion)
    ensures r.suggestion == Suggestion(r.symbols[0])
    ensures r.story == GenerateStory(r.symbols, if emotion == "" then "fantasy" else emotion)
    ensures r.timestamp == now
  {
    var detectedEmotion := if emotion != "" then emotion else "fantasy";
    ghost var table := SymbolTable();
    var foundSymbols := ScanSymbols(text, SymbolTable());
    FallbackNotInTable();
    SymbolsWithFallback(text, table);
    if |foundSymbols| == 0 {
      foundSymbols := [FallbackSymbol];
      assert !HasSuggestion(FallbackSymbol.kind);
    }
    r := GenerateSpecificAnalysis(text, foundSymbols, detectedEmotion, now);
  }

  datatype Theme = Theme(theme: string, color: string, elements: seq<string>)

  /** `dreamThemes`, in declaration order. */
  function ThemeTable(): seq<(string, Theme)>
  {
    var flying := Theme("flying", "#87CEEB", ["clouds", "sky", "wings", "birds"]);
    var water := Theme("water", "#4682B4", ["ocean", "waves", "fish", "mermaid"]);
    var forest := Theme("forest", "#228B22", ["trees", "animals", "fairy", "mushrooms"]);
    [ ("飞", flying), ("翔", flying), ("水", water), ("海", water),
      ("火", Theme("fire", "#FF6347", ["flames", "phoenix", "volcano", "sun"])),
      ("森林", forest), ("树", forest),
      ("星", Theme("cosmic", "#4B0082", ["stars", "galaxy", "planets", "astronaut"])),
      ("梦", DreamyTheme),
      ("城", Theme("urban", "#708090", ["buildings", "streets", "lights", "cars"])),
      ("山", Theme("mountain", "#8B7355", ["peaks", "snow", "eagle", "temple"])) ]
  }

  /** `dreamThemes['梦']`, the default theme. */
  const DreamyTheme := Theme("dreamy", "#DDA0DD", ["clouds", "moon", "butterflies", "unicorn"])

  /** The index of the first entry whose key occurs in text, from position `from` on. */
  function FirstMatch<V>(text: string, table: seq<(string, V)>, from: nat): (r: Option<nat>)
    requires from <= |table|
    ensures r.Some? ==> from <= r.value < |table| && Contains(text, table[r.value].0) &&
                        forall j :: from <= j < r.value ==> !Contains(text, table[j].0)
    ensures r.None? ==> forall j :: from <= j < |table| ==> !Contains(text, table[j].0)
    decreases |table| - from
  {
    if from == |table| then None
    else if Contains(text, table[from].0) then Some(from)
    else FirstMatch(text, table, from + 1)
  }

  /** `analyzeDreamTheme(text)`: the theme of the first table keyword occurring in
      the text, or the dreamy default when none occurs. */
  function AnalyzeDreamTheme(text: string): (t: Theme)
    ensures (exists i :: 0 <= i < |ThemeTable()| && Contains(text, ThemeTable()[i].0) &&
               t == ThemeTable()[i].1 &&
               forall j :: 0 <= j < i ==> !Contains(text, ThemeTable()[j].0))
            || ((forall j :: 0 <= j < |ThemeTable()| ==> !Contains(text, ThemeTable()[j].0)) &&
                t == DreamyTheme)
  {
    match FirstMatch(text, ThemeTable(), 0)
    case Some(i) => ThemeTable()[i].1
    case None => DreamyTheme
  }

  /** `currentAnalysisResult`: the cached analysis with its title, text and theme.
      The code spreads the analysis fields into the record (`...analysis`); the
      model nests them as `analysis`. No field name of the analysis is `title`,
      `content` or `theme`, so nothing is overwritten and the two hold the same data. */
  datatype AnalysisRecord = AnalysisRecord(title: string, content: string, analysis: AnalysisResult, theme: Theme)

  /** `analyzeDream()`: blank input is refused; otherwise the theme is looked up and
      the analysis is requested with `theme.emotion || 'fantasy'`. Themes carry no
      emotion, so the analysis always uses the fantasy mood. `dateLabel` stands for
      the locale date string, `now` for `Date.now()`. */
  method AnalyzeDream(input: string, dateLabel: string, now: int) returns (r: Option<AnalysisRecord>)
    ensures r.None? <==> IsBlank(input)
    ensures r.Some? ==> r.value.content == input && r.value.title == "梦境解析 - " + dateLabel
    ensures r.Some? ==> r.value.theme == AnalyzeDreamTheme(input)
    ensures r.Some? ==> r.value.analysis.emotionAnalysis == MoodSentence(FantasyMood)
    ensures r.Some? ==> r.value.analysis.symbols != []
    ensures r.Some? ==> forall e :: e in SymbolTable() ==>
              (e in r.value.analysis.symbols <==> Contains(input, e.keyword))
  {
    if IsBlank(input) {
      return None;
    }
    var theme := AnalyzeDreamTheme(input);
    var analysis := GetAnalysis(input, "fantasy", now);
    r := Some(AnalysisRecord("梦境解析 - " + dateLabel, input, analysis, theme));
  }
}

/**
 * Read-only summaries of the journal: the pattern report (`analyzeDreamPatterns`),
 * the emotion percentages (`calculateEmotionStats`) and the diary filter
 * (`filterDreams`).
 */
module Patterns {
  import opened Common
  import opened Entities

  /** The emotion key of every dream, in journal order. */
  function EmotionsOf(dreams: seq<Dream>): (es: seq<string>)
    ensures |es| == |dreams| && forall i :: 0 <= i < |dreams| ==> es[i] == dreams[i].emotion
  {
    seq(|dreams|, i requires 0 <= i < |dreams| => dreams[i].emotion)
  }

  lemma EmotionsOfSnoc(dreams: seq<Dream>, i: nat)
    requires i < |dreams|
    ensures EmotionsOf(dreams[..i + 1]) == EmotionsOf(dreams[..i]) + [dreams[i].emotion]
  {
  }

  /** How many times k occurs in es. */
  function Occurrences(es: seq<string>, k: string): nat
    decreases |es|
  {
    if es == [] then 0
    else Occurrences(es[..|es| - 1], k) + (if es[|es| - 1] == k then 1 else 0)
  }

  /** The position of the first occurrence of k. */
  function FirstIndex(s: seq<string>, k: string): (i: nat)
    requires k in s
    ensures i < |s| && s[i] == k && forall j :: 0 <= j < i ==> s[j] != k
  {
    if s[0] == k then 0
    else
      var i := 1 + FirstIndex(s[1..], k);
      assert forall j :: 1 <= j < |s| ==> s[j] == s[1..][j - 1];
      i
  }

  lemma FirstIndexExtend(p: seq<string>, e: string, k: string)
    requires k in p
    ensures FirstIndex(p + [e], k) == FirstIndex(p, k)
  {
    var b := FirstIndex(p, k);
    assert (p + [e])[b] == k;
    assert forall j :: 0 <= j < |p| ==> (p + [e])[j] == p[j];
  }

  lemma FirstIndexNew(p: seq<string>, k: string)
    requires k !in p
    ensures FirstIndex(p + [k], k) == |p|
  {
    assert forall j :: 0 <= j < |p| ==> (p + [k])[j] == p[j];
  }

  // ---------------------------------------------------------------------------
  // The `emotionCounts` object: keys in insertion order, one count per key.

  type Tally = seq<(string, nat)>

  /** Where `key` sits in the tally, if anywhere. */
  function KeyIndex(t: Tally, key: string): (r: Option<nat>)
    ensures r.None? <==> forall i :: 0 <= i < |t| ==> t[i].0 != key
    ensures r.Some? ==> r.value < |t| && t[r.value].0 == key
    decreases |t|
  {
    if t == [] then None
    else if t[|t| - 1].0 == key then Some(|t| - 1)
    else KeyIndex(t[..|t| - 1], key)
  }

  /** `emotionCounts[e] = (emotionCounts[e] || 0) + 1`. */
  function Bump(t: Tally, e: string): Tally
  {
    var r := KeyIndex(t, e);
    if r.Some? then t[r.value := (e, t[r.value].1 + 1)] else t + [(e, 1)]
  }

  /** The object after the `forEach` over the emotions es. */
  function TallyOf(es: seq<string>): Tally
    decreases |es|
  {
    if es == [] then [] else Bump(TallyOf(es[..|es| - 1]), es[|es| - 1])
  }

  /** The tally has one entry per distinct emotion, counting its occurrences,
      and its keys are in order of first occurrence. */
  predicate Describes(t: Tally, es: seq<string>)
  {
    && (forall i, j :: 0 <= i < j < |t| ==> t[i].0 != t[j].0)
    && (forall i :: 0 <= i < |t| ==> t[i].0 in es && t[i].1 == Occurrences(es, t[i].0))
    && (forall k :: k in es ==> exists i :: 0 <= i < |t| && t[i].0 == k)
    && (forall i, j :: 0 <= i < j < |t| ==> FirstIndex(es, t[i].0) < FirstIndex(es, t[j].0))
  }

  lemma {:induction false} TallyDescribes(es: seq<string>)
    ensures Describes(TallyOf(es), es)
    decreases |es|
  {
    if es != [] {
      var p := es[..|es| - 1];
      var e := es[|es| - 1];
      assert es == p + [e];
      TallyDescribes(p);
      BumpDescribes(TallyOf(p), p, e);
    }
  }

  /** Counting one more emotion keeps the tally describing the emotions seen. */
  lemma BumpDescribes(t: Tally, p: seq<string>, e: string)
    requires Describes(t, p)
    ensures Describes(Bump(t, e), p + [e])
  {
    var u := Bump(t, e);
    var r := KeyIndex(t, e);
    if r.Some? {
      BumpIsUpdate(t, e, r.value);
      BumpAt(t, p, e, r.value, u);
    } else {
      BumpIsAppend(t, e);
      BumpNew(t, p, e, u);
    }
    assert Describes(u, p + [e]);
  }

  lemma BumpIsUpdate(t: Tally, e: string, i: nat)
    requires KeyIndex(t, e) == Some(i)
    ensures i < |t| && t[i].0 == e
    ensures Bump(t, e) == t[i := (e, t[i].1 + 1)]
  {
  }

  lemma BumpIsAppend(t: Tally, e: string)
    requires KeyIndex(t, e).None?
    ensures forall i :: 0 <= i < |t| ==> t[i].0 != e
    ensures Bump(t, e) == t + [(e, 1)]
  {
  }

  lemma BumpAt(t: Tally, p: seq<string>, e: string, i: nat, u: Tally)
    requires Describes(t, p)
    requires i < |t| && t[i].0 == e
    requires u == t[i := (e, t[i].1 + 1)]
    ensures Describes(u, p + [e])
  {
    FirstIndexExtendAll(p, e);
    var es := p + [e];
    assert es[..|es| - 1] == p;
    forall j | 0 <= j < |u| ensures u[j].0 in es && u[j].1 == Occurrences(es, u[j].0) {
      assert u[j].0 == t[j].0;
    }
    forall k | k in es ensures exists j :: 0 <= j < |u| && u[j].0 == k {
      if k != e {
        assert k in p;
        var j :| 0 <= j < |t| && t[j].0 == k;
        assert u[j].0 == k;
      } else {
        assert u[i].0 == k;
      }
    }
    forall a, b | 0 <= a < b < |u| ensures FirstIndex(es, u[a].0) < FirstIndex(es, u[b].0) {
      assert u[a].0 == t[a].0 && u[b].0 == t[b].0;
    }
  }

  lemma FirstIndexExtendAll(p: seq<string>, e: string)
    ensures forall k :: k in p ==> FirstIndex(p + [e], k) == FirstIndex(p, k)
  {
    forall k | k in p ensures FirstIndex(p + [e], k) == FirstIndex(p, k) {
      FirstIndexExtend(p, e, k);
    }
  }

  lemma BumpNew(t: Tally, p: seq<string>, e: string, u: Tally)
    requires Describes(t, p)
    requires forall i :: 0 <= i < |t| ==> t[i].0 != e
    requires u == t + [(e, 1)]
    ensures Describes(u, p + [e])
  {
    FirstIndexExtendAll(p, e);
    assert e !in p;
    FirstIndexNew(p, e);
    var es := p + [e];
    assert es[..|es| - 1] == p;
    assert Occurrences(p, e) == 0 by {
      OccurrencesAbsent(p, e);
    }
    forall j | 0 <= j < |u| ensures u[j].0 in es && u[j].1 == Occurrences(es, u[j].0) {
      if j < |t| {
        assert u[j] == t[j];
      }
    }
    forall k | k in es ensures exists j :: 0 <= j < |u| && u[j].0 == k {
      if k != e {
        assert k in p;
        var j :| 0 <= j < |t| && t[j].0 == k;
        assert u[j].0 == k;
      } else {
        assert u[|t|].0 == k;
      }
    }
    forall a, b | 0 <= a < b < |u| ensures FirstIndex(es, u[a].0) < FirstIndex(es, u[b].0) {
      assert u[a] == t[a];
      if b < |t| {
        assert u[b] == t[b];
      }
    }
  }

  lemma {:induction false} OccurrencesAbsent(es: seq<string>, k: string)
    requires k !in es
    ensures Occurrences(es, k) == 0
    decreases |es|
  {
    if es != [] {
      OccurrencesAbsent(es[..|es| - 1], k);
    }
  }

  /** The `forEach` that fills `emotionCounts`. */
  method TallyEmotions(dreams: seq<Dream>) returns (counts: Tally)
    ensures counts == TallyOf(EmotionsOf(dreams))
  {
    counts := [];
    var i := 0;
    while i < |dreams|
      invariant 0 <= i <= |dreams|
      invariant counts == TallyOf(EmotionsOf(dreams[..i]))
    {
      var e := dreams[i].emotion;
      ghost var before := counts;
      match KeyIndex(counts, e) {
        case Some(j) =>
          counts := counts[j := (e, counts[j].1 + 1)];
        case None =>
          counts := counts + [(e, 1)];
      }
      assert counts == Bump(before, e);
      EmotionsOfSnoc(dreams, i);
      ghost var es := EmotionsOf(dreams[..i + 1]);
      assert es[..|es| - 1] == EmotionsOf(dreams[..i]);
      assert TallyOf(es) == Bump(TallyOf(EmotionsOf(dreams[..i])), e);
      i := i + 1;
    }
    assert dreams[..i] == dreams;
  }

  /** `Object.entries(emotionCounts).sort((a, b) => b[1] - a[1])[0]`: the sort is
      stable, so this is the first entry whose count is the largest. */
  function TopEntry(t: Tally): (i: nat)
    requires t != []
    ensures i < |t|
    ensures forall j :: 0 <= j < |t| ==> t[j].1 <= t[i].1
    ensures forall j :: 0 <= j < i ==> t[j].1 < t[i].1
    decreases |t|
  {
    if |t| == 1 then 0
    else
      var r := 1 + TopEntry(t[1..]);
      assert forall j :: 1 <= j < |t| ==> t[j] == t[1..][j - 1];
      if t[0].1 >= t[r].1 then 0 else r
  }

  /** The dominant emotion: the most frequent one, and of those tied the one that
      occurs first in the journal. */
  lemma {:induction false} DominantIsEarliestMostFrequent(es: seq<string>)
    requires es != []
    ensures TallyOf(es) != []
    ensures var t := TallyOf(es);
            var k := t[TopEntry(t)].0;
            && k in es
            && t[TopEntry(t)].1 == Occurrences(es, k)
            && (forall e :: e in es ==> Occurrences(es, e) <= Occurrences(es, k))
            && (forall e :: e in es && Occurrences(es, e) == Occurrences(es, k) ==>
                  FirstIndex(es, k) <= FirstIndex(es, e))
  {
    var t := TallyOf(es);
    TallyDescribes(es);
    assert es[0] in es;
    var i := TopEntry(t);
    var k := t[i].0;
    forall e | e in es
      ensures Occurrences(es, e) <= Occurrences(es, k)
      ensures Occurrences(es, e) == Occurrences(es, k) ==> FirstIndex(es, k) <= FirstIndex(es, e)
    {
      var j :| 0 <= j < |t| && t[j].0 == e;
      if Occurrences(es, e) == Occurrences(es, k) && j != i {
        assert j > i;
      }
    }
  }

  // ---------------------------------------------------------------------------
  // The five pattern cards.

  datatype Tag = Tag(text: string, color: string)
  datatype Pattern = Pattern(icon: string, title: string, description: string, tags: seq<Tag>)
  datatype PatternReport = PatternReport(hasData: bool, patterns: seq<Pattern>)

  /** `emotions[key]?.name || key`. */
  function NameOrKey(key: string): string
  {
    match EmotionOf(key)
    case Some(info) => info.name
    case None => key
  }

  /** `emotions[key]?.color || '#ffd166'`. */
  function ColorOrDefault(key: string): string
  {
    match EmotionOf(key)
    case Some(info) => info.color
    case None => "#ffd166"
  }

  function DominantPattern(key: string, count: nat, total: nat): Pattern
    requires total > 0
  {
    var name := NameOrKey(key);
    Pattern("🎭", "主导情绪模式",
      "您的梦境中频繁出现「" + name + "」情绪（" + NatToString(count)
        + "次），这可能反映了您潜意识中持续的心理状态或关注点。",
      [Tag(name, ColorOrDefault(key)),
       Tag("占比 " + NatToString(RoundPercent(count, total)) + "%", "#C8A2C8")])
  }

  function RecurringPattern(n: nat): Pattern
  {
    Pattern("🔄", "重复梦境模式",
      "您有 " + NatToString(n) + " 个标记为重复出现的梦境。重复梦境通常暗示着潜意识中未解决的重要议题或深层焦虑。",
      [Tag(NatToString(n) + " 个重复", "#ffd166"), Tag("需关注", "#f79d65")])
  }

  function PropheticPattern(n: nat): Pattern
  {
    Pattern("🔮", "预言性梦境",
      "您有 " + NatToString(n) + " 个梦境后来在现实中得到了印证。这表明您可能具有较强的直觉或对未来事件的敏感感知能力。",
      [Tag(NatToString(n) + " 个成真", "#ffd166"), Tag("直觉敏锐", "#d83f87")])
  }

  function ClarityPattern(n: nat): Pattern
  {
    Pattern("✨", "高清晰度梦境",
      "您有 " + NatToString(n) + " 个高清晰度梦境（4-5星）。清晰的梦境通常更容易被解析，也更容易形成记忆和产生启示。",
      [Tag(NatToString(n) + " 个清晰梦", "#ffd166"), Tag("易解析", "#C8A2C8")])
  }

  function RecentPattern(key: string): Pattern
  {
    var name := NameOrKey(key);
    Pattern("📊", "近期情绪聚焦",
      "最近5个梦境都呈现「" + name + "」情绪，这可能暗示您近期正经历特定的心理阶段或生活状态。",
      [Tag("近期趋势", "#6a0572"), Tag(name, ColorOrDefault(key))])
  }

  predicate IsRecurring(d: Dream) { d.isRecurring }

  /** `d.realityCheck?.cameTrue === true`. */
  predicate CameTrue(d: Dream) { d.realityCheck.Some? && d.realityCheck.value.cameTrue == Some(true) }

  predicate IsHighClarity(d: Dream) { d.clarity >= 4 }

  /** `dreams.filter(p).length`. */
  function CountWhere(dreams: seq<Dream>, p: Dream -> bool): (n: nat)
    ensures n <= |dreams|
    decreases |dreams|
  {
    if dreams == [] then 0
    else CountWhere(dreams[..|dreams| - 1], p) + (if p(dreams[|dreams| - 1]) then 1 else 0)
  }

  /** `[...new Set(emotions)].length`: the number of distinct emotions. */
  function DistinctEmotions(ds: seq<Dream>): nat
  {
    |set i | 0 <= i < |ds| :: ds[i].emotion|
  }

  /** Exactly one distinct emotion means every dream has the first one's emotion. */
  lemma SingleEmotionMeansAllSame(ds: seq<Dream>)
    requires ds != []
    ensures DistinctEmotions(ds) == 1 <==> forall i :: 0 <= i < |ds| ==> ds[i].emotion == ds[0].emotion
  {
    var s := set i | 0 <= i < |ds| :: ds[i].emotion;
    assert ds[0].emotion in s;
    if forall i :: 0 <= i < |ds| ==> ds[i].emotion == ds[0].emotion {
      assert s == {ds[0].emotion};
    }
    if |s| == 1 {
      var y := ds[0].emotion;
      assert |s - {y}| == 0;
      assert s - {y} == {};
      forall i | 0 <= i < |ds| ensures ds[i].emotion == y {
        assert ds[i].emotion in s;
      }
    }
  }

  function DominantSection(dreams: seq<Dream>, counts: Tally): seq<Pattern>
    requires dreams != [] && counts != []
  {
    var top := counts[TopEntry(counts)];
    if top.1 >= 3 then [DominantPattern(top.0, top.1, |dreams|)] else []
  }

  function RecentSection(dreams: seq<Dream>): seq<Pattern>
  {
    if |dreams| >= 5 then
      var recent := dreams[|dreams| - 5..];
      if DistinctEmotions(recent) == 1 then [RecentPattern(recent[0].emotion)] else []
    else []
  }

  /** The report for a journal of at least three dreams, from its emotion tally. */
  function ReportFrom(dreams: seq<Dream>, counts: Tally): PatternReport
    requires dreams != [] && counts != []
  {
    var recurring := CountWhere(dreams, IsRecurring);
    var prophetic := CountWhere(dreams, CameTrue);
    var clear := CountWhere(dreams, IsHighClarity);
    var ps := DominantSection(dreams, counts)
      + (if recurring >= 2 then [RecurringPattern(recurring)] else [])
      + (if prophetic >= 1 then [PropheticPattern(prophetic)] else [])
      + (if clear >= 3 then [ClarityPattern(clear)] else [])
      + RecentSection(dreams);
    PatternReport(|ps| > 0, ps)
  }

  /** What `analyzeDreamPatterns()` returns for the journal. */
  function PatternsOf(dreams: seq<Dream>): PatternReport
  {
    if |dreams| < 3 then PatternReport(false, [])
    else
      TallyDescribes(EmotionsOf(dreams));
      assert dreams[0].emotion in EmotionsOf(dreams);
      ReportFrom(dreams, TallyOf(EmotionsOf(dreams)))
  }

  /** `analyzeDreamPatterns()` over the journal `appState.dreams`. */
  method AnalyzeDreamPatterns(dreams: seq<Dream>) returns (r: PatternReport)
    ensures r == PatternsOf(dreams)
  {
    if |dreams| < 3 {
      return PatternReport(false, []);
    }
    var emotionCounts := TallyEmotions(dreams);
    TallyDescribes(EmotionsOf(dreams));
    assert dreams[0].emotion in EmotionsOf(dreams);
    r := ReportFrom(dreams, emotionCounts);
  }

  function Icons(ps: seq<Pattern>): (r: seq<string>)
    ensures |r| == |ps| && forall i :: 0 <= i < |ps| ==> r[i] == ps[i].icon
  {
    seq(|ps|, i requires 0 <= i < |ps| => ps[i].icon)
  }

  /** Some emotion occurs at least three times. */
  predicate HasFrequentEmotion(dreams: seq<Dream>)
  {
    exists k :: k in EmotionsOf(dreams) && Occurrences(EmotionsOf(dreams), k) >= 3
  }

  /** The last five of at least five dreams all share one emotion. */
  predicate RecentFocus(dreams: seq<Dream>)
  {
    |dreams| >= 5 &&
    forall i :: |dreams| - 5 <= i < |dreams| ==> dreams[i].emotion == dreams[|dreams| - 5].emotion
  }

  lemma DominantSectionIcons(dreams: seq<Dream>)
    requires dreams != []
    ensures TallyOf(EmotionsOf(dreams)) != []
    ensures Icons(DominantSection(dreams, TallyOf(EmotionsOf(dreams))))
            == if HasFrequentEmotion(dreams) then ["🎭"] else []
  {
    var es := EmotionsOf(dreams);
    DominantIsEarliestMostFrequent(es);
    var t := TallyOf(es);
    var top := t[TopEntry(t)];
    assert top.1 >= 3 <==> HasFrequentEmotion(dreams);
  }

  lemma RecentSectionIcons(dreams: seq<Dream>)
    ensures Icons(RecentSection(dreams)) == if RecentFocus(dreams) then ["📊"] else []
  {
    if |dreams| >= 5 {
      var recent := dreams[|dreams| - 5..];
      SingleEmotionMeansAllSame(recent);
      assert DistinctEmotions(recent) == 1 <==> RecentFocus(dreams);
    }
  }

  /** The icons the report shows, in the fixed order 🎭 🔄 🔮 ✨ 📊, each present
      exactly when its condition holds; a journal of fewer than three dreams has
      no report, and `hasData` says whether any card was produced. */
  lemma PatternConditions(dreams: seq<Dream>)
    ensures PatternsOf(dreams).hasData <==> PatternsOf(dreams).patterns != []
    ensures |dreams| < 3 ==> PatternsOf(dreams) == PatternReport(false, [])
    ensures |dreams| >= 3 ==>
      Icons(PatternsOf(dreams).patterns) ==
        (if HasFrequentEmotion(dreams) then ["🎭"] else [])
        + (if CountWhere(dreams, IsRecurring) >= 2 then ["🔄"] else [])
        + (if CountWhere(dreams, CameTrue) >= 1 then ["🔮"] else [])
        + (if CountWhere(dreams, IsHighClarity) >= 3 then ["✨"] else [])
        + (if RecentFocus(dreams) then ["📊"] else [])
  {
    if |dreams| >= 3 {
      TallyDescribes(EmotionsOf(dreams));
      assert dreams[0].emotion in EmotionsOf(dreams);
      var t := TallyOf(EmotionsOf(dreams));
      assert PatternsOf(dreams) == ReportFrom(dreams, t);
      DominantSectionIcons(dreams);
      RecentSectionIcons(dreams);
      ReportIcons(dreams, t);
    }
  }

  lemma ReportIcons(dreams: seq<Dream>, t: Tally)
    requires dreams != [] && t != []
    ensures ReportFrom(dreams, t).hasData <==> ReportFrom(dreams, t).patterns != []
    ensures Icons(ReportFrom(dreams, t).patterns) ==
        Icons(DominantSection(dreams, t))
        + (if CountWhere(dreams, IsRecurring) >= 2 then ["🔄"] else [])
        + (if CountWhere(dreams, CameTrue) >= 1 then ["🔮"] else [])
        + (if CountWhere(dreams, IsHighClarity) >= 3 then ["✨"] else [])
        + Icons(RecentSection(dreams))
  {
    var nr, np, nc := CountWhere(dreams, IsRecurring), CountWhere(dreams, CameTrue), CountWhere(dreams, IsHighClarity);
    var a := DominantSection(dreams, t);
    var b := if nr >= 2 then [RecurringPattern(nr)] else [];
    var c := if np >= 1 then [PropheticPattern(np)] else [];
    var d := if nc >= 3 then [ClarityPattern(nc)] else [];
    var e := RecentSection(dreams);
    assert ReportFrom(dreams, t).patterns == a + b + c + d + e;
    assert Icons(b) == if nr >= 2 then ["🔄"] else [];
    assert Icons(c) == if np >= 1 then ["🔮"] else [];
    assert Icons(d) == if nc >= 3 then ["✨"] else [];
    IconsAppend(a, b);
    IconsAppend(a + b, c);
    IconsAppend(a + b + c, d);
    IconsAppend(a + b + c + d, e);
  }

  lemma IconsAppend(a: seq<Pattern>, b: seq<Pattern>)
    ensures Icons(a + b) == Icons(a) + Icons(b)
  {
  }

  /** The dominant-emotion card names the most frequent emotion (the first to
      occur among those tied), gives its count and its rounded share. */
  lemma DominantCard(dreams: seq<Dream>)
    requires |dreams| >= 3 && HasFrequentEmotion(dreams)
    ensures var es := EmotionsOf(dreams);
            exists k :: k in es
              && (forall e :: e in es ==> Occurrences(es, e) <= Occurrences(es, k))
              && (forall e :: e in es && Occurrences(es, e) == Occurrences(es, k) ==>
                    FirstIndex(es, k) <= FirstIndex(es, e))
              && PatternsOf(dreams).patterns != []
              && PatternsOf(dreams).patterns[0] == DominantPattern(k, Occurrences(es, k), |dreams|)
  {
    var es := EmotionsOf(dreams);
    DominantIsEarliestMostFrequent(es);
    var t := TallyOf(es);
    var k := t[TopEntry(t)].0;
    assert t[TopEntry(t)].1 >= 3;
    assert PatternsOf(dreams).patterns[0] == DominantPattern(k, Occurrences(es, k), |dreams|);
  }

  // ---------------------------------------------------------------------------
  // `calculateEmotionStats()`.

  datatype EmotionStats = EmotionStats(happy: nat, horror: nat, fantasy: nat, chaos: nat)

  predicate IsAppEmotion(e: string) { e in {"happy", "horror", "fantasy", "chaos"} }

  /** The percentages of the four emotions: an even 25 each for an empty journal,
      otherwise each emotion's count over all dreams, rounded. */
  method CalculateEmotionStats(dreams: seq<Dream>) returns (stats: EmotionStats)
    ensures |dreams| == 0 ==> stats == EmotionStats(25, 25, 25, 25)
    ensures |dreams| > 0 ==>
      var es := EmotionsOf(dreams);
      var n := |dreams|;
      stats == EmotionStats(RoundPercent(Occurrences(es, "happy"), n), RoundPercent(Occurrences(es, "horror"), n),
                            RoundPercent(Occurrences(es, "fantasy"), n), RoundPercent(Occurrences(es, "chaos"), n))
  {
    var total := |dreams|;
    if total == 0 {
      return EmotionStats(25, 25, 25, 25);
    }
    var happy, horror, fantasy, chaos := 0, 0, 0, 0;
    var i := 0;
    while i < total
      invariant 0 <= i <= total
      invariant happy == Occurrences(EmotionsOf(dreams[..i]), "happy")
      invariant horror == Occurrences(EmotionsOf(dreams[..i]), "horror")
      invariant fantasy == Occurrences(EmotionsOf(dreams[..i]), "fantasy")
      invariant chaos == Occurrences(EmotionsOf(dreams[..i]), "chaos")
    {
      var e := dreams[i].emotion;
      EmotionsOfSnoc(dreams, i);
      ghost var es := EmotionsOf(dreams[..i + 1]);
      assert es[..|es| - 1] == EmotionsOf(dreams[..i]);
      if e == "happy" {
        happy := happy + 1;
      } else if e == "horror" {
        horror := horror + 1;
      } else if e == "fantasy" {
        fantasy := fantasy + 1;
      } else if e == "chaos" {
        chaos := chaos + 1;
      }
      i := i + 1;
    }
    assert dreams[..i] == dreams;
    stats := EmotionStats(RoundPercent(happy, total), RoundPercent(horror, total),
                          RoundPercent(fantasy, total), RoundPercent(chaos, total));
  }

  /** The four counts never exceed the number of dreams, and add up to it when
      every dream has one of the four emotions. */
  lemma {:induction false} AppEmotionCounts(es: seq<string>)
    ensures Occurrences(es, "happy") + Occurrences(es, "horror")
            + Occurrences(es, "fantasy") + Occurrences(es, "chaos") <= |es|
    ensures (forall i :: 0 <= i < |es| ==> IsAppEmotion(es[i])) ==>
            Occurrences(es, "happy") + Occurrences(es, "horror")
            + Occurrences(es, "fantasy") + Occurrences(es, "chaos") == |es|
    decreases |es|
  {
    if es != [] {
      AppEmotionCounts(es[..|es| - 1]);
    }
  }

  /** When every dream has one of the four emotions, the rounded percentages
      add up to between 99 and 102, each at most 100. */
  lemma StatsNearlySumToHundred(dreams: seq<Dream>, stats: EmotionStats)
    requires |dreams| > 0
    requires forall i :: 0 <= i < |dreams| ==> IsAppEmotion(dreams[i].emotion)
    requires var es := EmotionsOf(dreams);
      var n := |dreams|;
      stats == EmotionStats(RoundPercent(Occurrences(es, "happy"), n), RoundPercent(Occurrences(es, "horror"), n),
                            RoundPercent(Occurrences(es, "fantasy"), n), RoundPercent(Occurrences(es, "chaos"), n))
    ensures stats.happy <= 100 && stats.horror <= 100 && stats.fantasy <= 100 && stats.chaos <= 100
    ensures 99 <= stats.happy + stats.horror + stats.fantasy + stats.chaos <= 102
  {
    var es := EmotionsOf(dreams);
    AppEmotionCounts(es);
    var ca, cb, cc, cd := Occurrences(es, "happy"), Occurrences(es, "horror"),
                          Occurrences(es, "fantasy"), Occurrences(es, "chaos");
    RoundingsSum(ca, cb, cc, cd, |dreams|, stats.happy, stats.horror, stats.fantasy, stats.chaos);
  }

  /** Four shares of one whole, each rounded to the nearest percent. */
  lemma RoundingsSum(ca: nat, cb: nat, cc: nat, cd: nat, n: nat, a: nat, b: nat, c: nat, d: nat)
    requires n > 0 && ca + cb + cc + cd == n
    requires a == RoundPercent(ca, n) && b == RoundPercent(cb, n)
    requires c == RoundPercent(cc, n) && d == RoundPercent(cd, n)
    ensures a <= 100 && b <= 100 && c <= 100 && d <= 100
    ensures 99 <= a + b + c + d <= 102
  {
    var m := 2 * n;
    var sum := a + b + c + d;
    Distribute4(a, b, c, d, m);
    Distribute4(a + 1, b + 1, c + 1, d + 1, m);
    assert sum * m <= 204 * n;
    assert 204 * n < (sum + 4) * m;
    if sum >= 103 {
      MulMonotone(103, sum, m);
    }
    if sum <= 98 {
      MulMonotone(sum + 4, 102, m);
    }
  }

  lemma Distribute4(a: nat, b: nat, c: nat, d: nat, m: nat)
    ensures (a + b + c + d) * m == a * m + b * m + c * m + d * m
  {
  }

  // ---------------------------------------------------------------------------
  // `filterDreams()`.

  /** `d => d.emotion === filter`. */
  function HasEmotion(filter: string): Dream -> bool
  {
    (d: Dream) => d.emotion == filter
  }

  function Reverse<T>(s: seq<T>): (r: seq<T>)
    ensures |r| == |s| && forall i :: 0 <= i < |s| ==> r[i] == s[|s| - 1 - i]
    decreases |s|
  {
    if s == [] then [] else [s[|s| - 1]] + Reverse(s[..|s| - 1])
  }

  /** The list the diary shows: a copy of the journal, filtered by emotion unless
      the filter is `'all'`, newest first. */
  function FilterDreams(dreams: seq<Dream>, filter: string): seq<Dream>
  {
    Reverse(if filter != "all" then KeepIf(dreams, HasEmotion(filter)) else dreams)
  }

  /** A dream is listed exactly when it matches the filter, and read backwards the
      listing follows journal order; `'all'` lists the whole journal in reverse;
      otherwise as many dreams are listed as carry the emotion. Together these
      say the listing is exactly the matching dreams, newest first. */
  lemma FilterDreamsContents(dreams: seq<Dream>, filter: string)
    ensures forall d :: d in FilterDreams(dreams, filter) <==>
              d in dreams && (filter == "all" || d.emotion == filter)
    ensures IsSubsequence(Reverse(FilterDreams(dreams, filter)), dreams)
    ensures filter == "all" ==> FilterDreams(dreams, filter) == Reverse(dreams)
    ensures filter != "all" ==> |FilterDreams(dreams, filter)| == Occurrences(EmotionsOf(dreams), filter)
  {
    if filter != "all" {
      var kept := KeepIf(dreams, HasEmotion(filter));
      KeepIfContents(dreams, HasEmotion(filter));
      KeepCounts(dreams, filter);
      ReverseMembers(kept);
      ReverseReverse(kept);
    } else {
      ReverseMembers(dreams);
      ReverseReverse(dreams);
      SubsequenceReflexive(dreams);
    }
  }

  /** An emotion filter keeps as many dreams as carry the emotion. */
  lemma {:induction false} KeepCounts(dreams: seq<Dream>, filter: string)
    ensures |KeepIf(dreams, HasEmotion(filter))| == Occurrences(EmotionsOf(dreams), filter)
    decreases |dreams|
  {
    if dreams != [] {
      var p := dreams[..|dreams| - 1];
      KeepCounts(p, filter);
      var es := EmotionsOf(dreams);
      assert es[..|es| - 1] == EmotionsOf(p);
      assert es[|es| - 1] == dreams[|dreams| - 1].emotion;
    }
  }

  /** Reversing twice gives the sequence back. */
  lemma ReverseReverse<T>(s: seq<T>)
    ensures Reverse(Reverse(s)) == s
  {
    var r := Reverse(Reverse(s));
    assert forall i :: 0 <= i < |s| ==> r[i] == s[i];
  }

  lemma ReverseMembers<T>(s: seq<T>)
    ensures forall x :: x in Reverse(s) <==> x in s
  {
    var r := Reverse(s);
    forall x | x in s ensures x in r {
      var i :| 0 <= i < |s| && s[i] == x;
      assert r[|s| - 1 - i] == x;
    }
  }
}

/**
 * The universe story weaver (`generateDreamUniverseStory`): groups the shared
 * pool by emotion, picks a largest group, shuffles it with the seed, and
 * composes an intro, numbered parts and an outro from keyword templates.
 *
 * The shared pool, the story seed and the clock are parameters instead of
 * reads of the application state. `rng()` mixes `Math.random()` into the seed,
 * so its three results (the tie-break, the intro and the outro choice) are
 * free parameters in [0, 1).
 */
module Weaver {
  import opened Common
  import opened Entities
  import opened Shuffle

  /** `dream.emotion || 'fantasy'`: the group a shared dream belongs to. */
  function GroupKey(d: SharedDream): string
  {
    if d.emotion == "" then "fantasy" else d.emotion
  }

  /** One entry of `emotionGroups`: an emotion key and the dreams pushed onto it. */
  datatype Group = Group(key: string, members: seq<SharedDream>)

  /** The dreams of the pool whose group key is k, in pool order. */
  function WithKey(pool: seq<SharedDream>, k: string): seq<SharedDream>
    decreases |pool|
  {
    if pool == [] then []
    else
      var last := pool[|pool| - 1];
      WithKey(pool[..|pool| - 1], k) + (if GroupKey(last) == k then [last] else [])
  }

  lemma {:induction false} WithKeyMembers(pool: seq<SharedDream>, k: string, d: SharedDream)
    ensures d in WithKey(pool, k) <==> d in pool && GroupKey(d) == k
    decreases |pool|
  {
    if pool != [] {
      WithKeyMembers(pool[..|pool| - 1], k, d);
      assert pool == pool[..|pool| - 1] + [pool[|pool| - 1]];
    }
  }

  /** `emotionGroups[key]`: the position of the group with that key. */
  function FindGroup(groups: seq<Group>, key: string, from: nat): (r: Option<nat>)
    requires from <= |groups|
    ensures r.Some? ==> from <= r.value < |groups| && groups[r.value].key == key
    ensures r.None? ==> forall i :: from <= i < |groups| ==> groups[i].key != key
    decreases |groups| - from
  {
    if from == |groups| then None
    else if groups[from].key == key then Some(from)
    else FindGroup(groups, key, from + 1)
  }

  /** One step of the `forEach`: push the dream onto its group, creating the
      group (at the end, keeping first-occurrence order) when the key is new. */
  function AddToGroups(groups: seq<Group>, d: SharedDream): seq<Group>
  {
    match FindGroup(groups, GroupKey(d), 0)
    case Some(i) => groups[i := Group(groups[i].key, groups[i].members + [d])]
    case None => groups + [Group(GroupKey(d), [d])]
  }

  /** `emotionGroups` after the `forEach` over the pool. */
  function GroupsOf(pool: seq<SharedDream>): seq<Group>
    decreases |pool|
  {
    if pool == [] then [] else AddToGroups(GroupsOf(pool[..|pool| - 1]), pool[|pool| - 1])
  }

  predicate KeysDistinct(groups: seq<Group>)
  {
    forall i, j :: 0 <= i < j < |groups| ==> groups[i].key != groups[j].key
  }

  /** The facts about the grouping the selection relies on. */
  predicate GroupsDescribe(pool: seq<SharedDream>, groups: seq<Group>)
  {
    && KeysDistinct(groups)
    && (forall i :: 0 <= i < |groups| ==> groups[i].members == WithKey(pool, groups[i].key))
    && (forall i :: 0 <= i < |groups| ==> groups[i].members != [])
    && (forall d :: d in pool ==> exists i :: 0 <= i < |groups| && groups[i].key == GroupKey(d))
  }

  lemma WithKeySnoc(init: seq<SharedDream>, d: SharedDream, k: string)
    ensures WithKey(init + [d], k) == WithKey(init, k) + (if GroupKey(d) == k then [d] else [])
  {
    assert (init + [d])[..|init|] == init;
  }

  /** Pushing onto an existing group keeps the description. */
  lemma AddToExisting(pool: seq<SharedDream>, gs: seq<Group>, d: SharedDream, j: nat)
    requires GroupsDescribe(pool, gs)
    requires j < |gs| && gs[j].key == GroupKey(d)
    ensures GroupsDescribe(pool + [d], gs[j := Group(gs[j].key, gs[j].members + [d])])
  {
    var gs' := gs[j := Group(gs[j].key, gs[j].members + [d])];
    forall i | 0 <= i < |gs'| ensures gs'[i].members == WithKey(pool + [d], gs'[i].key) {
      WithKeySnoc(pool, d, gs[i].key);
    }
    forall x | x in pool + [d] ensures exists i :: 0 <= i < |gs'| && gs'[i].key == GroupKey(x) {
      if x in pool {
        var i :| 0 <= i < |gs| && gs[i].key == GroupKey(x);
        assert gs'[i].key == GroupKey(x);
      } else {
        assert gs'[j].key == GroupKey(x);
      }
    }
  }

  /** Creating the group of a new key keeps the description. */
  lemma AddAsNew(pool: seq<SharedDream>, gs: seq<Group>, d: SharedDream)
    requires GroupsDescribe(pool, gs)
    requires forall i :: 0 <= i < |gs| ==> gs[i].key != GroupKey(d)
    ensures GroupsDescribe(pool + [d], gs + [Group(GroupKey(d), [d])])
  {
    var k := GroupKey(d);
    var gs' := gs + [Group(k, [d])];
    forall x | x in pool ensures GroupKey(x) != k {
      var i :| 0 <= i < |gs| && gs[i].key == GroupKey(x);
    }
    if WithKey(pool, k) != [] {
      WithKeyMembers(pool, k, WithKey(pool, k)[0]);
    }
    assert WithKey(pool + [d], k) == [d] by {
      WithKeySnoc(pool, d, k);
    }
    forall i | 0 <= i < |gs'| ensures gs'[i].members == WithKey(pool + [d], gs'[i].key) && gs'[i].members != [] {
      if i < |gs| {
        assert gs'[i] == gs[i];
        WithKeySnoc(pool, d, gs[i].key);
      }
    }
    forall a, b | 0 <= a < b < |gs'| ensures gs'[a].key != gs'[b].key {
      assert gs'[a] == gs[a];
      if b < |gs| {
        assert gs'[b] == gs[b];
      }
    }
    forall x | x in pool + [d] ensures exists i :: 0 <= i < |gs'| && gs'[i].key == GroupKey(x) {
      if x in pool {
        var i :| 0 <= i < |gs| && gs[i].key == GroupKey(x);
        assert gs'[i].key == GroupKey(x);
      } else {
        assert gs'[|gs|].key == GroupKey(x);
      }
    }
  }

  /** The groups have distinct keys, each group holds exactly the dreams with its
      key in pool order, and every dream of the pool has its group. */
  lemma {:induction false} GroupsOfDescribes(pool: seq<SharedDream>)
    ensures GroupsDescribe(pool, GroupsOf(pool))
    decreases |pool|
  {
    if pool != [] {
      var init := pool[..|pool| - 1];
      var d := pool[|pool| - 1];
      GroupsOfDescribes(init);
      assert pool == init + [d];
      var gs := GroupsOf(init);
      match FindGroup(gs, GroupKey(d), 0)
      case Some(j) => AddToExisting(init, gs, d, j);
      case None => AddAsNew(init, gs, d);
    }
  }

  /** The `forEach` that fills `emotionGroups`. */
  method GroupByEmotion(pool: seq<SharedDream>) returns (groups: seq<Group>)
    ensures groups == GroupsOf(pool)
  {
    groups := [];
    var i := 0;
    while i < |pool|
      invariant 0 <= i <= |pool|
      invariant groups == GroupsOf(pool[..i])
    {
      var dream := pool[i];
      var emotion := GroupKey(dream);
      var at := FindGroup(groups, emotion, 0);
      match at {
        case Some(j) =>
          groups := groups[j := Group(groups[j].key, groups[j].members + [dream])];
        case None =>
          groups := groups + [Group(emotion, [dream])];
      }
      assert pool[..i + 1][..i] == pool[..i];
      i := i + 1;
    }
    assert pool[..|pool|] == pool;
  }

  /** The size of a largest group. */
  function MaxSize(groups: seq<Group>): (m: nat)
    ensures forall i :: 0 <= i < |groups| ==> |groups[i].members| <= m
    ensures groups != [] ==> exists i :: 0 <= i < |groups| && |groups[i].members| == m
    decreases |groups|
  {
    if groups == [] then 0
    else
      var rest := MaxSize(groups[1..]);
      assert forall i :: 1 <= i < |groups| ==> groups[i] == groups[1..][i - 1];
      if |groups[0].members| >= rest then |groups[0].members| else rest
  }

  /** `([_, dreams]) => dreams.length === m`. */
  function HasSize(m: nat): Group -> bool
  {
    (g: Group) => |g.members| == m
  }

  /** `topEmotions`: the groups tied at the largest size. Sorting the entries by
      decreasing size is stable, so the tied groups keep first-occurrence order
      and the first of them is `sortedEmotions[0]`. */
  function TopGroups(groups: seq<Group>): (r: seq<Group>)
    ensures groups != [] ==> r != []
    ensures forall g :: g in r <==> g in groups && |g.members| == MaxSize(groups)
    ensures IsSubsequence(r, groups)
  {
    var r := KeepIf(groups, HasSize(MaxSize(groups)));
    KeepIfContents(groups, HasSize(MaxSize(groups)));
    assert groups != [] ==> exists i :: 0 <= i < |groups| && groups[i] in r;
    r
  }

  /** `mainEmotion`: the only largest group, or the one the tie-break draw picks. */
  function MainGroup(groups: seq<Group>, tieDraw: UnitReal): (g: Group)
    requires groups != []
    ensures g in groups && |g.members| == MaxSize(groups)
  {
    var top := TopGroups(groups);
    if |top| > 1 then top[Draw(tieDraw, |top|)] else top[0]
  }

  /** The `keywordSets` table. */
  function KeywordSets(): seq<(string, seq<string>)>
  {
    [ ("fantasy", FantasyKeywords),
      ("anxiety", ["迷雾", "迷宫", "深渊", "迷雾", "风暴", "暗影", "迷雾", "迷雾"]),
      ("joy", ["阳光", "花园", "乐园", "星光", "花海", "云端", "彩虹", "糖果"]),
      ("fear", ["黑暗", "迷宫", "深渊", "荒原", "废墟", "暗影", "深渊", "迷雾"]),
      ("calm", ["湖泊", "月光", "森林", "微风", "竹林", "溪流", "晨雾", "星空"]),
      ("adventure", ["山脉", "海洋", "宝藏", "探险", "峡谷", "荒原", "遗迹", "航船"]),
      ("mystery", ["古堡", "秘境", "时光", "迷雾", "回廊", "镜中", "虚空", "深渊"]),
      ("sadness", ["雨夜", "落叶", "潮汐", "暮色", "孤城", "彼岸", "晚风", "残月"]) ]
  }

  const FantasyKeywords: seq<string> := ["星空", "魔法", "奇境", "幻影", "梦境", "水晶", "彩虹", "翅膀"]

  predicate HasKeywordSet(key: string)
  {
    key in {"fantasy", "anxiety", "joy", "fear", "calm", "adventure", "mystery", "sadness"}
  }

  /** `keywordSets[key] || keywordSets.fantasy`: every set has eight words, and
      a key the table lacks gets the fantasy set. */
  function KeywordSetFor(key: string): (ks: seq<string>)
    ensures |ks| == 8
    ensures !HasKeywordSet(key) ==> ks == FantasyKeywords
    ensures HasKeywordSet(key) ==> (key, ks) in KeywordSets()
  {
    match Lookup(KeywordSets(), key)
    case Some(ks) => ks
    case None => FantasyKeywords
  }

  /** Of the application's four emotions only fantasy has its own keyword set:
      the other three fall back to the fantasy words. */
  lemma AppEmotionsUseFantasyKeywords(key: string)
    requires key in {"happy", "horror", "fantasy", "chaos"}
    ensures KeywordSetFor(key) == FantasyKeywords
  {
    if key == "fantasy" {
      assert Lookup(KeywordSets(), key) == Some(FantasyKeywords);
    }
  }

  function IntroTemplates(k0: string, k1: string): (ts: seq<string>)
    ensures |ts| == 6
  {
    [ "在" + k0 + "与" + k1 + "交织的维度，",
      "当" + k0 + "的光芒穿透" + k1 + "的迷雾，",
      "穿越" + k0 + "的边界，抵达" + k1 + "的核心，",
      "在" + k0 + "的深处，" + k1 + "悄然绽放，",
      k0 + "与" + k1 + "共鸣，开启了一段",
      "从" + k0 + "出发，穿越" + k1 + "的旅程，" ]
  }

  function OutroTemplates(k2: string): (ts: seq<string>)
    ensures |ts| == 6
  {
    [ "最终，一切归于" + k2 + "的宁静。",
      "而在" + k2 + "的尽头，新的故事正在孕育。",
      "这就是" + k2 + "的启示。",
      "留下的，只有" + k2 + "的回响。",
      k2 + "见证了一切。",
      "当" + k2 + "再次升起，轮回继续。" ]
  }

  function TransitionTemplates(kw: seq<string>): (ts: seq<string>)
    requires |kw| == 3
    ensures |ts| == 5
  {
    [ "在" + kw[0] + "的深处，",
      "穿过" + kw[1] + "的迷雾，",
      "当" + kw[0] + "的光芒洒落，",
      "随着" + kw[1] + "的律动，",
      "在" + kw[2] + "的尽头，" ]
  }

  /** `content.substring(0, 100) + (content.length > 100 ? '...' : '')`. */
  function Truncate(s: string): (r: string)
    ensures |s| <= 100 ==> r == s
    ensures |s| > 100 ==> |r| == 103 && r[..100] == s[..100] && r[100..] == "..."
  {
    if |s| > 100 then s[..100] + "..." else s
  }

  datatype StoryPart = StoryPart(
    transition: string,
    content: string,
    emotion: string,
    emotionName: string,
    emotionColor: string,
    emotionIcon: string)

  datatype UniverseStory = UniverseStory(
    title: string,
    emotion: string,
    emotionName: string,
    emotionColor: string,
    emotionIcon: string,
    parts: seq<StoryPart>,
    dreamCount: nat,
    keywords: seq<string>,
    content: string,
    intro: string,
    outro: string,
    seed: int)

  /** The part for one selected dream; its colours come from `emotions[dream.emotion]`,
      the fantasy entry when that key is missing. */
  function MakePart(d: SharedDream, transition: string): (p: StoryPart)
    ensures p.content == Truncate(d.content) && p.emotion == d.emotion && p.transition == transition
  {
    var info := match EmotionOf(d.emotion)
                case Some(e) => e
                case None => FantasyInfo;
    StoryPart(transition, Truncate(d.content), d.emotion, info.name, info.color, info.icon)
  }

  /** The transition of part i: the first of the transition list shuffled with `seed + i`. */
  function TransitionFor(rand: int -> UnitReal, kw: seq<string>, seed: int, now: int, i: nat): (t: string)
    requires |kw| == 3
    ensures t in TransitionTemplates(kw)
  {
    var ts := TransitionTemplates(kw);
    ShuffledMember(rand, ts, seed + i, now, 0);
    Shuffled(rand, ts, seed + i, now)[0]
  }

  /** `selectedDreams.map((dream, index) => ...)`. */
  method BuildParts(selected: seq<SharedDream>, kw: seq<string>, seed: int, now: int, rand: int -> UnitReal)
    returns (parts: seq<StoryPart>)
    requires |kw| == 3
    ensures |parts| == |selected|
    ensures forall i :: 0 <= i < |selected| ==> parts[i] == MakePart(selected[i], TransitionFor(rand, kw, seed, now, i))
  {
    var transitions := TransitionTemplates(kw);
    parts := [];
    var index := 0;
    while index < |selected|
      invariant 0 <= index <= |selected|
      invariant |parts| == index
      invariant forall i :: 0 <= i < index ==> parts[i] == MakePart(selected[i], TransitionFor(rand, kw, seed, now, i))
    {
      var shuffledTransitions := ShuffleArray(transitions, seed + index, now, rand);
      assert shuffledTransitions[0] == TransitionFor(rand, kw, seed, now, index);
      var part := MakePart(selected[index], shuffledTransitions[0]);
      ghost var before := parts;
      parts := parts + [part];
      forall i | 0 <= i < index + 1
        ensures parts[i] == MakePart(selected[i], TransitionFor(rand, kw, seed, now, i))
      {
        if i < index {
          assert parts[i] == before[i];
        }
      }
      index := index + 1;
    }
  }

  function Join(xs: seq<string>, sep: string): string
    decreases |xs|
  {
    if xs == [] then "" else if |xs| == 1 then xs[0] else xs[0] + sep + Join(xs[1..], sep)
  }

  /** `${idx + 1}. ${part.transition}${part.content}` for each part. */
  function NumberedParts(parts: seq<StoryPart>, first: nat): (lines: seq<string>)
    ensures |lines| == |parts|
    decreases |parts|
  {
    if parts == [] then []
    else [NatToString(first) + ". " + parts[0].transition + parts[0].content]
         + NumberedParts(parts[1..], first + 1)
  }

  /** The full story: intro, the numbered parts separated by blank lines, outro. */
  function ComposeStory(intro: string, parts: seq<StoryPart>, outro: string): string
  {
    intro + "\n\n" + Join(NumberedParts(parts, 1), "\n\n") + "\n\n" + outro
  }

  function Min(a: nat, b: nat): nat { if a < b then a else b }

  /** `emotions[key]?.name || '奇幻'` and the colour and icon defaults. */
  function StoryEmotionInfo(key: string): EmotionInfo
  {
    match EmotionOf(key)
    case Some(info) => info
    case None => EmotionInfo("奇幻", "#d83f87", "✨")
  }

  /** What a story woven from one group is: the first min(5, size) dreams of the
      group shuffled with the seed as numbered parts, three keywords from the
      emotion's set shuffled with seed + 1, and the drawn intro and outro. */
  predicate WovenFrom(key: string, info: EmotionInfo, ks: seq<string>, members: seq<SharedDream>,
                      seed: int, now: int, rand: int -> UnitReal,
                      introDraw: UnitReal, outroDraw: UnitReal, st: UniverseStory)
  {
    var shuffled := Shuffled(rand, members, seed, now);
    && st.emotion == key
    && st.seed == seed
    && |shuffled| == |members|
    && st.dreamCount == |st.parts| == Min(5, |members|)
    && |st.keywords| == 3
    && st.keywords <= Shuffled(rand, ks, seed + 1, now)
    && (forall i :: 0 <= i < |st.parts| ==>
          st.parts[i] == MakePart(shuffled[i], TransitionFor(rand, st.keywords, seed, now, i)))
    && st.intro == IntroTemplates(st.keywords[0], st.keywords[1])[Draw(introDraw, 6)]
    && st.outro == OutroTemplates(st.keywords[2])[Draw(outroDraw, 6)]
    && st.content == ComposeStory(st.intro, st.parts, st.outro)
    && st.emotionName == info.name && st.emotionColor == info.color && st.emotionIcon == info.icon
    && st.title == st.emotionName + "梦境宇宙：" + Join(st.keywords, "·")
  }

  /** What a story woven from the pool is: one woven from the group of an emotion
      that occurs in the pool and whose group is as large as any. */
  predicate IsStoryOf(pool: seq<SharedDream>, storySeed: int, now: int, rand: int -> UnitReal,
                      introDraw: UnitReal, outroDraw: UnitReal, st: UniverseStory)
  {
    var group := WithKey(pool, st.emotion);
    && (exists d :: d in pool && GroupKey(d) == st.emotion)
    && (forall d :: d in pool ==> |WithKey(pool, GroupKey(d))| <= |group|)
    && WovenFrom(st.emotion, StoryEmotionInfo(st.emotion), KeywordSetFor(st.emotion), group,
                 EffectiveSeed(storySeed, now), now, rand, introDraw, outroDraw, st)
  }

  /** In a story woven from a group every part is a dream of the group, no dream is
      used more often than it occurs there, and every transition comes from the
      transition templates. */
  lemma WovenPartsFromGroup(key: string, info: EmotionInfo, ks: seq<string>, members: seq<SharedDream>,
                            seed: int, now: int, rand: int -> UnitReal,
                            introDraw: UnitReal, outroDraw: UnitReal, st: UniverseStory)
    requires WovenFrom(key, info, ks, members, seed, now, rand, introDraw, outroDraw, st)
    ensures var selected := Shuffled(rand, members, seed, now)[..|st.parts|];
            && multiset(selected) <= multiset(members)
            && (forall i :: 0 <= i < |st.parts| ==>
                  selected[i] in members &&
                  st.parts[i].content == Truncate(selected[i].content) &&
                  st.parts[i].emotion == selected[i].emotion &&
                  st.parts[i].transition in TransitionTemplates(st.keywords))
  {
    var shuffled := Shuffled(rand, members, seed, now);
    var selected := shuffled[..|st.parts|];
    ShufflePrefixDrawn(rand, members, seed, now, selected);
    forall i | 0 <= i < |st.parts|
      ensures selected[i] in members
      ensures st.parts[i].content == Truncate(selected[i].content)
      ensures st.parts[i].emotion == selected[i].emotion
      ensures st.parts[i].transition in TransitionTemplates(st.keywords)
    {
      assert st.parts[i] == MakePart(shuffled[i], TransitionFor(rand, st.keywords, seed, now, i));
    }
  }

  /** The three keywords of a woven story are distinct positions of the emotion's
      keyword set, so each is one of its words. */
  lemma WovenKeywordsFromSet(key: string, info: EmotionInfo, ks: seq<string>, members: seq<SharedDream>,
                             seed: int, now: int, rand: int -> UnitReal,
                             introDraw: UnitReal, outroDraw: UnitReal, st: UniverseStory)
    requires WovenFrom(key, info, ks, members, seed, now, rand, introDraw, outroDraw, st)
    ensures multiset(st.keywords) <= multiset(ks)
    ensures forall k :: k in st.keywords ==> k in ks
  {
    ShufflePrefixDrawn(rand, ks, seed + 1, now, st.keywords);
  }

  /** The three keywords of a woven story are words of the story emotion's set
      (the fantasy set when the table has no entry for it), none used more often
      than the set holds it. */
  lemma StoryKeywordsFromSet(pool: seq<SharedDream>, storySeed: int, now: int, rand: int -> UnitReal,
                             introDraw: UnitReal, outroDraw: UnitReal, st: UniverseStory)
    requires IsStoryOf(pool, storySeed, now, rand, introDraw, outroDraw, st)
    ensures |st.keywords| == 3
    ensures multiset(st.keywords) <= multiset(KeywordSetFor(st.emotion))
    ensures forall k :: k in st.keywords ==> k in KeywordSetFor(st.emotion)
  {
    WovenKeywordsFromSet(st.emotion, StoryEmotionInfo(st.emotion), KeywordSetFor(st.emotion),
                         WithKey(pool, st.emotion), EffectiveSeed(storySeed, now), now, rand,
                         introDraw, outroDraw, st);
  }

  /** Every part of a story woven from the pool is one of the pool's dreams with
      the story's emotion. */
  lemma StoryPartsFromPool(pool: seq<SharedDream>, storySeed: int, now: int, rand: int -> UnitReal,
                           introDraw: UnitReal, outroDraw: UnitReal, st: UniverseStory)
    requires IsStoryOf(pool, storySeed, now, rand, introDraw, outroDraw, st)
    ensures forall i :: 0 <= i < |st.parts| ==>
              exists d :: d in pool && GroupKey(d) == st.emotion &&
                          st.parts[i].content == Truncate(d.content) && st.parts[i].emotion == d.emotion
  {
    WovenPartsFromPool(pool, st.emotion, StoryEmotionInfo(st.emotion), KeywordSetFor(st.emotion),
                       EffectiveSeed(storySeed, now), now, rand, introDraw, outroDraw, st);
  }

  lemma WovenPartsFromPool(pool: seq<SharedDream>, key: string, info: EmotionInfo, ks: seq<string>,
                           seed: int, now: int, rand: int -> UnitReal,
                           introDraw: UnitReal, outroDraw: UnitReal, st: UniverseStory)
    requires WovenFrom(key, info, ks, WithKey(pool, key), seed, now, rand, introDraw, outroDraw, st)
    ensures forall i :: 0 <= i < |st.parts| ==>
              exists d :: d in pool && GroupKey(d) == key &&
                          st.parts[i].content == Truncate(d.content) && st.parts[i].emotion == d.emotion
  {
    var group := WithKey(pool, key);
    WovenPartsFromGroup(key, info, ks, group, seed, now, rand, introDraw, outroDraw, st);
    var selected := Shuffled(rand, group, seed, now)[..|st.parts|];
    forall i | 0 <= i < |st.parts|
      ensures exists d :: d in pool && GroupKey(d) == key &&
                          st.parts[i].content == Truncate(d.content) && st.parts[i].emotion == d.emotion
    {
      var d := selected[i];
      WithKeyMembers(pool, key, d);
      assert d in pool && GroupKey(d) == key;
    }
  }

  /** The group picked from the pool: a largest one, holding exactly the dreams of
      its key, and not empty. */
  lemma MainGroupFacts(pool: seq<SharedDream>, tieDraw: UnitReal)
    requires pool != []
    ensures GroupsOf(pool) != []
    ensures var g := MainGroup(GroupsOf(pool), tieDraw);
            && g.members == WithKey(pool, g.key)
            && g.members != [] && g.members[0] in pool && GroupKey(g.members[0]) == g.key
            && forall d :: d in pool ==> |WithKey(pool, GroupKey(d))| <= |g.members|
  {
    var groups := GroupsOf(pool);
    GroupsOfDescribes(pool);
    assert pool[0] in pool;
    var g := MainGroup(groups, tieDraw);
    var j :| 0 <= j < |groups| && groups[j] == g;
    WithKeyMembers(pool, g.key, g.members[0]);
    forall d | d in pool ensures |WithKey(pool, GroupKey(d))| <= |g.members| {
      var i :| 0 <= i < |groups| && groups[i].key == GroupKey(d);
    }
  }

  /** The story built once the main emotion is chosen. */
  method WeaveGroup(key: string, info: EmotionInfo, keywords: seq<string>, members: seq<SharedDream>,
                    seed: int, now: int, rand: int -> UnitReal,
                    introDraw: UnitReal, outroDraw: UnitReal)
    returns (st: UniverseStory)
    requires |keywords| >= 3
    ensures WovenFrom(key, info, keywords, members, seed, now, rand, introDraw, outroDraw, st)
  {
    var shuffledDreams := ShuffleArray(members, seed, now, rand);
    var selectedDreams := shuffledDreams[..Min(5, |shuffledDreams|)];

    var emotionName, emotionColor, emotionIcon := info.name, info.color, info.icon;

    var shuffledKeywords := ShuffleArray(keywords, seed + 1, now, rand);
    var selectedKeywords := shuffledKeywords[..3];

    var storyIntro := IntroTemplates(selectedKeywords[0], selectedKeywords[1])[Draw(introDraw, 6)];
    var storyOutro := OutroTemplates(selectedKeywords[2])[Draw(outroDraw, 6)];

    var storyParts := BuildParts(selectedDreams, selectedKeywords, seed, now, rand);
    var fullStory := ComposeStory(storyIntro, storyParts, storyOutro);
    st := UniverseStory(
      emotionName + "梦境宇宙：" + Join(selectedKeywords, "·"),
      key, emotionName, emotionColor, emotionIcon,
      storyParts, |selectedDreams|, selectedKeywords,
      fullStory, storyIntro, storyOutro, seed);
  }

  /** `generateDreamUniverseStory()` with the pool, the stored seed, the clock,
      the generator and the three `rng()` draws as parameters. */
  method GenerateDreamUniverseStory(
    sharedDreams: seq<SharedDream>, storySeed: int, now: int, rand: int -> UnitReal,
    tieDraw: UnitReal, introDraw: UnitReal, outroDraw: UnitReal)
    returns (r: Option<UniverseStory>)
    ensures r.None? <==>
              |sharedDreams| < 3 ||
              forall d :: d in sharedDreams ==> |WithKey(sharedDreams, GroupKey(d))| < 2
    ensures r.Some? ==> IsStoryOf(sharedDreams, storySeed, now, rand, introDraw, outroDraw, r.value)
  {
    var allDreams := sharedDreams;
    if |allDreams| < 3 {
      return None;
    }
    var seed := EffectiveSeed(storySeed, now);

    var emotionGroups := GroupByEmotion(allDreams);
    MainGroupFacts(allDreams, tieDraw);
    var mainEmotion := MainGroup(emotionGroups, tieDraw);
    if |mainEmotion.members| < 2 {
      return None;
    }
    var story := WeaveGroup(mainEmotion.key, StoryEmotionInfo(mainEmotion.key), KeywordSetFor(mainEmotion.key),
                            mainEmotion.members, seed, now, rand, introDraw, outroDraw);
    assert mainEmotion.members[0] in allDreams;
    r := Some(story);
  }
}

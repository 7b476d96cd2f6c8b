/**
 * The application's mutable state: the journal and the shared pool kept in
 * `appState`, the saved analyses behind `savedAnalysesManager`, and the saved
 * universe stories. Each persisted list is a field that the operations
 * reassign; writing it back to `localStorage` is not modelled.
 */
module Store {
  import opened Common
  import opened Entities
  import opened Shuffle
  import opened Analyzer
  import opened Weaver

  // ---------------------------------------------------------------------------
  // `Array.prototype.find` on the stored lists (`filter` is `Common.KeepIf`).

  /** `xs.findIndex(p)`: the first position that passes, if any. */
  function FirstWhere<T>(xs: seq<T>, p: T -> bool): (r: Option<nat>)
    ensures r.None? <==> forall i :: 0 <= i < |xs| ==> !p(xs[i])
    ensures r.Some? ==> r.value < |xs| && p(xs[r.value]) && forall i :: 0 <= i < r.value ==> !p(xs[i])
    decreases |xs|
  {
    if xs == [] then None
    else if p(xs[0]) then Some(0)
    else
      var r := FirstWhere(xs[1..], p);
      assert forall i :: 1 <= i < |xs| ==> xs[i] == xs[1..][i - 1];
      match r
      case None => None
      case Some(i) => Some(i + 1)
  }

  // ---------------------------------------------------------------------------
  // Journal entries.

  /** `parseFloat(input) || 0` clamped to [0, 24]; `None` stands for an input
      that does not parse (NaN). */
  function ClampDuration(input: Option<real>): (d: real)
    ensures 0.0 <= d <= 24.0
    ensures input.Some? && 0.0 <= input.value <= 24.0 ==> d == input.value
    ensures input.None? || input.value < 0.0 ==> d == 0.0
    ensures input.Some? && input.value > 24.0 ==> d == 24.0
  {
    match input
    case None => 0.0
    case Some(v) => if v < 0.0 then 0.0 else if v > 24.0 then 24.0 else v
  }

  /** A saved duration read back in is saved unchanged. */
  lemma ClampDurationIdempotent(input: Option<real>)
    ensures ClampDuration(Some(ClampDuration(input))) == ClampDuration(input)
  {
  }

  /** `d => d.id !== dreamId`: strict comparison, so a stored number never
      equals the string argument. */
  function WithoutId(dreams: seq<Dream>, dreamId: string): seq<Dream>
  {
    KeepIf(dreams, (d: Dream) => d.id != StrId(dreamId))
  }

  /** `d => String(d.id) !== String(dreamId)`. */
  function WithoutIdText(dreams: seq<Dream>, dreamId: string): seq<Dream>
  {
    KeepIf(dreams, (d: Dream) => IdText(d.id) != dreamId)
  }

  /** Deleting removes exactly the dreams with that id and keeps every copy of the
      others, in order; deleting again changes nothing. */
  lemma DeleteRemovesExactly(dreams: seq<Dream>, dreamId: string)
    ensures forall d :: d in WithoutId(dreams, dreamId) <==> d in dreams && d.id != StrId(dreamId)
    ensures forall d :: d in WithoutIdText(dreams, dreamId) <==> d in dreams && IdText(d.id) != dreamId
    ensures forall d :: multiset(WithoutId(dreams, dreamId))[d] ==
              if d.id != StrId(dreamId) then multiset(dreams)[d] else 0
    ensures forall d :: multiset(WithoutIdText(dreams, dreamId))[d] ==
              if IdText(d.id) != dreamId then multiset(dreams)[d] else 0
    ensures IsSubsequence(WithoutId(dreams, dreamId), dreams)
    ensures IsSubsequence(WithoutIdText(dreams, dreamId), dreams)
    ensures WithoutId(WithoutId(dreams, dreamId), dreamId) == WithoutId(dreams, dreamId)
    ensures WithoutIdText(WithoutIdText(dreams, dreamId), dreamId) == WithoutIdText(dreams, dreamId)
  {
    StrictDeleteFacts(dreams, dreamId);
    TextDeleteFacts(dreams, dreamId);
  }

  lemma StrictDeleteFacts(dreams: seq<Dream>, dreamId: string)
    ensures forall d :: d in WithoutId(dreams, dreamId) <==> d in dreams && d.id != StrId(dreamId)
    ensures forall d :: multiset(WithoutId(dreams, dreamId))[d] ==
              if d.id != StrId(dreamId) then multiset(dreams)[d] else 0
    ensures IsSubsequence(WithoutId(dreams, dreamId), dreams)
    ensures WithoutId(WithoutId(dreams, dreamId), dreamId) == WithoutId(dreams, dreamId)
  {
    var keep := (d: Dream) => d.id != StrId(dreamId);
    assert WithoutId(dreams, dreamId) == KeepIf(dreams, keep);
    KeepIfContents(dreams, keep);
    KeepIfIdempotent(dreams, keep);
  }

  lemma TextDeleteFacts(dreams: seq<Dream>, dreamId: string)
    ensures forall d :: d in WithoutIdText(dreams, dreamId) <==> d in dreams && IdText(d.id) != dreamId
    ensures forall d :: multiset(WithoutIdText(dreams, dreamId))[d] ==
              if IdText(d.id) != dreamId then multiset(dreams)[d] else 0
    ensures IsSubsequence(WithoutIdText(dreams, dreamId), dreams)
    ensures WithoutIdText(WithoutIdText(dreams, dreamId), dreamId) == WithoutIdText(dreams, dreamId)
  {
    var keep := (d: Dream) => IdText(d.id) != dreamId;
    assert WithoutIdText(dreams, dreamId) == KeepIf(dreams, keep);
    KeepIfContents(dreams, keep);
    KeepIfIdempotent(dreams, keep);
  }

  /** The two delete paths agree on a journal whose ids are all strings. */
  lemma {:induction false} DeletePathsAgreeOnStringIds(dreams: seq<Dream>, dreamId: string)
    requires forall i :: 0 <= i < |dreams| ==> dreams[i].id.StrId?
    ensures WithoutId(dreams, dreamId) == WithoutIdText(dreams, dreamId)
    decreases |dreams|
  {
    if dreams != [] {
      DeletePathsAgreeOnStringIds(dreams[..|dreams| - 1], dreamId);
    }
  }

  /** A dream stored with the number 5 as its id is kept by the detail view's
      delete (strict comparison with "5") and removed by the list's delete. */
  lemma DeletePathsDifferOnNumericIds(d: Dream)
    requires d.id == NumId(5)
    ensures WithoutId([d], "5") == [d]
    ensures WithoutIdText([d], "5") == []
  {
    assert [d][..0] == [];
    assert IdText(d.id) == "5";
  }

  /** `appState.dreams.find(d => d.id === dreamId)`, as a position. */
  function FindDream(dreams: seq<Dream>, dreamId: string): (r: Option<nat>)
    ensures r.None? <==> forall i :: 0 <= i < |dreams| ==> dreams[i].id != StrId(dreamId)
    ensures r.Some? ==> r.value < |dreams| && dreams[r.value].id == StrId(dreamId)
                        && forall i :: 0 <= i < r.value ==> dreams[i].id != StrId(dreamId)
  {
    FirstWhere(dreams, (d: Dream) => d.id == StrId(dreamId))
  }

  /** `dream.realityCheck` after `cameTrue` and `updatedAt` are set, creating an empty
      one first when the dream has none. */
  function WithCameTrue(d: Dream, cameTrue: bool, today: string): (e: Dream)
    ensures e.realityCheck.Some? && e.realityCheck.value.cameTrue == Some(cameTrue)
    ensures e.realityCheck.value.updatedAt == today
    ensures e.realityCheck.value.note == (if d.realityCheck.Some? then d.realityCheck.value.note else None)
    ensures e.(realityCheck := d.realityCheck) == d
  {
    var rc := match d.realityCheck
              case None => RealityCheck(None, None, today)
              case Some(rc) => rc;
    d.(realityCheck := Some(rc.(cameTrue := Some(cameTrue), updatedAt := today)))
  }

  /** `dream.realityCheck` after `note` and `updatedAt` are set. */
  function WithNote(d: Dream, note: string, today: string): (e: Dream)
    ensures e.realityCheck.Some? && e.realityCheck.value.note == Some(note)
    ensures e.realityCheck.value.updatedAt == today
    ensures e.realityCheck.value.cameTrue == (if d.realityCheck.Some? then d.realityCheck.value.cameTrue else None)
    ensures e.(realityCheck := d.realityCheck) == d
  {
    var rc := match d.realityCheck
              case None => RealityCheck(None, None, today)
              case Some(rc) => rc;
    d.(realityCheck := Some(rc.(note := Some(note), updatedAt := today)))
  }

  /** The journal after `updateRealityCheck(dreamId, cameTrue)`. */
  function MarkCameTrue(dreams: seq<Dream>, dreamId: string, cameTrue: bool, today: string): seq<Dream>
  {
    match FindDream(dreams, dreamId)
    case None => dreams
    case Some(i) => dreams[i := WithCameTrue(dreams[i], cameTrue, today)]
  }

  /** The journal after `saveRealityNote(dreamId)` with the note typed in. */
  function AttachNote(dreams: seq<Dream>, dreamId: string, note: string, today: string): seq<Dream>
  {
    match FindDream(dreams, dreamId)
    case None => dreams
    case Some(i) => dreams[i := WithNote(dreams[i], note, today)]
  }

  /** Updating the reality check touches only the first dream with the id: every
      other dream is unchanged, that one gets the new outcome and keeps its note,
      and an unknown id changes nothing. */
  lemma MarkCameTrueEffect(dreams: seq<Dream>, dreamId: string, cameTrue: bool, today: string)
    ensures |MarkCameTrue(dreams, dreamId, cameTrue, today)| == |dreams|
    ensures (forall i :: 0 <= i < |dreams| ==> dreams[i].id != StrId(dreamId)) ==>
              MarkCameTrue(dreams, dreamId, cameTrue, today) == dreams
    ensures forall i :: 0 <= i < |dreams| && FindDream(dreams, dreamId) != Some(i) ==>
              MarkCameTrue(dreams, dreamId, cameTrue, today)[i] == dreams[i]
    ensures FindDream(dreams, dreamId).Some? ==>
              var i := FindDream(dreams, dreamId).value;
              var e := MarkCameTrue(dreams, dreamId, cameTrue, today)[i];
              && e.realityCheck.Some? && e.realityCheck.value.cameTrue == Some(cameTrue)
              && e.realityCheck.value.note == (if dreams[i].realityCheck.Some? then dreams[i].realityCheck.value.note else None)
              && e.(realityCheck := dreams[i].realityCheck) == dreams[i]
  {
  }

  /** Saving a note touches only the first dream with the id, keeps its outcome,
      and an unknown id changes nothing. */
  lemma AttachNoteEffect(dreams: seq<Dream>, dreamId: string, note: string, today: string)
    ensures |AttachNote(dreams, dreamId, note, today)| == |dreams|
    ensures (forall i :: 0 <= i < |dreams| ==> dreams[i].id != StrId(dreamId)) ==>
              AttachNote(dreams, dreamId, note, today) == dreams
    ensures forall i :: 0 <= i < |dreams| && FindDream(dreams, dreamId) != Some(i) ==>
              AttachNote(dreams, dreamId, note, today)[i] == dreams[i]
    ensures FindDream(dreams, dreamId).Some? ==>
              var i := FindDream(dreams, dreamId).value;
              var e := AttachNote(dreams, dreamId, note, today)[i];
              && e.realityCheck.Some? && e.realityCheck.value.note == Some(note)
              && e.realityCheck.value.cameTrue == (if dreams[i].realityCheck.Some? then dreams[i].realityCheck.value.cameTrue else None)
              && e.(realityCheck := dreams[i].realityCheck) == dreams[i]
  {
  }

  /** The application state: the journal, the shared pool and the emotion and
      clarity currently selected in the forms ("" when no emotion is selected). */
  class AppState {
    var dreams: seq<Dream>
    var sharedDreams: seq<SharedDream>
    var currentEmotion: string
    var clarityRating: int

    /** The state as loaded from storage, with nothing selected. */
    constructor (dreams: seq<Dream>, sharedDreams: seq<SharedDream>)
      ensures this.dreams == dreams && this.sharedDreams == sharedDreams
      ensures currentEmotion == "" && clarityRating == 0
    {
      this.dreams := dreams;
      this.sharedDreams := sharedDreams;
      currentEmotion := "";
      clarityRating := 0;
    }

    /** `saveDream()`: refused when no emotion is selected; otherwise appends the
        entry (id and creation time from the clock, duration clamped to [0, 24])
        and clears the selected emotion and rating. */
    method SaveDream(title: string, date: string, content: string, isRecurring: bool,
                     durationInput: Option<real>, now: nat) returns (saved: bool)
      modifies this
      ensures saved <==> old(currentEmotion) != ""
      ensures !saved ==> dreams == old(dreams) && currentEmotion == old(currentEmotion)
                         && clarityRating == old(clarityRating)
      ensures saved ==>
        && dreams == old(dreams) + [Dream(StrId(NatToString(now)), title, date, content, old(currentEmotion),
                                          old(clarityRating), isRecurring, ClampDuration(durationInput), now, None)]
        && currentEmotion == "" && clarityRating == 0
      ensures sharedDreams == old(sharedDreams)
    {
      var duration := ClampDuration(durationInput);
      if currentEmotion == "" {
        return false;
      }
      var dream := Dream(StrId(NatToString(now)), title, date, content, currentEmotion,
                         clarityRating, isRecurring, duration, now, None);
      dreams := dreams + [dream];
      currentEmotion := "";
      clarityRating := 0;
      saved := true;
    }

    /** `deleteDream(dreamId)` from the detail view, once confirmed. */
    method DeleteDream(dreamId: string, confirmed: bool)
      modifies this
      ensures dreams == (if confirmed then WithoutId(old(dreams), dreamId) else old(dreams))
      ensures sharedDreams == old(sharedDreams) && currentEmotion == old(currentEmotion)
      ensures clarityRating == old(clarityRating)
    {
      if !confirmed {
        return;
      }
      dreams := WithoutId(dreams, dreamId);
    }

    /** `deleteDreamFromList(dreamId)`, comparing ids as strings, once confirmed. */
    method DeleteDreamFromList(dreamId: string, confirmed: bool)
      modifies this
      ensures dreams == (if confirmed then WithoutIdText(old(dreams), dreamId) else old(dreams))
      ensures sharedDreams == old(sharedDreams) && currentEmotion == old(currentEmotion)
      ensures clarityRating == old(clarityRating)
    {
      if !confirmed {
        return;
      }
      dreams := WithoutIdText(dreams, dreamId);
    }

    /** `updateRealityCheck(dreamId, cameTrue)`; `today` is the ISO date. */
    method UpdateRealityCheck(dreamId: string, cameTrue: bool, today: string)
      modifies this
      ensures dreams == MarkCameTrue(old(dreams), dreamId, cameTrue, today)
      ensures sharedDreams == old(sharedDreams) && currentEmotion == old(currentEmotion)
      ensures clarityRating == old(clarityRating)
    {
      var found := FindDream(dreams, dreamId);
      if found.None? {
        return;
      }
      var i := found.value;
      var dream := dreams[i];
      var rc := if dream.realityCheck.None? then RealityCheck(None, None, today) else dream.realityCheck.value;
      rc := rc.(cameTrue := Some(cameTrue));
      rc := rc.(updatedAt := today);
      dreams := dreams[i := dream.(realityCheck := Some(rc))];
    }

    /** `saveRealityNote(dreamId)` with the text of the note field. */
    method SaveRealityNote(dreamId: string, note: string, today: string)
      modifies this
      ensures dreams == AttachNote(old(dreams), dreamId, note, today)
      ensures sharedDreams == old(sharedDreams) && currentEmotion == old(currentEmotion)
      ensures clarityRating == old(clarityRating)
    {
      var found := FindDream(dreams, dreamId);
      if found.None? {
        return;
      }
      var i := found.value;
      var dream := dreams[i];
      var rc := if dream.realityCheck.None? then RealityCheck(None, None, today) else dream.realityCheck.value;
      rc := rc.(note := Some(note));
      rc := rc.(updatedAt := today);
      dreams := dreams[i := dream.(realityCheck := Some(rc))];
    }

    /** `shareDream()`: blank text is refused; otherwise the entry is appended to the
        pool with the selected emotion, or fantasy when none is selected. */
    method ShareDream(content: string, isAnonymous: bool, now: nat) returns (shared: bool)
      modifies this
      ensures shared <==> !IsBlank(content)
      ensures sharedDreams == (if shared then
                 old(sharedDreams) + [SharedDream(NatToString(now), content, isAnonymous,
                                                  if old(currentEmotion) != "" then old(currentEmotion) else "fantasy",
                                                  now)]
               else old(sharedDreams))
      ensures dreams == old(dreams) && currentEmotion == old(currentEmotion)
      ensures clarityRating == old(clarityRating)
    {
      if IsBlank(content) {
        return false;
      }
      var emotion := if currentEmotion != "" then currentEmotion else "fantasy";
      var dream := SharedDream(NatToString(now), content, isAnonymous, emotion, now);
      sharedDreams := sharedDreams + [dream];
      shared := true;
    }
  }

  // ---------------------------------------------------------------------------
  // `savedAnalysesManager`.

  /** `{ id, ...analysis, savedAt }`. */
  datatype SavedAnalysis = SavedAnalysis(id: string, record: AnalysisRecord, savedAt: string)

  /** `getAll().filter(a => a.id !== id)`. */
  function WithoutAnalysis(saved: seq<SavedAnalysis>, id: string): seq<SavedAnalysis>
  {
    KeepIf(saved, (a: SavedAnalysis) => a.id != id)
  }

  /** `getAll().find(a => a.id === id)`. */
  function FindAnalysis(saved: seq<SavedAnalysis>, id: string): (r: Option<SavedAnalysis>)
    ensures r.None? <==> forall i :: 0 <= i < |saved| ==> saved[i].id != id
    ensures r.Some? ==> r.value.id == id
    ensures r.Some? ==> exists i :: 0 <= i < |saved| && saved[i] == r.value &&
                                    forall j :: 0 <= j < i ==> saved[j].id != id
  {
    match FirstWhere(saved, (a: SavedAnalysis) => a.id == id)
    case None => None
    case Some(i) => Some(saved[i])
  }

  /** Reading back just after saving finds the saved entry, whatever was stored before. */
  lemma SaveThenFind(saved: seq<SavedAnalysis>, a: SavedAnalysis)
    ensures FindAnalysis([a] + saved, a.id) == Some(a)
  {
    assert ([a] + saved)[0] == a;
  }

  /** After deleting an id nothing with that id is found, and every other entry is kept. */
  lemma DeleteThenFind(saved: seq<SavedAnalysis>, id: string)
    ensures FindAnalysis(WithoutAnalysis(saved, id), id).None?
    ensures forall a :: a in WithoutAnalysis(saved, id) <==> a in saved && a.id != id
    ensures forall a :: multiset(WithoutAnalysis(saved, id))[a] == if a.id != id then multiset(saved)[a] else 0
    ensures IsSubsequence(WithoutAnalysis(saved, id), saved)
  {
    KeepIfContents(saved, (a: SavedAnalysis) => a.id != id);
    var r := WithoutAnalysis(saved, id);
    forall i | 0 <= i < |r| ensures r[i].id != id {
      assert r[i] in r;
    }
  }

  /** The list kept under the key `savedAnalyses`, newest first. */
  class SavedAnalyses {
    var saved: seq<SavedAnalysis>

    constructor (saved: seq<SavedAnalysis>)
      ensures this.saved == saved
    {
      this.saved := saved;
    }

    /** `save(analysis)`: puts the entry first and returns its clock-based id. */
    method Save(record: AnalysisRecord, now: nat, savedAt: string) returns (id: string)
      modifies this
      ensures id == NatToString(now)
      ensures saved == [SavedAnalysis(id, record, savedAt)] + old(saved)
    {
      id := NatToString(now);
      saved := [SavedAnalysis(id, record, savedAt)] + saved;
    }

    /** `delete(id)`. */
    method Delete(id: string)
      modifies this
      ensures saved == WithoutAnalysis(old(saved), id)
    {
      saved := WithoutAnalysis(saved, id);
    }

    /** `getById(id)`: the first saved entry with that id, or nothing. */
    function GetById(id: string): (r: Option<SavedAnalysis>)
      reads this
      ensures r.None? <==> forall i :: 0 <= i < |saved| ==> saved[i].id != id
      ensures r.Some? ==> exists k :: 0 <= k < |saved| && saved[k] == r.value && saved[k].id == id &&
                                      forall j :: 0 <= j < k ==> saved[j].id != id
    {
      FindAnalysis(saved, id)
    }
  }

  // ---------------------------------------------------------------------------
  // Saved universe stories.

  /** The stored copy of a woven story: its id and save time with every field of
      the story. */
  datatype SavedStory = SavedStory(id: string, story: UniverseStory, savedAt: string)

  /** `savedStories.some(s => s.seed === seed)`. */
  predicate HasSeed(stories: seq<SavedStory>, seed: int)
  {
    exists i :: 0 <= i < |stories| && stories[i].story.seed == seed
  }

  /** No two saved stories share a seed. */
  predicate SeedsDistinct(stories: seq<SavedStory>)
  {
    forall i, j :: 0 <= i < j < |stories| ==> stories[i].story.seed != stories[j].story.seed
  }

  /** `savedStories.filter(s => s.id !== storyId)`. */
  function WithoutStory(stories: seq<SavedStory>, storyId: string): seq<SavedStory>
  {
    KeepIf(stories, (s: SavedStory) => s.id != storyId)
  }

  /** Appending a story whose seed is not yet saved keeps the seeds distinct. */
  lemma AppendKeepsSeedsDistinct(stories: seq<SavedStory>, s: SavedStory)
    requires SeedsDistinct(stories) && !HasSeed(stories, s.story.seed)
    ensures SeedsDistinct(stories + [s])
  {
  }

  /** Deleting keeps the seeds distinct, since the survivors keep their order. */
  lemma {:induction false} DeleteKeepsSeedsDistinct(stories: seq<SavedStory>, keep: SavedStory -> bool)
    requires SeedsDistinct(stories)
    ensures SeedsDistinct(KeepIf(stories, keep))
    decreases |stories|
  {
    if stories != [] {
      var p := stories[..|stories| - 1];
      var last := stories[|stories| - 1];
      assert SeedsDistinct(p);
      DeleteKeepsSeedsDistinct(p, keep);
      if keep(last) {
        KeepIfContents(p, keep);
        var r := KeepIf(p, keep);
        forall i | 0 <= i < |r| ensures r[i].story.seed != last.story.seed {
          assert r[i] in p;
          var j :| 0 <= j < |p| && p[j] == r[i];
          assert stories[j] == p[j];
        }
        assert !HasSeed(r, last.story.seed);
        AppendKeepsSeedsDistinct(r, last);
      }
    }
  }

  datatype SaveOutcome = NoStory | Duplicate | Saved

  /** The list kept under the key `savedUniverseStories`, oldest first. */
  class SavedStories {
    var stories: seq<SavedStory>

    constructor (stories: seq<SavedStory>)
      ensures this.stories == stories
    {
      this.stories := stories;
    }

    /** `saveUniverseStory()`: weaves the story for the pool (same parameters as the
        weaver), then refuses when there is none or when a saved story has its
        seed, and otherwise appends a copy with a clock-based id. */
    method SaveUniverseStory(pool: seq<SharedDream>, storySeed: int, now: nat, rand: int -> UnitReal,
                             tieDraw: UnitReal, introDraw: UnitReal, outroDraw: UnitReal, savedAt: string)
      returns (story: Option<UniverseStory>, outcome: SaveOutcome)
      modifies this
      ensures story.None? <==> |pool| < 3 || forall d :: d in pool ==> |WithKey(pool, GroupKey(d))| < 2
      ensures story.Some? ==> IsStoryOf(pool, storySeed, now, rand, introDraw, outroDraw, story.value)
      ensures outcome == NoStory <==> story.None?
      ensures story.Some? ==> (outcome == Duplicate <==> HasSeed(old(stories), story.value.seed))
      ensures stories == (if outcome == Saved then old(stories) + [SavedStory(NatToString(now), story.value, savedAt)]
                          else old(stories))
      ensures SeedsDistinct(old(stories)) ==> SeedsDistinct(stories)
    {
      story := GenerateDreamUniverseStory(pool, storySeed, now, rand, tieDraw, introDraw, outroDraw);
      if story.None? {
        return story, NoStory;
      }
      var universeStory := story.value;
      var isDuplicate := exists i | 0 <= i < |stories| :: stories[i].story.seed == universeStory.seed;
      if isDuplicate {
        return story, Duplicate;
      }
      var storyToSave := SavedStory(NatToString(now), universeStory, savedAt);
      if SeedsDistinct(stories) {
        AppendKeepsSeedsDistinct(stories, storyToSave);
      }
      stories := stories + [storyToSave];
      outcome := Saved;
    }

    /** `deleteSavedStory(storyId)`, once confirmed. */
    method DeleteSavedStory(storyId: string, confirmed: bool)
      modifies this
      ensures stories == (if confirmed then WithoutStory(old(stories), storyId) else old(stories))
      ensures SeedsDistinct(old(stories)) ==> SeedsDistinct(stories)
    {
      if !confirmed {
        return;
      }
      if SeedsDistinct(stories) {
        DeleteKeepsSeedsDistinct(stories, (s: SavedStory) => s.id != storyId);
      }
      stories := WithoutStory(stories, storyId);
    }
  }

  /** Deleting a story removes exactly the entries with that id. */
  lemma DeleteStoryRemovesExactly(stories: seq<SavedStory>, storyId: string)
    ensures forall s :: s in WithoutStory(stories, storyId) <==> s in stories && s.id != storyId
    ensures forall s :: multiset(WithoutStory(stories, storyId))[s] ==
              if s.id != storyId then multiset(stories)[s] else 0
    ensures IsSubsequence(WithoutStory(stories, storyId), stories)
  {
    KeepIfContents(stories, (s: SavedStory) => s.id != storyId);
  }
}

/**
 * The records the application keeps in its collections, and the emotion
 * configuration table (`emotions`) that names and colours the four emotions.
 */
module Entities {
  import opened Common

  /** A dream id as found in storage: normally the string form of a
      timestamp, but a stored record may carry a number. */
  datatype DreamId = StrId(s: string) | NumId(n: nat)

  /** `String(id)`. */
  function IdText(id: DreamId): string
  {
    match id
    case StrId(s) => s
    case NumId(n) => NatToString(n)
  }

  /** The `realityCheck` object of a dream: each field is absent until first set. */
  datatype RealityCheck = RealityCheck(cameTrue: Option<bool>, note: Option<string>, updatedAt: string)

  /** A journal entry. `emotion` is the selected emotion key; `clarity` the star rating. */
  datatype Dream = Dream(
    id: DreamId,
    title: string,
    date: string,
    content: string,
    emotion: string,
    clarity: int,
    isRecurring: bool,
    duration: real,
    createdAt: int,
    realityCheck: Option<RealityCheck>)

  /** An entry of the shared pool. An absent emotion is the empty string. */
  datatype SharedDream = SharedDream(
    id: string,
    content: string,
    isAnonymous: bool,
    emotion: string,
    timestamp: int)

  datatype EmotionInfo = EmotionInfo(name: string, color: string, icon: string)

  /** The `emotions` configuration, in declaration order. */
  function EmotionTable(): seq<(string, EmotionInfo)>
  {
    [ ("happy", EmotionInfo("愉快", "#ffd166", "happy")),
      ("horror", EmotionInfo("恐怖", "#6a0572", "horror")),
      ("fantasy", EmotionInfo("奇幻", "#d83f87", "fantasy")),
      ("chaos", EmotionInfo("混乱", "#f79d65", "chaos")) ]
  }

  const FantasyInfo := EmotionInfo("奇幻", "#d83f87", "fantasy")

  /** `emotions[key]`. */
  function EmotionOf(key: string): (r: Option<EmotionInfo>)
    ensures r.Some? <==> key in {"happy", "horror", "fantasy", "chaos"}
    ensures key == "fantasy" ==> r == Some(FantasyInfo)
  {
    Lookup(EmotionTable(), key)
  }
}

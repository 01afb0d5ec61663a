/**
 * The `MOOD_LEVELS` table that the check-in, mood-tracking and mood-history
 * pages each declare (identically), and the two lookups made in it: the
 * current mood with its Neutral fallback, and the emoji for a rating.
 */
module MoodLevels {
  import opened Wrappers
  import Lists

  /** One row of the table; `name` is the row's `label`. */
  datatype MoodLevel = MoodLevel(value: int, name: string, emoji: string)

  const NeutralEmoji: string := "\U{1F610}"  // 😐

  /** Highest rating first: value 8 "Very Happy" down to value 1 "Very Sad". */
  const Levels: seq<MoodLevel> := [
    MoodLevel(8, "Very Happy", "\U{1F60A}"),  // 😊
    MoodLevel(7, "Happy", "\U{1F603}"),       // 😃
    MoodLevel(6, "Content", "\U{1F642}"),     // 🙂
    MoodLevel(5, "Neutral", NeutralEmoji),
    MoodLevel(4, "Anxious", "\U{1F61F}"),     // 😟
    MoodLevel(3, "Stressed", "\U{1F629}"),    // 😩
    MoodLevel(2, "Sad", "\U{1F622}"),         // 😢
    MoodLevel(1, "Very Sad", "\U{1F62D}")     // 😭
  ]

  /** `MOOD_LEVELS[3]`, the fallback entry. */
  const NeutralIndex: nat := 3

  /** Entry i carries the value 8 - i, so each rating 1..8 occurs exactly once. */
  lemma LevelsShape()
    ensures |Levels| == 8
    ensures forall i :: 0 <= i < |Levels| ==> Levels[i].value == 8 - i
    ensures Levels[NeutralIndex].value == 5 && Levels[NeutralIndex].name == "Neutral"
    ensures Levels[NeutralIndex].emoji == NeutralEmoji
  {
  }

  /** `MOOD_LEVELS.findIndex(mood => mood.value === rating)`. */
  function FindByValue(rating: int): Option<nat> {
    Lists.FindFirst(Levels, (m: MoodLevel) => m.value == rating)
  }

  /** Exactly the ratings 1..8 are found in the table. */
  lemma FoundExactlyInRange(rating: int)
    ensures FindByValue(rating).Some? <==> 1 <= rating <= 8
  {
    LevelsShape();
    if 1 <= rating <= 8 {
      assert Levels[8 - rating].value == rating;
    }
  }

  /**
   * `MOOD_LEVELS.find(mood => mood.value === rating) || MOOD_LEVELS[3]`:
   * the entry for the rating, or Neutral for a rating outside 1..8.
   */
  function CurrentMood(rating: int): (m: MoodLevel)
    ensures m in Levels
    ensures 1 <= rating <= 8 <==> m.value == rating
    ensures 1 <= rating <= 8 ==> m == Levels[8 - rating]
    ensures !(1 <= rating <= 8) ==> m == Levels[NeutralIndex]
  {
    LevelsShape();
    FoundExactlyInRange(rating);
    match FindByValue(rating)
    case Some(i) => Levels[i]
    case None =>
      Levels[NeutralIndex]
  }

  /** `getMoodEmoji`: `MOOD_LEVELS.find(mood => mood.value === rating)?.emoji || '😐'`. */
  function EmojiFor(rating: int): (e: string)
    ensures 1 <= rating <= 8 ==> e == Levels[8 - rating].emoji
    ensures !(1 <= rating <= 8) ==> e == NeutralEmoji
  {
    LevelsShape();
    FoundExactlyInRange(rating);
    match FindByValue(rating)
    case Some(i) => Levels[i].emoji
    case None =>
      NeutralEmoji
  }

  /**
   * The emoji lookup's literal fallback is the Neutral entry's emoji, so it
   * always agrees with the emoji of the current mood.
   */
  lemma EmojiAgreesWithCurrentMood(rating: int)
    ensures EmojiFor(rating) == CurrentMood(rating).emoji
  {
    LevelsShape();
  }
}

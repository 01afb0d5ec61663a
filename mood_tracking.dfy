/**
 * The mood-tracking form: the tag editor, the mood shown for the slider, and
 * the submit handler that posts a mood entry and resets the form on success.
 */
module MoodTracking {
  import Text
  import Lists
  import MoodLevels

  /** The record posted to the moods endpoint. */
  datatype MoodData = MoodData(rating: int, description: string, tags: seq<string>, moodLabel: string)

  const SaveFailedMessage: string := "Failed to save mood. Please try again."

  /** The form of a tag as stored: `input.trim().toLowerCase()`. */
  function NormalizeTag(input: string): (t: string)
    ensures |t| <= |input|
    ensures t == [] || (!Text.IsWhitespace(t[0]) && !Text.IsWhitespace(t[|t| - 1]))
    ensures forall i :: 0 <= i < |t| ==> !('A' <= t[i] <= 'Z')
    ensures |t| == |Text.Trim(input)|
    ensures forall i :: 0 <= i < |t| ==> t[i] == Text.LowerChar(Text.Trim(input)[i])
  {
    var trimmed := Text.Trim(input);
    Text.ToLowerKeepsEnds(trimmed);
    Text.ToLowerHasNoCapitals(trimmed);
    Text.ToLower(trimmed)
  }

  /** A stored tag is already normal: entering it again yields the same tag. */
  lemma NormalizeTagIdempotent(input: string)
    ensures NormalizeTag(NormalizeTag(input)) == NormalizeTag(input)
  {
    var t := Text.Trim(input);
    Text.TrimToLowerCommute(t);
    Text.TrimIdempotent(input);
    Text.ToLowerIdempotent(t);
  }

  /** The tag list after `handleAddTag` with the given input. */
  function AddTag(tags: seq<string>, input: string): (r: seq<string>)
    ensures Text.Trim(input) == "" ==> r == tags
    ensures Text.Trim(input) != "" ==> |r| == |tags| + 1 && r[..|tags|] == tags && r[|tags|] == NormalizeTag(input)
  {
    if Text.Trim(input) != "" then tags + [NormalizeTag(input)] else tags
  }

  /** No duplicate check: adding a tag already in the list appends a second copy. */
  lemma AddTagKeepsDuplicates(tags: seq<string>, input: string)
    requires Text.Trim(input) != ""
    requires NormalizeTag(input) in tags
    ensures |AddTag(tags, input)| == |tags| + 1
    ensures multiset(AddTag(tags, input))[NormalizeTag(input)] >= 2
  {
    assert AddTag(tags, input) == tags + [NormalizeTag(input)];
  }

  /** Removing a tag right after adding it leaves every other tag as it was, in order. */
  lemma RemoveUndoesAdd(tags: seq<string>, input: string)
    requires Text.Trim(input) != ""
    ensures Lists.Without(AddTag(tags, input), NormalizeTag(input)) == Lists.Without(tags, NormalizeTag(input))
  {
    var t := NormalizeTag(input);
    Lists.WithoutAppend(tags, [t], t);
    assert Lists.Without([t], t) == [];
  }

  /** The state of the mood-tracking page. */
  class MoodForm {
    var rating: int
    var description: string
    var tagInput: string
    var tags: seq<string>
    var isSubmitting: bool
    var error: string

    constructor ()
      ensures rating == 5 && description == "" && tagInput == "" && tags == []
      ensures !isSubmitting && error == ""
    {
      rating := 5;
      description := "";
      tagInput := "";
      tags := [];
      isSubmitting := false;
      error := "";
    }

    /** The mood level the slider shows. */
    function CurrentMood(): (m: MoodLevels.MoodLevel)
      reads this
      ensures m in MoodLevels.Levels
      ensures 1 <= rating <= 8 <==> m.value == rating
      ensures !(1 <= rating <= 8) ==> m.name == "Neutral"
    {
      MoodLevels.LevelsShape();
      MoodLevels.CurrentMood(rating)
    }

    /**
     * `handleAddTag`: a blank input changes nothing; otherwise the normalised
     * input is appended and the input box is cleared.
     */
    method HandleAddTag()
      modifies this`tags, this`tagInput
      ensures Text.Trim(old(tagInput)) == "" ==> tags == old(tags) && tagInput == old(tagInput)
      ensures Text.Trim(old(tagInput)) != "" ==> tags == old(tags) + [NormalizeTag(old(tagInput))] && tagInput == ""
    {
      if Text.Trim(tagInput) != "" {
        tags := AddTag(tags, tagInput);
        tagInput := "";
      }
    }

    /** `handleRemoveTag`: drops every tag equal to the given one. */
    method HandleRemoveTag(tagToRemove: string)
      modifies this`tags
      ensures tags == Lists.Without(old(tags), tagToRemove)
    {
      tags := Lists.Without(tags, tagToRemove);
    }

    /**
     * `handleSubmit` up to the post: marks the form as submitting, clears the
     * error and returns the record it sends.
     */
    method BeginSubmit() returns (sent: MoodData)
      modifies this`isSubmitting, this`error
      ensures isSubmitting && error == ""
      ensures sent == MoodData(rating, description, tags, CurrentMood().name)
    {
      isSubmitting := true;
      error := "";
      sent := MoodData(rating, description, tags, CurrentMood().name);
    }

    /**
     * `handleSubmit` after the post: success resets description, tags and
     * rating; failure keeps them and shows the fixed error. Either way the form
     * stops submitting.
     */
    method SettleSubmit(saved: bool)
      requires isSubmitting
      modifies this`description, this`tags, this`rating, this`isSubmitting, this`error
      ensures !isSubmitting
      ensures saved ==> description == "" && tags == [] && rating == 5 && error == old(error)
      ensures !saved ==> description == old(description) && tags == old(tags) && rating == old(rating)
                         && error == SaveFailedMessage
    {
      if saved {
        description := "";
        tags := [];
        rating := 5;
      } else {
        error := SaveFailedMessage;
      }
      isSubmitting := false;
    }
  }
}

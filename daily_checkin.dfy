/**
 * The daily check-in form: the activity, gratitude and goal list editors, the
 * mood shown for the slider, and the submit handler that posts a check-in and
 * refreshes the streak.
 */
module DailyCheckIn {
  import opened Wrappers
  import Lists
  import MoodLevels
  import StreakService

  datatype Activity =
    | Exercise | Reading | Meditation | Work | Study
    | SocialActivity | Hobby | Entertainment | OutdoorActivity | Rest

  datatype Category =
    | Family | Friends | Health | Career | PersonalGrowth
    | Nature | Home | Learning | Experiences | BasicNeeds

  datatype GratitudeItem = GratitudeItem(category: Category, detail: string)

  /** The two goal lists of the form. */
  datatype GoalKind = Completed | Upcoming

  /** An edit of one field of a gratitude item. */
  datatype GratitudeEdit = SetCategory(category: Category) | SetDetail(detail: string)

  datatype Goals = Goals(completed: seq<string>, upcoming: seq<string>)

  datatype Sleep = Sleep(hours: real, quality: int)

  /** The record's `mood`; `description` holds the mood level's label. */
  datatype MoodEntry = MoodEntry(rating: int, description: string)

  /** The record posted to the check-ins endpoint. */
  datatype CheckIn = CheckIn(
    mood: MoodEntry,
    activities: seq<Activity>,
    thoughts: string,
    gratitude: seq<GratitudeItem>,
    goals: Goals,
    sleep: Sleep)

  const SaveFailedMessage: string := "Failed to save check-in. Please try again."

  /** A new gratitude row: category Family, empty detail. */
  const NewGratitude: GratitudeItem := GratitudeItem(Family, "")

  /**
   * `prev.includes(a) ? prev.filter(x => x !== a) : [...prev, a]`: an absent
   * activity is appended, a present one is removed, the others stay put.
   */
  function Toggle(selected: seq<Activity>, a: Activity): (r: seq<Activity>)
    ensures a in r <==> a !in selected
    ensures forall b :: b != a ==> (b in r <==> b in selected)
    ensures a !in selected ==> r == selected + [a]
    ensures a in selected ==> |r| < |selected|
    ensures a in selected ==> r == Lists.Without(selected, a)
  {
    Lists.WithoutMembers(selected, a);
    Lists.WithoutShorter(selected, a);
    if a in selected then Lists.Without(selected, a) else selected + [a]
  }

  /** Toggling an absent activity twice gives back the original selection. */
  lemma ToggleTwiceRestores(selected: seq<Activity>, a: Activity)
    requires a !in selected
    ensures Toggle(Toggle(selected, a), a) == selected
  {
    Lists.WithoutAppend(selected, [a], a);
    Lists.WithoutAbsent(selected, a);
  }

  /** Toggling never makes an activity appear twice. */
  lemma ToggleKeepsNoDuplicates(selected: seq<Activity>, a: Activity)
    requires Lists.NoDuplicates(selected)
    ensures Lists.NoDuplicates(Toggle(selected, a))
  {
    if a in selected {
      Lists.WithoutNoDuplicates(selected, a);
    }
  }

  /** Applies an edit to the one field it names. */
  function Edit(item: GratitudeItem, e: GratitudeEdit): (r: GratitudeItem)
    ensures e.SetCategory? ==> r.category == e.category && r.detail == item.detail
    ensures e.SetDetail? ==> r.detail == e.detail && r.category == item.category
  {
    match e
    case SetCategory(c) => item.(category := c)
    case SetDetail(d) => item.(detail := d)
  }

  /** The kept goals: `goals.filter(Boolean)` drops exactly the empty strings. */
  function NonEmptyGoals(goals: seq<string>): (r: seq<string>)
    ensures forall g :: g in r <==> g in goals && g != ""
    ensures multiset(r) == multiset(goals)["" := 0]
    ensures r == Lists.Without(goals, "")
  {
    Lists.WithoutMembers(goals, "");
    Lists.Without(goals, "")
  }

  /**
   * The record `handleSubmit` posts: the rating with the current mood's label,
   * the other fields copied, and the goal lists without their empty entries.
   */
  function Record(rating: int, activities: seq<Activity>, thoughts: string,
                  gratitude: seq<GratitudeItem>, completed: seq<string>, upcoming: seq<string>,
                  sleep: Sleep): (r: CheckIn)
    ensures r.mood.rating == rating && r.mood.description == MoodLevels.CurrentMood(rating).name
    ensures r.activities == activities && r.thoughts == thoughts && r.gratitude == gratitude
    ensures r.sleep == sleep
    ensures multiset(r.goals.completed) == multiset(completed)["" := 0]
    ensures multiset(r.goals.upcoming) == multiset(upcoming)["" := 0]
    ensures r.goals == Goals(NonEmptyGoals(completed), NonEmptyGoals(upcoming))
  {
    CheckIn(MoodEntry(rating, MoodLevels.CurrentMood(rating).name), activities, thoughts, gratitude,
            Goals(NonEmptyGoals(completed), NonEmptyGoals(upcoming)), sleep)
  }

  /** The state of the check-in page. */
  class CheckInForm {
    var moodRating: int
    var selectedActivities: seq<Activity>
    var thoughts: string
    var gratitudeItems: seq<GratitudeItem>
    var completedGoals: seq<string>
    var upcomingGoals: seq<string>
    var sleepHours: real
    var sleepQuality: int
    var isSubmitting: bool
    var error: string
    var streakData: StreakService.StreakData

    constructor ()
      ensures moodRating == 5 && selectedActivities == [] && thoughts == ""
      ensures gratitudeItems == [] && completedGoals == [] && upcomingGoals == []
      ensures sleepHours == 7.0 && sleepQuality == 5
      ensures !isSubmitting && error == "" && streakData == StreakService.NoStreak
    {
      moodRating := 5;
      selectedActivities := [];
      thoughts := "";
      gratitudeItems := [];
      completedGoals := [];
      upcomingGoals := [];
      sleepHours := 7.0;
      sleepQuality := 5;
      isSubmitting := false;
      error := "";
      streakData := StreakService.NoStreak;
    }

    /** The mood level the slider shows. */
    function CurrentMood(): (m: MoodLevels.MoodLevel)
      reads this
      ensures m in MoodLevels.Levels
      ensures 1 <= moodRating <= 8 <==> m.value == moodRating
      ensures !(1 <= moodRating <= 8) ==> m.name == "Neutral"
    {
      MoodLevels.LevelsShape();
      MoodLevels.CurrentMood(moodRating)
    }

    /** `handleActivityToggle`. */
    method ToggleActivity(a: Activity)
      modifies this`selectedActivities
      ensures selectedActivities == Toggle(old(selectedActivities), a)
    {
      selectedActivities := Toggle(selectedActivities, a);
    }

    /** `handleAddGratitude`: appends a Family row with an empty detail. */
    method AddGratitude()
      modifies this`gratitudeItems
      ensures gratitudeItems == old(gratitudeItems) + [NewGratitude]
    {
      gratitudeItems := gratitudeItems + [NewGratitude];
    }

    /** `handleGratitudeChange`: changes one field of the item at `index`. */
    method ChangeGratitude(index: nat, e: GratitudeEdit)
      requires index < |gratitudeItems|
      modifies this`gratitudeItems
      ensures |gratitudeItems| == |old(gratitudeItems)|
      ensures gratitudeItems[index] == Edit(old(gratitudeItems)[index], e)
      ensures forall j :: 0 <= j < |gratitudeItems| && j != index ==> gratitudeItems[j] == old(gratitudeItems)[j]
    {
      var newItems := gratitudeItems;
      newItems := newItems[index := Edit(newItems[index], e)];
      gratitudeItems := newItems;
    }

    /** `handleRemoveGratitude`: drops the item at `index`, keeping the others in order. */
    method RemoveGratitude(index: nat)
      modifies this`gratitudeItems
      ensures gratitudeItems == Lists.RemoveAt(old(gratitudeItems), index)
    {
      gratitudeItems := Lists.RemoveAt(gratitudeItems, index);
    }

    /** `handleAddGoal`: appends an empty goal to the chosen list only. */
    method AddGoal(kind: GoalKind)
      modifies this`completedGoals, this`upcomingGoals
      ensures kind == Completed ==> completedGoals == old(completedGoals) + [""] && upcomingGoals == old(upcomingGoals)
      ensures kind == Upcoming ==> upcomingGoals == old(upcomingGoals) + [""] && completedGoals == old(completedGoals)
    {
      if kind == Completed {
        completedGoals := completedGoals + [""];
      } else {
        upcomingGoals := upcomingGoals + [""];
      }
    }

    /** `handleGoalChange`: replaces the goal at `index` in the chosen list only. */
    method ChangeGoal(kind: GoalKind, index: nat, value: string)
      requires kind == Completed ==> index < |completedGoals|
      requires kind == Upcoming ==> index < |upcomingGoals|
      modifies this`completedGoals, this`upcomingGoals
      ensures kind == Completed ==> completedGoals == old(completedGoals)[index := value] && upcomingGoals == old(upcomingGoals)
      ensures kind == Upcoming ==> upcomingGoals == old(upcomingGoals)[index := value] && completedGoals == old(completedGoals)
    {
      if kind == Completed {
        var newGoals := completedGoals;
        newGoals := newGoals[index := value];
        completedGoals := newGoals;
      } else {
        var newGoals := upcomingGoals;
        newGoals := newGoals[index := value];
        upcomingGoals := newGoals;
      }
    }

    /** `handleRemoveGoal`: drops the goal at `index` from the chosen list only. */
    method RemoveGoal(kind: GoalKind, index: nat)
      modifies this`completedGoals, this`upcomingGoals
      ensures kind == Completed ==> completedGoals == Lists.RemoveAt(old(completedGoals), index) && upcomingGoals == old(upcomingGoals)
      ensures kind == Upcoming ==> upcomingGoals == Lists.RemoveAt(old(upcomingGoals), index) && completedGoals == old(completedGoals)
    {
      if kind == Completed {
        completedGoals := Lists.RemoveAt(completedGoals, index);
      } else {
        upcomingGoals := Lists.RemoveAt(upcomingGoals, index);
      }
    }

    /**
     * The mount effect: a fetched history (the days of the stored check-ins)
     * replaces the streak data; a failed fetch changes nothing.
     */
    method LoadHistory(history: Option<seq<StreakService.Day>>, today: StreakService.Day, weekStart: StreakService.Day)
      modifies this`streakData
      ensures history.Some? ==> streakData == StreakService.Streak(history.value, today, weekStart)
      ensures history.None? ==> streakData == old(streakData)
    {
      if history.Some? {
        streakData := StreakService.CalculateStreak(history.value, today, weekStart);
      }
    }

    /**
     * `handleSubmit` up to the post: marks the form as submitting, clears the
     * error and returns the record it sends, built from the current fields.
     */
    method BeginSubmit() returns (sent: CheckIn)
      modifies this`isSubmitting, this`error
      ensures isSubmitting && error == ""
      ensures sent == Record(moodRating, selectedActivities, thoughts, gratitudeItems,
                             completedGoals, upcomingGoals, Sleep(sleepHours, sleepQuality))
    {
      isSubmitting := true;
      error := "";
      sent := Record(moodRating, selectedActivities, thoughts, gratitudeItems,
                     completedGoals, upcomingGoals, Sleep(sleepHours, sleepQuality));
    }

    /**
     * `handleSubmit` after the post: `saved` is the post's outcome, `history`
     * that of the follow-up fetch, made only after a successful post. Both must
     * succeed for the streak to be replaced; otherwise the fixed error is shown.
     * Either way the form stops submitting.
     */
    method SettleSubmit(saved: bool, history: Option<seq<StreakService.Day>>,
                        today: StreakService.Day, weekStart: StreakService.Day)
      requires isSubmitting
      modifies this`isSubmitting, this`error, this`streakData
      ensures !isSubmitting
      ensures saved && history.Some? ==>
        streakData == StreakService.Streak(history.value, today, weekStart) && error == old(error)
      ensures !(saved && history.Some?) ==>
        streakData == old(streakData) && error == SaveFailedMessage
    {
      if saved && history.Some? {
        streakData := StreakService.CalculateStreak(history.value, today, weekStart);
      } else {
        error := SaveFailedMessage;
      }
      isSubmitting := false;
    }
  }
}

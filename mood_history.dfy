/**
 * The mood-history page: fetching a month of moods, the calendar lookup of
 * the mood recorded on a day, the emoji shown for it, and the graph points.
 *
 * A mood's `createdAt` timestamp is represented by the calendar day it falls
 * on (a day number, as in StreakService).
 */
module MoodHistory {
  import opened Wrappers
  import Lists
  import Text
  import MoodLevels

  type Day = int

  datatype Mood = Mood(id: string, userId: string, rating: int, description: string,
                       tags: seq<string>, createdDay: Day)

  /** One point of the line graph; `day` stands for the `MMM dd` label of the mood's date. */
  datatype GraphPoint = GraphPoint(day: Day, rating: int, emoji: string)

  /** A calendar date as date-fns formats it: `month` 1..12, `day` 1..31. */
  datatype CalendarDate = CalendarDate(year: nat, month: nat, day: nat)

  const BaseUrl: string := "http://localhost:3000/api/moods"

  const FetchFailedMessage: string := "Failed to fetch mood history"

  predicate ValidDate(d: CalendarDate) {
    d.year < 10000 && 1 <= d.month <= 12 && 1 <= d.day <= 31
  }

  /** `format(d, 'yyyy-MM-dd')`. */
  function FormatIsoDate(d: CalendarDate): (s: string)
    ensures ValidDate(d) ==> |s| == 10 && s[4] == '-' && s[7] == '-'
    ensures forall i :: 0 <= i < |s| && s[i] != '-' ==> Text.IsDigit(s[i])
  {
    var s := Text.PadNumber(d.year, 4) + "-" + Text.PadNumber(d.month, 2) + "-" + Text.PadNumber(d.day, 2);
    if ValidDate(d) then
      Text.PadNumberWidth(d.year, 4);
      Text.PadNumberWidth(d.month, 2);
      Text.PadNumberWidth(d.day, 2);
      s
    else s
  }

  predicate AllDigits(s: string) {
    forall i :: 0 <= i < |s| ==> Text.IsDigit(s[i])
  }

  /** Reads a `yyyy-MM-dd` string back into a date. */
  function ParseIsoDate(s: string): Option<CalendarDate> {
    if |s| == 10 && s[4] == '-' && s[7] == '-'
       && AllDigits(s[..4]) && AllDigits(s[5..7]) && AllDigits(s[8..])
    then Some(CalendarDate(Text.ParseNumber(s[..4]), Text.ParseNumber(s[5..7]), Text.ParseNumber(s[8..])))
    else None
  }

  /** Every valid date formats to ten characters and reads back from them. */
  lemma FormatIsoDateRoundTrip(d: CalendarDate)
    requires ValidDate(d)
    ensures |FormatIsoDate(d)| == 10
    ensures ParseIsoDate(FormatIsoDate(d)) == Some(d)
  {
    var y, m, dd := Text.PadNumber(d.year, 4), Text.PadNumber(d.month, 2), Text.PadNumber(d.day, 2);
    Text.PadNumberWidth(d.year, 4);
    Text.PadNumberWidth(d.month, 2);
    Text.PadNumberWidth(d.day, 2);
    Lists.JoinSlices(y, "-", m, "-", dd);
    var s := FormatIsoDate(d);
    assert s[..4] == y && s[5..7] == m && s[8..] == dd;
    assert AllDigits(y) && AllDigits(m) && AllDigits(dd);
    Text.PadNumberRoundTrip(d.year, 4);
    Text.PadNumberRoundTrip(d.month, 2);
    Text.PadNumberRoundTrip(d.day, 2);
  }

  /**
   * The URL `fetchMoods` requests: the date range is appended as a query only
   * when both bounds are given.
   */
  function FetchUrl(startDate: Option<CalendarDate>, endDate: Option<CalendarDate>): (url: string)
    ensures |BaseUrl| <= |url| && url[..|BaseUrl|] == BaseUrl
    ensures startDate.None? || endDate.None? ==> url == BaseUrl
  {
    if startDate.Some? && endDate.Some?
    then BaseUrl + "?startDate=" + FormatIsoDate(startDate.value) + "&endDate=" + FormatIsoDate(endDate.value)
    else BaseUrl
  }

  /** With both bounds, the query carries them at fixed places, and each reads back to its date. */
  lemma FetchUrlCarriesRange(startDate: CalendarDate, endDate: CalendarDate)
    requires ValidDate(startDate) && ValidDate(endDate)
    ensures var url := FetchUrl(Some(startDate), Some(endDate));
      var b := |BaseUrl|;
      && |url| == b + 40
      && url[b..b + 11] == "?startDate="
      && url[b + 21..b + 30] == "&endDate="
      && ParseIsoDate(url[b + 11..b + 21]) == Some(startDate)
      && ParseIsoDate(url[b + 30..]) == Some(endDate)
  {
    FormatIsoDateRoundTrip(startDate);
    FormatIsoDateRoundTrip(endDate);
    Lists.JoinSlices(BaseUrl, "?startDate=", FormatIsoDate(startDate), "&endDate=", FormatIsoDate(endDate));
  }

  /** `getMoodForDate`: the first mood, in list order, recorded on `day`. */
  function MoodForDate(moods: seq<Mood>, day: Day): (r: Option<Mood>)
    ensures r.Some? ==> exists i :: 0 <= i < |moods| && moods[i] == r.value && moods[i].createdDay == day
                                    && forall j :: 0 <= j < i ==> moods[j].createdDay != day
    ensures r.None? ==> forall i :: 0 <= i < |moods| ==> moods[i].createdDay != day
  {
    match Lists.FindFirst(moods, (m: Mood) => m.createdDay == day)
    case Some(i) => Some(moods[i])
    case None => None
  }

  /** `graphData`: one point per mood, its emoji taken from `getMoodEmoji`. */
  function GraphData(moods: seq<Mood>): (g: seq<GraphPoint>)
    ensures |g| == |moods|
    ensures forall i :: 0 <= i < |moods| ==>
      g[i].day == moods[i].createdDay && g[i].rating == moods[i].rating && g[i].emoji == MoodLevels.EmojiFor(moods[i].rating)
  {
    if moods == [] then []
    else [GraphPoint(moods[0].createdDay, moods[0].rating, MoodLevels.EmojiFor(moods[0].rating))] + GraphData(moods[1..])
  }

  /** The projection keeps the order of the moods: it distributes over concatenation. */
  lemma {:induction false} GraphDataAppend(a: seq<Mood>, b: seq<Mood>)
    ensures GraphData(a + b) == GraphData(a) + GraphData(b)
  {
    if a == [] {
      assert a + b == b;
    } else {
      assert (a + b)[1..] == a[1..] + b;
      GraphDataAppend(a[1..], b);
    }
  }

  /** The state of the mood-history page. */
  class MoodHistoryPage {
    var moods: seq<Mood>
    var loading: bool
    var error: string
    var selectedMood: Option<Mood>

    constructor ()
      ensures moods == [] && loading && error == "" && selectedMood == None
    {
      moods := [];
      loading := true;
      error := "";
      selectedMood := None;
    }

    /** `fetchMoods` up to the request: sets `loading` and builds the URL it requests. */
    method BeginFetch(startDate: Option<CalendarDate>, endDate: Option<CalendarDate>) returns (url: string)
      modifies this`loading
      ensures loading
      ensures url == FetchUrl(startDate, endDate)
    {
      loading := true;
      url := BaseUrl;
      if startDate.Some? && endDate.Some? {
        url := url + "?startDate=" + FormatIsoDate(startDate.value) + "&endDate=" + FormatIsoDate(endDate.value);
      }
    }

    /**
     * `fetchMoods` after the request: a reply replaces the moods, a failure
     * keeps them and sets the fixed error. Nothing clears the error.
     */
    method SettleFetch(reply: Option<seq<Mood>>)
      modifies this`moods, this`loading, this`error
      ensures !loading
      ensures reply.Some? ==> moods == reply.value && error == old(error)
      ensures reply.None? ==> moods == old(moods) && error == FetchFailedMessage
      ensures old(error) != "" ==> error != ""
    {
      if reply.Some? {
        moods := reply.value;
      } else {
        error := FetchFailedMessage;
      }
      loading := false;
    }

    /** `handleDateClick`: selects the day's first mood, or nothing. */
    method HandleDateClick(day: Day)
      modifies this`selectedMood
      ensures selectedMood == MoodForDate(moods, day)
    {
      selectedMood := MoodForDate(moods, day);
    }
  }
}

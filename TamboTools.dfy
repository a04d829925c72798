/**
 * The helpers behind the tools the assistant may call (tambo-tools): time-of-day bucketing and
 * suggestions, the insight list for an analysis, the emergency resources, the mood context and
 * the bounded interaction log.
 */
module TamboTools {
  import opened Common
  import opened MoodSchema
  import opened Storage
  import opened MoodTools

  // ---------------------------------------------------------------------------------------------
  // Time of day
  // ---------------------------------------------------------------------------------------------

  /** Which of the five periods an hour falls into: before 6, 12, 17, 21, or later. */
  function Period(hour: int): (p: nat)
    ensures p < 5
    ensures p == 0 <==> hour < 6
    ensures p == 1 <==> 6 <= hour < 12
    ensures p == 2 <==> 12 <= hour < 17
    ensures p == 3 <==> 17 <= hour < 21
    ensures p == 4 <==> hour >= 21
  {
    if hour < 6 then 0 else if hour < 12 then 1 else if hour < 17 then 2 else if hour < 21 then 3 else 4
  }

  const PeriodLabels: seq<string> := ["late night/early morning", "morning", "afternoon", "evening", "late evening"]

  const PeriodSuggestions: seq<seq<string>> := [
    ["Having trouble sleeping? Try the Sleep Wind Down routine.",
     "Consider gentle breathing exercises to calm your mind."],
    ["Start your day with positive affirmations.", "Morning is a great time for mood tracking."],
    ["Take a mindful break with a short meditation.", "Check in with your mood."],
    ["Evening is perfect for journaling and reflection.", "Wind down with gratitude practice."],
    ["Prepare for restful sleep with our wind-down routine.",
     "Gentle breathing can help transition to sleep."]]

  /** The `timeContext` label of `getMoodContext`. */
  function TimeOfDay(hour: int): (r: string)
    ensures r == PeriodLabels[Period(hour)]
  {
    if hour < 6 then "late night/early morning"
    else if hour < 12 then "morning"
    else if hour < 17 then "afternoon"
    else if hour < 21 then "evening"
    else "late evening"
  }

  /** `getTimeBasedSuggestions`: two suggestions for the hour's period. */
  function TimeBasedSuggestions(hour: int): (r: seq<string>)
    ensures |r| == 2
    ensures r == PeriodSuggestions[Period(hour)]
  {
    if hour < 6 then
      ["Having trouble sleeping? Try the Sleep Wind Down routine.",
       "Consider gentle breathing exercises to calm your mind."]
    else if hour < 12 then
      ["Start your day with positive affirmations.", "Morning is a great time for mood tracking."]
    else if hour < 17 then
      ["Take a mindful break with a short meditation.", "Check in with your mood."]
    else if hour < 21 then
      ["Evening is perfect for journaling and reflection.", "Wind down with gratitude practice."]
    else
      ["Prepare for restful sleep with our wind-down routine.",
       "Gentle breathing can help transition to sleep."]
  }

  /** The label and the suggestions change at the same hours: equal periods give equal answers. */
  lemma SameBoundaries(h1: int, h2: int)
    requires Period(h1) == Period(h2)
    ensures TimeOfDay(h1) == TimeOfDay(h2) && TimeBasedSuggestions(h1) == TimeBasedSuggestions(h2)
  {
  }

  // ---------------------------------------------------------------------------------------------
  // The insights of the analysis tool
  // ---------------------------------------------------------------------------------------------

  /**
   * The fields `generateInsights` reads from its untyped argument; an absent field is `None`.
   * A text field is truthy when present and non-empty.
   */
  datatype InsightSource = InsightSource(trend: Option<string>, mostCommon: Option<string>, volatility: Option<string>)

  const ToolImproving: string := "Your mood has been improving " + "over this period. Keep up the good work!"
  const ToolDeclining: string :=
    "Your mood has been challenging " + "lately. Consider reaching out for additional support."
  const ToolVolatile: string := "Your mood has been varying significantly. " + "Grounding exercises might help."

  function MostCommonInsight(m: string): string {
    "You've been feeling " + m + " most often recently."
  }

  /** The list `generateInsights` pushes, one part per condition. */
  function ToolInsights(a: InsightSource): (r: seq<string>)
    ensures |r| <= 3
    ensures ToolImproving in r <==> a.trend == Some("improving")
    ensures ToolDeclining in r <==> a.trend == Some("declining")
    ensures ToolVolatile in r <==> a.volatility == Some("high")
  {
    ToolMessagesDiffer();
    (if a.trend == Some("improving") then [ToolImproving]
     else if a.trend == Some("declining") then [ToolDeclining] else [])
    + (if a.mostCommon.Some? && a.mostCommon.value != "" then [MostCommonInsight(a.mostCommon.value)] else [])
    + (if a.volatility == Some("high") then [ToolVolatile] else [])
  }

  /**
   * The push order of `generateInsights`: the trend message first, the `mostCommon` message
   * (present iff that field is truthy) next, the volatility message last.
   */
  lemma ToolInsightsOrder(a: InsightSource)
    ensures var r := ToolInsights(a);
      && ((exists k :: 0 <= k < |r| && r[k] !in {ToolImproving, ToolDeclining, ToolVolatile})
          <==> a.mostCommon.Some? && a.mostCommon.value != "")
      && (a.trend == Some("improving") ==> r[0] == ToolImproving)
      && (a.trend == Some("declining") ==> r[0] == ToolDeclining)
      && (a.volatility == Some("high") ==> r[|r| - 1] == ToolVolatile)
      && (a.mostCommon.Some? && a.mostCommon.value != "" ==>
            r[|r| - 1 - (if a.volatility == Some("high") then 1 else 0)] == MostCommonInsight(a.mostCommon.value))
  {
    ToolMessagesDiffer();
    var r := ToolInsights(a);
    var trend := if a.trend == Some("improving") then [ToolImproving]
      else if a.trend == Some("declining") then [ToolDeclining] else [];
    var common := if a.mostCommon.Some? && a.mostCommon.value != "" then [MostCommonInsight(a.mostCommon.value)] else [];
    var volatile := if a.volatility == Some("high") then [ToolVolatile] else [];
    assert r == trend + common + volatile;
    if common != [] {
      assert r[|trend|] == common[0];
    } else {
      forall k | 0 <= k < |r| ensures r[k] in {ToolImproving, ToolDeclining, ToolVolatile} {
        if k < |trend| { assert r[k] == trend[k]; } else { assert r[k] == volatile[k - |trend|]; }
      }
    }
  }

  /** `generateInsights`: pushes at most one trend message, then the two optional ones. */
  method GenerateInsights(a: InsightSource) returns (insights: seq<string>)
    ensures insights == ToolInsights(a)
    ensures |insights| <= 3
    ensures !(ToolImproving in insights && ToolDeclining in insights)
  {
    ToolMessagesDiffer();
    insights := [];
    if a.trend == Some("improving") {
      insights := insights + [ToolImproving];
    } else if a.trend == Some("declining") {
      insights := insights + [ToolDeclining];
    }
    if a.mostCommon.Some? && a.mostCommon.value != "" {
      insights := insights + [MostCommonInsight(a.mostCommon.value)];
    }
    if a.volatility == Some("high") {
      insights := insights + [ToolVolatile];
    }
  }

  lemma ToolMessagesDiffer()
    ensures ToolImproving != ToolDeclining
    ensures forall m :: MostCommonInsight(m) != ToolImproving && MostCommonInsight(m) != ToolDeclining
    ensures forall m :: MostCommonInsight(m) != ToolVolatile
    ensures ToolVolatile != ToolImproving && ToolVolatile != ToolDeclining
  {
    assert ToolImproving[3] == 'r';
    assert ToolDeclining[3] == 'r';
    assert ToolVolatile[3] == 'r';
    forall m ensures MostCommonInsight(m) != ToolImproving && MostCommonInsight(m) != ToolDeclining
      && MostCommonInsight(m) != ToolVolatile {
      assert MostCommonInsight(m)[3] == '\'';
    }
    assert ToolImproving[19] != ToolDeclining[19];
    assert ToolVolatile[19] != ToolImproving[19] && ToolVolatile[19] != ToolDeclining[19];
  }

  /** What `generateInsights` sees of an `analyzeMoodPatterns` result: no `mostCommon`, no `volatility`. */
  function SourceOf(a: Analysis): InsightSource {
    InsightSource(Some(TrendName(a.trend)), None, None)
  }

  /** Given only a trend, `generateInsights` returns that trend's message or nothing. */
  lemma InsightsOfTrendOnly(t: Trend)
    ensures ToolInsights(InsightSource(Some(TrendName(t)), None, None))
      == (match t case Improving => [ToolImproving] case Declining => [ToolDeclining] case Stable => [])
  {
    match t
    case Improving =>
    case Declining =>
      assert TrendName(t) != "improving" by { assert TrendName(t)[0] != "improving"[0]; }
    case Stable =>
      assert TrendName(t) != "improving" by { assert TrendName(t)[0] != "improving"[0]; }
      assert TrendName(t) != "declining" by { assert TrendName(t)[0] != "declining"[0]; }
  }

  /** The analysis tool's `insights`: never more than the one trend message. */
  lemma AnalysisToolInsights(history: seq<MoodEntry>, cutoff: int)
    ensures var a := AnalysisOf(history, cutoff); var r := ToolInsights(SourceOf(a));
      && |r| <= 1
      && (r == [ToolImproving] <==> a.trend == Improving)
      && (r == [ToolDeclining] <==> a.trend == Declining)
  {
    InsightsOfTrendOnly(AnalysisOf(history, cutoff).trend);
    ToolMessagesDiffer();
  }

  // ---------------------------------------------------------------------------------------------
  // Emergency resources
  // ---------------------------------------------------------------------------------------------

  datatype Hotline = Hotline(name: string, contact: string, description: string, available: string, howTo: string)
  datatype Emergency = Emergency(name: string, contact: Option<string>, description: string, when: string)
  datatype Resources = Resources(
    crisis: seq<Hotline>,
    immediate: seq<Emergency>,
    urgencyLevel: string,
    location: string,
    message: string)

  const Hotlines: seq<Hotline> := [
    Hotline("National Suicide Prevention Lifeline", "988", "Free, confidential support 24/7", "24/7", "Call or text"),
    Hotline("Crisis Text Line", "Text HOME to 741741", "Text-based crisis support", "24/7", "Text message"),
    Hotline("SAMHSA National Helpline", "1-800-662-4357", "Treatment referral and information service", "24/7", "Phone call"),
    Hotline("Veterans Crisis Line", "988 then press 1", "Support for veterans and their families", "24/7", "Call or text")]

  const Emergencies: seq<Emergency> := [
    Emergency("Emergency Services", Some("911"), "IMMEDIATE danger - police/ambulance",
      "In immediate danger of self-harm or harm to others"),
    Emergency("Emergency Room", None, "Visit nearest hospital emergency room", "Experiencing psychiatric emergency")]

  const CriticalMessage: string :=
    "\U{1F6A8} If you're in immediate danger, please call 911 " + "or go to your nearest emergency room right now."
  const HighMessage: string :=
    "\U{26A0}\U{FE0F} Please reach out to a crisis hotline. " + "You don't have to go through this alone."
  const SupportMessage: string := "\U{1F499} Support is available 24/7. " + "It's okay to ask for help."

  /** The urgency message: critical, high, and anything else. */
  function UrgencyMessage(urgency: string): (r: string)
    ensures r == CriticalMessage <==> urgency == "critical"
    ensures r == HighMessage <==> urgency == "high"
    ensures r == SupportMessage <==> urgency != "critical" && urgency != "high"
  {
    assert CriticalMessage != HighMessage && HighMessage != SupportMessage && CriticalMessage != SupportMessage;
    if urgency == "critical" then CriticalMessage
    else if urgency == "high" then HighMessage
    else SupportMessage
  }

  /**
   * `getEmergencyResources` with the schema's default urgency "high" and
   * `location || 'United States'`.
   */
  function EmergencyResources(location: Option<string>, urgency: Option<string>): (r: Resources)
    ensures |r.crisis| == 4 && |r.immediate| == 2
    ensures r.urgencyLevel == urgency.GetOr("high")
    ensures r.location == (if location.Some? && location.value != "" then location.value else "United States")
    ensures r.message == UrgencyMessage(r.urgencyLevel)
  {
    var level := urgency.GetOr("high");
    var place := if location.Some? && location.value != "" then location.value else "United States";
    Resources(Hotlines, Emergencies, level, place, UrgencyMessage(level))
  }

  /** Without an urgency, the message is the hotline one. */
  lemma DefaultUrgencyIsHigh(location: Option<string>)
    ensures EmergencyResources(location, None).message == HighMessage
  {
  }

  // ---------------------------------------------------------------------------------------------
  // The mood context
  // ---------------------------------------------------------------------------------------------

  /** The key `getMoodContext` reads, which no code of this repository writes. */
  const MoodsKey: string := "mindflow_moods"

  /** The parts of the context that do not depend on the clock's date (`sessionStart`). */
  datatype MoodContext = MoodContext(
    timeOfDay: string,
    currentHour: int,
    recentMoods: seq<MoodEntry>,
    hasHistoricalData: bool,
    suggestions: seq<string>)

  /** `getMoodContext` for a storage state: the last five moods, shown only with `includeHistory`. */
  function ContextOf(inBrowser: bool, lists: map<string, seq<MoodEntry>>, includeHistory: bool, hour: int): (c: MoodContext)
    ensures var recent := if inBrowser then LastN(ListAt(lists, MoodsKey), 5) else [];
      && |recent| <= 5
      && c.recentMoods == (if includeHistory then recent else [])
      && (c.hasHistoricalData <==> recent != [])
    ensures c.timeOfDay == TimeOfDay(hour) && c.suggestions == TimeBasedSuggestions(hour)
  {
    var recent := if inBrowser then LastN(ListAt(lists, MoodsKey), 5) else [];
    MoodContext(TimeOfDay(hour), hour, if includeHistory then recent else [], |recent| > 0, TimeBasedSuggestions(hour))
  }

  /** `getMoodContext`, the hour given. */
  function GetMoodContext(store: LocalStorage, includeHistory: bool, hour: int): (c: MoodContext)
    reads store
    ensures |c.recentMoods| <= 5
    ensures c.recentMoods != [] ==> includeHistory && store.inBrowser
    ensures includeHistory && store.inBrowser ==> c.recentMoods == LastN(ListAt(store.moodLists, MoodsKey), 5)
    ensures !store.inBrowser ==> !c.hasHistoricalData
  {
    ContextOf(store.inBrowser, store.moodLists, includeHistory, hour)
  }

  /** Saving a mood entry writes another key: the context never sees it. */
  lemma SavedEntriesNotInContext(inBrowser: bool, lists: map<string, seq<MoodEntry>>, e: MoodEntry, includeHistory: bool, hour: int)
    ensures ContextOf(inBrowser, SaveInto(lists, e), includeHistory, hour) == ContextOf(inBrowser, lists, includeHistory, hour)
  {
    assert MoodsKey != MoodHistoryKey;
  }

  /** With the history shown, it is exactly all that `hasHistoricalData` reports on. */
  lemma HistoryFlagAgrees(inBrowser: bool, lists: map<string, seq<MoodEntry>>, hour: int)
    ensures ContextOf(inBrowser, lists, true, hour).hasHistoricalData <==> ContextOf(inBrowser, lists, true, hour).recentMoods != []
    ensures ContextOf(inBrowser, lists, false, hour).hasHistoricalData == ContextOf(inBrowser, lists, true, hour).hasHistoricalData
  {
  }

  // ---------------------------------------------------------------------------------------------
  // The interaction log
  // ---------------------------------------------------------------------------------------------

  const InteractionsKey: string := "mindflow_interactions"

  /** The log after `push(record)` and one `shift()` when it then holds more than a hundred. */
  function Tracked(log: seq<Interaction>, record: Interaction): (r: seq<Interaction>)
    ensures |r| == (if |log| + 1 > 100 then |log| else |log| + 1)
    ensures r[|r| - 1] == record
    ensures r == (log + [record])[|log| + 1 - |r|..]
    ensures |log| <= 100 ==> |r| <= 100
  {
    var pushed := log + [record];
    if |pushed| > 100 then pushed[1..] else pushed
  }

  /** A log already longer than a hundred stays longer: only one record is dropped per call. */
  lemma OverlongLogStaysOverlong(log: seq<Interaction>, record: Interaction)
    requires |log| > 100
    ensures |Tracked(log, record)| == |log| > 100
  {
  }

  datatype TrackResult = TrackResult(success: bool, message: string, learning: string)

  function Learning(componentName: string, helpful: bool): string {
    "Noted: " + componentName + " was " + (if helpful then "helpful" else "not helpful")
  }

  /** `trackInteraction`, the clock's instant given: log the record in a browser. */
  method TrackInteraction(store: LocalStorage, componentName: string, helpful: bool, feedback: Option<string>, now: int)
    returns (result: TrackResult)
    modifies store
    ensures store.inBrowser ==>
      (store.interactionLists == old(store.interactionLists)[InteractionsKey :=
        Tracked(old(store.InteractionList(InteractionsKey)), Interaction(componentName, helpful, feedback, now))])
    ensures !store.inBrowser ==> store.interactionLists == old(store.interactionLists)
    ensures store.moodLists == old(store.moodLists)
    ensures result == TrackResult(true, "Interaction tracked", Learning(componentName, helpful))
  {
    if store.inBrowser {
      var interactions := store.InteractionList(InteractionsKey);
      interactions := interactions + [Interaction(componentName, helpful, feedback, now)];
      if |interactions| > 100 {
        interactions := interactions[1..];
      }
      store.SetInteractionList(InteractionsKey, interactions);
    }
    result := TrackResult(true, "Interaction tracked", Learning(componentName, helpful));
  }
}

/**
 * The mood store and its analytics: a bounded append log of mood entries and the pattern
 * analysis over a recent window of it (mood-tools).
 */
module MoodTools {
  import opened Common
  import opened MoodSchema
  import opened Storage

  const MoodHistoryKey: string := "mindflow_mood_history"

  /** The log keeps this many most recent entries. */
  const HistoryCap: nat := 100

  // ---------------------------------------------------------------------------------------------
  // The bounded log
  // ---------------------------------------------------------------------------------------------

  /** `getMoodHistory`: the stored log, or nothing outside a browser. */
  function GetMoodHistory(store: LocalStorage): (r: seq<MoodEntry>)
    reads store
    ensures !store.inBrowser ==> r == []
    ensures store.inBrowser ==> r == ListAt(store.moodLists, MoodHistoryKey)
  {
    if store.inBrowser then store.MoodList(MoodHistoryKey) else []
  }

  /** The log after pushing `entry` and keeping the last hundred entries. */
  function Saved(history: seq<MoodEntry>, entry: MoodEntry): (r: seq<MoodEntry>)
    ensures |r| == Min(|history| + 1, HistoryCap) && |r| <= HistoryCap
    ensures r[|r| - 1] == entry
    ensures r == (history + [entry])[|history| + 1 - |r|..]
  {
    LastN(history + [entry], HistoryCap)
  }

  /** The storage maps after a save made in a browser: only the log's key changes. */
  function SaveInto(lists: map<string, seq<MoodEntry>>, entry: MoodEntry): (r: map<string, seq<MoodEntry>>)
    ensures forall k :: k != MoodHistoryKey ==> ListAt(r, k) == ListAt(lists, k)
    ensures ListAt(r, MoodHistoryKey) == Saved(ListAt(lists, MoodHistoryKey), entry)
  {
    lists[MoodHistoryKey := Saved(ListAt(lists, MoodHistoryKey), entry)]
  }

  /** `saveMoodEntry`: append, keep the last hundred, write back; nothing outside a browser. */
  method SaveMoodEntry(store: LocalStorage, entry: MoodEntry)
    modifies store
    ensures store.inBrowser ==> store.moodLists == SaveInto(old(store.moodLists), entry)
    ensures !store.inBrowser ==> store.moodLists == old(store.moodLists)
    ensures store.interactionLists == old(store.interactionLists)
  {
    if !store.inBrowser {
      return;
    }
    var history := GetMoodHistory(store);
    history := history + [entry];
    var trimmed := LastN(history, HistoryCap);
    store.SetMoodList(MoodHistoryKey, trimmed);
  }

  /** The log after saving `entries` one at a time, oldest first. */
  function SaveAll(history: seq<MoodEntry>, entries: seq<MoodEntry>): seq<MoodEntry>
    decreases |entries|
  {
    if entries == [] then history else SaveAll(Saved(history, entries[0]), entries[1..])
  }

  /** Saving one at a time keeps exactly the last hundred of everything saved, in order. */
  lemma {:induction false} SaveAllKeepsLast(history: seq<MoodEntry>, entries: seq<MoodEntry>)
    requires entries != []
    ensures SaveAll(history, entries) == LastN(history + entries, HistoryCap)
    decreases |entries|
  {
    var e := entries[0];
    var rest := entries[1..];
    assert entries == [e] + rest;
    assert history + entries == (history + [e]) + rest;
    if rest == [] {
      assert SaveAll(Saved(history, e), rest) == Saved(history, e);
    } else {
      SaveAllKeepsLast(Saved(history, e), rest);
      LastNOfAppend(history + [e], rest, HistoryCap);
    }
  }

  /** From an empty log, saving 150 entries leaves entries 51 to 150, oldest first. */
  lemma SaveHundredFifty(entries: seq<MoodEntry>)
    requires |entries| == 150
    ensures SaveAll([], entries) == entries[50..]
  {
    var none: seq<MoodEntry> := [];
    SaveAllKeepsLast(none, entries);
    assert none + entries == entries;
  }

  // ---------------------------------------------------------------------------------------------
  // The analysis window and averages
  // ---------------------------------------------------------------------------------------------

  /** `history.filter(entry => new Date(entry.timestamp) >= cutoffDate)`. */
  function Window(history: seq<MoodEntry>, cutoff: int): (r: seq<MoodEntry>)
    ensures |r| <= |history|
    ensures forall e :: e in r <==> e in history && e.timestamp >= cutoff
    decreases |history|
  {
    if history == [] then []
    else
      var rest := Window(history[..|history| - 1], cutoff);
      var e := history[|history| - 1];
      assert history == history[..|history| - 1] + [e];
      if e.timestamp >= cutoff then rest + [e] else rest
  }

  /** Filtering distributes over concatenation, so the window keeps the log's order. */
  lemma {:induction false} WindowAppend(a: seq<MoodEntry>, b: seq<MoodEntry>, cutoff: int)
    ensures Window(a + b, cutoff) == Window(a, cutoff) + Window(b, cutoff)
    decreases |b|
  {
    if b == [] {
      assert a + b == a;
    } else {
      var b' := b[..|b| - 1];
      assert (a + b)[..|a + b| - 1] == a + b';
      WindowAppend(a, b', cutoff);
    }
  }

  /** The sum of the intensities. */
  function Sum(es: seq<MoodEntry>): real
    decreases |es|
  {
    if es == [] then 0.0 else Sum(es[..|es| - 1]) + es[|es| - 1].intensity
  }

  /** `reduce(sum) / (length || 1)`: an empty list averages 0. */
  function HalfMean(es: seq<MoodEntry>): real {
    Sum(es) / (if |es| == 0 then 1 else |es|) as real
  }

  /** Intensities within bounds give a sum within the matching bounds. */
  lemma {:induction false} SumBounds(es: seq<MoodEntry>, lo: real, hi: real)
    requires forall k :: 0 <= k < |es| ==> lo <= es[k].intensity <= hi
    ensures lo * |es| as real <= Sum(es) <= hi * |es| as real
    decreases |es|
  {
    if es != [] {
      SumBounds(es[..|es| - 1], lo, hi);
      assert lo <= es[|es| - 1].intensity <= hi;
    }
  }

  /** When every intensity is valid, so is the mean of a non-empty list. */
  lemma MeanBounds(es: seq<MoodEntry>)
    requires |es| > 0 && AllValid(es)
    ensures 1.0 <= Sum(es) / |es| as real <= 10.0
  {
    SumBounds(es, 1.0, 10.0);
    DivideBounds(Sum(es), |es| as real, 1.0, 10.0);
  }

  lemma DivideBounds(x: real, n: real, lo: real, hi: real)
    requires n > 0.0 && lo * n <= x <= hi * n
    ensures lo <= x / n <= hi
  {
    assert x / n * n == x;
  }

  /** `Math.round(x * 10) / 10`: round half up to one decimal. */
  function RoundTenth(x: real): (r: real)
    ensures x - 0.05 < r <= x + 0.05
    ensures (r * 10.0).Floor as real == r * 10.0
  {
    (x * 10.0 + 0.5).Floor as real / 10.0
  }

  /** Rounding keeps a value of [1, 10] inside [1, 10]. */
  lemma RoundTenthBounds(x: real)
    requires 1.0 <= x <= 10.0
    ensures 1.0 <= RoundTenth(x) <= 10.0
  {
    var f := (x * 10.0 + 0.5).Floor;
    assert 10 <= f by {
      assert 10.0 <= x * 10.0 + 0.5;
    }
    assert f <= 100 by {
      assert x * 10.0 + 0.5 < 101.0;
    }
  }

  // ---------------------------------------------------------------------------------------------
  // The dominant mood
  // ---------------------------------------------------------------------------------------------

  /** How many entries have mood `m`. */
  function Count(es: seq<MoodEntry>, m: Mood): nat
    decreases |es|
  {
    if es == [] then 0
    else Count(es[..|es| - 1], m) + (if es[|es| - 1].mood == m then 1 else 0)
  }

  /** The moods of `es`, each once, in order of first appearance: the `moodCounts` key order. */
  function FirstSeen(es: seq<MoodEntry>): (r: seq<Mood>)
    ensures forall m :: m in r <==> Count(es, m) > 0
    ensures forall i, j :: 0 <= i < j < |r| ==> r[i] != r[j]
    decreases |es|
  {
    if es == [] then []
    else
      var ks := FirstSeen(es[..|es| - 1]);
      var m := es[|es| - 1].mood;
      if m in ks then ks else ks + [m]
  }

  /** `sort` by descending count then `[0]`: the stable sort puts the first greatest count first. */
  function BestOf(ks: seq<Mood>, es: seq<MoodEntry>): (m: Mood)
    requires ks != []
    ensures m in ks
    decreases |ks|
  {
    if |ks| == 1 then ks[0]
    else
      var b := BestOf(ks[..|ks| - 1], es);
      var last := ks[|ks| - 1];
      if Count(es, last) > Count(es, b) then last else b
  }

  /** The first-best key has a count no other key beats, and every key before it has less. */
  lemma {:induction false} BestOfIsFirstMax(ks: seq<Mood>, es: seq<MoodEntry>)
    requires ks != [] && forall i, j :: 0 <= i < j < |ks| ==> ks[i] != ks[j]
    ensures forall k :: 0 <= k < |ks| ==> Count(es, ks[k]) <= Count(es, BestOf(ks, es))
    ensures forall k :: 0 <= k < |ks| && ks[k] != BestOf(ks, es) && Count(es, ks[k]) == Count(es, BestOf(ks, es))
              ==> exists j :: 0 <= j < k && ks[j] == BestOf(ks, es)
    decreases |ks|
  {
    if |ks| > 1 {
      var init := ks[..|ks| - 1];
      BestOfIsFirstMax(init, es);
      var b := BestOf(init, es);
      assert forall k :: 0 <= k < |init| ==> init[k] == ks[k];
      var last := ks[|ks| - 1];
      if Count(es, last) <= Count(es, b) {
        assert b in init;
        var j :| 0 <= j < |init| && init[j] == b;
        assert j < |ks| - 1 && ks[j] == b;
      }
    }
  }

  /** The dominant mood of a non-empty window. */
  function DominantOf(es: seq<MoodEntry>): (m: Mood)
    requires es != []
    ensures Count(es, m) > 0
  {
    assert Count(es, es[|es| - 1].mood) > 0;
    BestOf(FirstSeen(es), es)
  }

  /**
   * The dominant mood occurs at least as often as any other, and a mood with the same count
   * was seen later: ties go to the mood seen first.
   */
  lemma DominantIsFirstMax(es: seq<MoodEntry>, m: Mood)
    requires es != []
    ensures Count(es, m) <= Count(es, DominantOf(es))
    ensures m != DominantOf(es) && Count(es, m) == Count(es, DominantOf(es)) ==>
              FirstSeenBefore(es, DominantOf(es), m)
  {
    var ks := FirstSeen(es);
    BestOfIsFirstMax(ks, es);
    if Count(es, m) > 0 {
      var k :| 0 <= k < |ks| && ks[k] == m;
    }
  }

  /** `a` appears in `es` before the first appearance of `b`. */
  predicate FirstSeenBefore(es: seq<MoodEntry>, a: Mood, b: Mood) {
    var ks := FirstSeen(es);
    exists i, j :: 0 <= i < j < |ks| && ks[i] == a && ks[j] == b
  }

  // ---------------------------------------------------------------------------------------------
  // The trend and the insights
  // ---------------------------------------------------------------------------------------------

  datatype Trend = Improving | Declining | Stable

  function TrendName(t: Trend): string {
    match t
    case Improving => "improving"
    case Declining => "declining"
    case Stable => "stable"
  }

  /** The halves split at `floor(n / 2)`; improving or declining past a margin of 1. */
  function TrendOf(es: seq<MoodEntry>): (t: Trend)
    ensures var first := HalfMean(es[..|es| / 2]); var second := HalfMean(es[|es| / 2..]);
      && (t == Improving <==> second > first + 1.0)
      && (t == Declining <==> second < first - 1.0)
  {
    var h := |es| / 2;
    var first := HalfMean(es[..h]);
    var second := HalfMean(es[h..]);
    if second > first + 1.0 then Improving else if second < first - 1.0 then Declining else Stable
  }

  /** A single entry leaves the first half empty, averaging 0: above 1 it is "improving". */
  lemma SingleEntryTrend(e: MoodEntry)
    ensures TrendOf([e]) == (if e.intensity > 1.0 then Improving else if e.intensity < -1.0 then Declining else Stable)
    ensures ValidEntry(e) ==> (TrendOf([e]) == Improving <==> e.intensity > 1.0)
  {
    assert [e][..0] == [];
    assert [e][0..] == [e];
    assert Sum([e]) == Sum([e][..0]) + e.intensity;
  }

  /** An entry with no activities and no notes. */
  function At(t: int, m: Mood, x: real): MoodEntry {
    MoodEntry(t, m, x, None, None)
  }

  /** Three entries at 2 then three at 8 trend up; reversed, they trend down. */
  lemma SixEntryTrends(m: Mood)
    ensures TrendOf([At(1, m, 2.0), At(2, m, 2.0), At(3, m, 2.0), At(4, m, 8.0), At(5, m, 8.0), At(6, m, 8.0)]) == Improving
    ensures TrendOf([At(1, m, 8.0), At(2, m, 8.0), At(3, m, 8.0), At(4, m, 2.0), At(5, m, 2.0), At(6, m, 2.0)]) == Declining
  {
    var up := [At(1, m, 2.0), At(2, m, 2.0), At(3, m, 2.0), At(4, m, 8.0), At(5, m, 8.0), At(6, m, 8.0)];
    assert up[..3] == [At(1, m, 2.0), At(2, m, 2.0), At(3, m, 2.0)];
    assert up[3..] == [At(4, m, 8.0), At(5, m, 8.0), At(6, m, 8.0)];
    ThreeSum(At(1, m, 2.0), At(2, m, 2.0), At(3, m, 2.0));
    ThreeSum(At(4, m, 8.0), At(5, m, 8.0), At(6, m, 8.0));
    var down := [At(1, m, 8.0), At(2, m, 8.0), At(3, m, 8.0), At(4, m, 2.0), At(5, m, 2.0), At(6, m, 2.0)];
    assert down[..3] == [At(1, m, 8.0), At(2, m, 8.0), At(3, m, 8.0)];
    assert down[3..] == [At(4, m, 2.0), At(5, m, 2.0), At(6, m, 2.0)];
    ThreeSum(At(1, m, 8.0), At(2, m, 8.0), At(3, m, 8.0));
    ThreeSum(At(4, m, 2.0), At(5, m, 2.0), At(6, m, 2.0));
  }

  lemma ThreeSum(a: MoodEntry, b: MoodEntry, c: MoodEntry)
    ensures Sum([a, b, c]) == a.intensity + b.intensity + c.intensity
  {
    assert [a, b, c][..2] == [a, b];
    assert [a, b][..1] == [a];
    assert [a][..0] == [];
    assert Sum([a]) == a.intensity;
    assert Sum([a, b]) == a.intensity + b.intensity;
  }

  const ImprovingInsight: string := "Your mood has been trending positively " + "- great work! \U{1F31F}"
  const DecliningInsight: string :=
    "Your mood has been trending down. " + "Consider reaching out to a friend or professional."
  const AnxietyInsight: string :=
    "You've experienced anxiety recently. " + "Try breathing exercises or grounding techniques."
  const IntensityInsight: string :=
    "You've been experiencing intense emotions. " + "Remember to practice self-compassion."
  const KeepTrackingInsight: string := "Keep tracking your mood daily for more detailed insights."
  const StartTrackingInsight: string := "Start tracking your mood to see patterns over time"

  /** The insights, pushed in a fixed order, each under its own condition. */
  function InsightsFor(trend: Trend, dominant: Mood, average: real, n: nat): seq<string> {
    TrendInsights(trend) + AnxietyInsights(dominant) + IntensityInsights(average) + TrackingInsights(n)
  }

  function TrendInsights(trend: Trend): seq<string> {
    if trend == Improving then [ImprovingInsight] else if trend == Declining then [DecliningInsight] else []
  }

  function AnxietyInsights(dominant: Mood): seq<string> {
    if dominant == Anxious || dominant == Stressed then [AnxietyInsight] else []
  }

  function IntensityInsights(average: real): seq<string> {
    if average > 7.0 then [IntensityInsight] else []
  }

  function TrackingInsights(n: nat): seq<string> {
    if n < 3 then [KeepTrackingInsight] else []
  }

  /**
   * At most one trend message, and it comes first; each other message appears exactly under its
   * own condition, and the short-history message comes last.
   */
  lemma InsightOrder(trend: Trend, dominant: Mood, average: real, n: nat)
    ensures var r := InsightsFor(trend, dominant, average, n);
      && |r| <= 4
      && (ImprovingInsight in r <==> trend == Improving)
      && (DecliningInsight in r <==> trend == Declining)
      && (AnxietyInsight in r <==> dominant == Anxious || dominant == Stressed)
      && (IntensityInsight in r <==> average > 7.0)
      && (KeepTrackingInsight in r <==> n < 3)
      && (trend == Improving ==> r[0] == ImprovingInsight)
      && (trend == Declining ==> r[0] == DecliningInsight)
      && (n < 3 ==> r[|r| - 1] == KeepTrackingInsight)
  {
    var r := InsightsFor(trend, dominant, average, n);
    assert ImprovingInsight != DecliningInsight && ImprovingInsight != AnxietyInsight
      && ImprovingInsight != IntensityInsight && ImprovingInsight != KeepTrackingInsight;
    assert DecliningInsight != AnxietyInsight && DecliningInsight != IntensityInsight
      && DecliningInsight != KeepTrackingInsight;
    assert KeepTrackingInsight != AnxietyInsight && KeepTrackingInsight != IntensityInsight;
    assert AnxietyInsight != IntensityInsight;
  }

  // ---------------------------------------------------------------------------------------------
  // The analysis
  // ---------------------------------------------------------------------------------------------

  /**
   * The analysis result. `entriesCount` is absent from the empty-window result; `dominantMood`
   * is a mood's name or "neutral".
   */
  datatype Analysis = Analysis(
    averageIntensity: real,
    dominantMood: string,
    trend: Trend,
    insights: seq<string>,
    entriesCount: Option<nat>)

  const EmptyAnalysis: Analysis := Analysis(0.0, "neutral", Stable, [StartTrackingInsight], None)

  /** `analyzeMoodPatterns` on a log, the cutoff instant given. */
  function AnalysisOf(history: seq<MoodEntry>, cutoff: int): (a: Analysis)
    ensures a.entriesCount.None? <==> Window(history, cutoff) == []
    ensures a.entriesCount.Some? ==> a.entriesCount.value == |Window(history, cutoff)|
    ensures a.entriesCount.None? ==> a == EmptyAnalysis
  {
    var w := Window(history, cutoff);
    if w == [] then EmptyAnalysis
    else
      var average := Sum(w) / |w| as real;
      var dominant := DominantOf(w);
      var trend := TrendOf(w);
      Analysis(RoundTenth(average), MoodName(dominant), trend, InsightsFor(trend, dominant, average, |w|), Some(|w|))
  }

  /** With valid entries, a non-empty window's reported average lies in [1, 10]. */
  lemma AverageInRange(history: seq<MoodEntry>, cutoff: int)
    requires AllValid(history) && Window(history, cutoff) != []
    ensures 1.0 <= AnalysisOf(history, cutoff).averageIntensity <= 10.0
  {
    var w := Window(history, cutoff);
    assert AllValid(w) by {
      forall k | 0 <= k < |w| ensures ValidEntry(w[k]) {
        assert w[k] in history;
      }
    }
    MeanBounds(w);
    RoundTenthBounds(Sum(w) / |w| as real);
  }

  /** A non-empty window's dominant mood is a maximal-count mood seen first among its ties. */
  lemma DominantMoodOfAnalysis(history: seq<MoodEntry>, cutoff: int, m: Mood)
    requires Window(history, cutoff) != []
    ensures var w := Window(history, cutoff); var d := DominantOf(w);
      && AnalysisOf(history, cutoff).dominantMood == MoodName(d)
      && Count(w, m) <= Count(w, d)
      && (m != d && Count(w, m) == Count(w, d) ==> FirstSeenBefore(w, d, m))
  {
    DominantIsFirstMax(Window(history, cutoff), m);
  }

  /** The `forEach` that fills `moodCounts`; `keys` records the object's key insertion order. */
  method CountMoods(w: seq<MoodEntry>) returns (counts: map<Mood, nat>, keys: seq<Mood>)
    ensures keys == FirstSeen(w)
    ensures forall m :: m in counts <==> Count(w, m) > 0
    ensures forall m :: m in counts ==> counts[m] == Count(w, m)
  {
    counts := map[];
    keys := [];
    var i := 0;
    while i < |w|
      invariant 0 <= i <= |w|
      invariant keys == FirstSeen(w[..i])
      invariant forall m :: m in counts <==> m in keys
      invariant forall m :: m in counts ==> counts[m] == Count(w[..i], m)
    {
      assert w[..i + 1][..i] == w[..i];
      var m := w[i].mood;
      if m in counts {
        counts := counts[m := counts[m] + 1];
      } else {
        counts := counts[m := 1];
        keys := keys + [m];
      }
      i := i + 1;
    }
    assert w[..|w|] == w;
  }

  /** `Object.entries(moodCounts).sort(byCountDescending)[0]`: the first key of greatest count. */
  method PickDominant(keys: seq<Mood>, counts: map<Mood, nat>, w: seq<MoodEntry>) returns (best: Mood)
    requires keys != [] && forall m :: m in keys ==> m in counts && counts[m] == Count(w, m)
    ensures best == BestOf(keys, w)
  {
    best := keys[0];
    var j := 1;
    while j < |keys|
      invariant 1 <= j <= |keys|
      invariant best == BestOf(keys[..j], w) && best in keys
    {
      assert keys[..j + 1][..j] == keys[..j];
      if counts[keys[j]] > counts[best] {
        best := keys[j];
      }
      j := j + 1;
    }
    assert keys[..|keys|] == keys;
  }

  /** The `insights.push` sequence. */
  method PushInsights(trend: Trend, dominant: Mood, average: real, n: nat) returns (insights: seq<string>)
    ensures insights == InsightsFor(trend, dominant, average, n)
  {
    insights := [];
    if trend == Improving {
      insights := insights + [ImprovingInsight];
    } else if trend == Declining {
      insights := insights + [DecliningInsight];
    }
    assert insights == TrendInsights(trend);
    if dominant == Anxious || dominant == Stressed {
      insights := insights + [AnxietyInsight];
    }
    assert insights == TrendInsights(trend) + AnxietyInsights(dominant);
    if average > 7.0 {
      insights := insights + [IntensityInsight];
    }
    assert insights == TrendInsights(trend) + AnxietyInsights(dominant) + IntensityInsights(average);
    if n < 3 {
      insights := insights + [KeepTrackingInsight];
    }
  }

  /** `analyzeMoodPatterns` on the stored log. */
  method AnalyzeMoodPatterns(store: LocalStorage, cutoff: int) returns (a: Analysis)
    ensures a == AnalysisOf(GetMoodHistory(store), cutoff)
  {
    var w := Window(GetMoodHistory(store), cutoff);
    if |w| == 0 {
      return EmptyAnalysis;
    }
    var average := Sum(w) / |w| as real;
    var counts, keys := CountMoods(w);
    assert Count(w, w[0].mood) > 0 by {
      assert w[0] in w;
      CountPositive(w, w[0]);
    }
    var best := PickDominant(keys, counts, w);
    var trend := TrendOf(w);
    var insights := PushInsights(trend, best, average, |w|);
    a := Analysis(RoundTenth(average), MoodName(best), trend, insights, Some(|w|));
  }

  /** A mood that occurs in the list has a positive count. */
  lemma {:induction false} CountPositive(es: seq<MoodEntry>, e: MoodEntry)
    requires e in es
    ensures Count(es, e.mood) > 0
    decreases |es|
  {
    if es[|es| - 1] != e {
      assert es == es[..|es| - 1] + [es[|es| - 1]];
      CountPositive(es[..|es| - 1], e);
    }
  }

  // ---------------------------------------------------------------------------------------------
  // Journal prompts
  // ---------------------------------------------------------------------------------------------

  const AnxiousPrompts: seq<string> := [
    "What specific thoughts are making you feel anxious right now?",
    "What is one thing within your control that you can focus on?",
    "Describe a time when you overcame a similar feeling."]
  const SadPrompts: seq<string> := [
    "What emotions are you feeling beneath the sadness?",
    "What would you say to a friend feeling this way?",
    "What small act of self-care could you do right now?"]
  const JoyfulPrompts: seq<string> := [
    "What contributed to this positive feeling?",
    "How can you capture this moment to revisit later?",
    "Who could you share this joy with?"]
  const OverwhelmedPrompts: seq<string> := [
    "What is one small task you could complete right now?",
    "What can you let go of or delegate?",
    "What does your mind and body need most in this moment?"]
  const CalmPrompts: seq<string> := [
    "What helped you reach this state of calm?",
    "What are you grateful for in this moment?",
    "How can you carry this feeling forward?"]

  /**
   * `prompts[mood] || prompts.calm` on the tool's eight moods: four have their own list, and the
   * other four fall back to calm's.
   */
  function GetJournalPrompts(mood: Mood): (r: seq<string>)
    ensures |r| == 3
    ensures mood == Anxious ==> r == AnxiousPrompts
    ensures mood == Sad ==> r == SadPrompts
    ensures mood == Joyful ==> r == JoyfulPrompts
    ensures mood == Overwhelmed ==> r == OverwhelmedPrompts
    ensures mood !in {Anxious, Sad, Joyful, Overwhelmed} ==> r == CalmPrompts
  {
    match mood
    case Anxious => AnxiousPrompts
    case Sad => SadPrompts
    case Joyful => JoyfulPrompts
    case Overwhelmed => OverwhelmedPrompts
    case _ => CalmPrompts
  }

  /**
   * Of the tool's eight moods, stressed, angry and peaceful get the calm prompts; the four moods
   * with their own list get four different lists.
   */
  lemma PromptsForMoods(m: Mood, n: Mood)
    ensures GetJournalPrompts(m) == CalmPrompts <==> m in {Calm, Stressed, Angry, Peaceful}
    ensures GetJournalPrompts(m) == GetJournalPrompts(n) <==>
      m == n || (m in {Calm, Stressed, Angry, Peaceful} && n in {Calm, Stressed, Angry, Peaceful})
  {
    assert AnxiousPrompts[0] != CalmPrompts[0] && SadPrompts[0] != CalmPrompts[0];
    assert JoyfulPrompts[0] != CalmPrompts[0] && OverwhelmedPrompts[0] != CalmPrompts[0];
    assert AnxiousPrompts[0] != SadPrompts[0] && AnxiousPrompts[0] != JoyfulPrompts[0];
    assert AnxiousPrompts[0] != OverwhelmedPrompts[0] && SadPrompts[0] != JoyfulPrompts[0];
    assert SadPrompts[0] != OverwhelmedPrompts[0] && JoyfulPrompts[0] != OverwhelmedPrompts[0];
  }
}

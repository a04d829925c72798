/**
 * The text-to-widget decision engine: the rule-based fallback selector, the orchestration of the
 * language-model selector around it, and the table of renderable component names.
 */
module ComponentSelector {
  import opened Common
  import opened Strings

  // ---------------------------------------------------------------------------------------------
  // Selections
  // ---------------------------------------------------------------------------------------------

  /** A prop value handed to a widget: the rules only ever use numbers and strings. */
  datatype PropValue = NumberProp(n: int) | TextProp(s: string)

  /** One widget to render, with its props and the reason it was chosen (`ComponentSelection`). */
  datatype Selection = Selection(componentName: string, props: map<string, PropValue>, reasoning: string)

  const CrisisSel := Selection("CrisisResources", map[], "Crisis keywords detected")
  const BreathingSel :=
    Selection("BreathingExercise", map["duration" := NumberProp(180), "intensity" := TextProp("medium")],
              "Anxiety detected")
  const GroundingSel := Selection("AnxietyGrounding", map[], "Additional anxiety support")
  const SleepSel := Selection("SleepWindDown", map[], "Sleep issues detected")
  const SleepMeditationSel :=
    Selection("MeditationGuide", map["style" := TextProp("sleep"), "duration" := NumberProp(10)], "Sleep meditation")
  const SadJournalSel := Selection("JournalPrompt", map["mood" := TextProp("sad")], "Processing sadness")
  const AffirmationsSel := Selection("Affirmations", map["mood" := TextProp("sad")], "Uplifting support")
  const DashboardSel := Selection("MoodDashboard", map[], "Progress requested")
  const StreamJournalSel := Selection("JournalPrompt", map["style" := TextProp("stream")], "Journaling requested")
  const MoodTrackerSel := Selection("MoodTracker", map[], "Default check-in")

  // ---------------------------------------------------------------------------------------------
  // Keyword rules
  // ---------------------------------------------------------------------------------------------

  const CrisisKeywords: seq<string> :=
    ["suicide", "kill myself", "end it", "self-harm", "hurt myself", "die", "don't want to be here"]

  /** Some crisis keyword occurs in `lower`, written out keyword by keyword. */
  predicate CrisisIn(lower: string) {
    Contains(lower, "suicide") || Contains(lower, "kill myself") || Contains(lower, "end it")
    || Contains(lower, "self-harm") || Contains(lower, "hurt myself") || Contains(lower, "die")
    || Contains(lower, "don't want to be here")
  }

  /** The written-out test is `crisisKeywords.some(keyword => lower.includes(keyword))`. */
  lemma CrisisInIsSome(lower: string)
    ensures CrisisIn(lower) <==> exists i :: 0 <= i < |CrisisKeywords| && Contains(lower, CrisisKeywords[i])
  {
    if CrisisIn(lower) {
      var i := if Contains(lower, "suicide") then 0 else if Contains(lower, "kill myself") then 1
        else if Contains(lower, "end it") then 2 else if Contains(lower, "self-harm") then 3
        else if Contains(lower, "hurt myself") then 4 else if Contains(lower, "die") then 5 else 6;
      assert Contains(lower, CrisisKeywords[i]);
    }
  }

  /** The five non-crisis rules, in the order the selector tries them. */
  datatype Category = Anxiety | Sleep | Sadness | Progress | Journaling

  const Categories: seq<Category> := [Anxiety, Sleep, Sadness, Progress, Journaling]

  /**
   * The rule's regular expression matches `lower`. Each is an alternation of plain literals, so a
   * match is an occurrence of one of the alternatives.
   */
  predicate Matches(lower: string, c: Category) {
    match c
    case Anxiety =>
      Contains(lower, "anxious") || Contains(lower, "anxiety") || Contains(lower, "panic")
      || Contains(lower, "nervous") || Contains(lower, "worried") || Contains(lower, "stress")
    case Sleep =>
      Contains(lower, "sleep") || Contains(lower, "insomnia") || Contains(lower, "can't sleep")
      || Contains(lower, "tired") || Contains(lower, "rest")
    case Sadness =>
      Contains(lower, "sad") || Contains(lower, "depressed") || Contains(lower, "down")
      || Contains(lower, "hopeless") || Contains(lower, "lonely")
    case Progress =>
      Contains(lower, "progress") || Contains(lower, "dashboard") || Contains(lower, "history")
      || Contains(lower, "track") || Contains(lower, "stats")
    case Journaling =>
      Contains(lower, "journal") || Contains(lower, "write") || Contains(lower, "reflect")
      || Contains(lower, "process")
  }

  /** The selections a matching rule contributes, in push order. */
  function Picks(c: Category): (r: seq<Selection>)
    ensures 1 <= |r| <= 2
  {
    match c
    case Anxiety => [BreathingSel, GroundingSel]
    case Sleep => [SleepSel, SleepMeditationSel]
    case Sadness => [SadJournalSel, AffirmationsSel]
    case Progress => [DashboardSel]
    case Journaling => [StreamJournalSel]
  }

  /** Which rules fired on a lowercased message. */
  datatype Triggers = Triggers(crisis: bool, matched: set<Category>)

  function TriggersOf(lower: string): (t: Triggers)
    ensures t.crisis <==> CrisisIn(lower)
    ensures forall c :: c in t.matched <==> Matches(lower, c)
  {
    Triggers(CrisisIn(lower), set c | c in Categories && Matches(lower, c))
  }

  /** The picks of `c` if it matched, else nothing. */
  function PicksIf(matched: set<Category>, c: Category): seq<Selection> {
    if c in matched then Picks(c) else []
  }

  /** The picks of the matched categories, rule after rule, with no deduplication. */
  function CategoryPicks(matched: set<Category>): seq<Selection> {
    PicksIf(matched, Anxiety) + PicksIf(matched, Sleep) + PicksIf(matched, Sadness)
    + PicksIf(matched, Progress) + PicksIf(matched, Journaling)
  }

  /** The selection rule on the fired triggers. */
  function Decide(t: Triggers): seq<Selection> {
    if t.crisis then [CrisisSel]
    else
      var picks := CategoryPicks(t.matched);
      if picks == [] then [MoodTrackerSel] else picks
  }

  /** What `fallbackComponentSelection` returns for `message`. */
  function FallbackSelection(message: string): (r: seq<Selection>)
    ensures r != []
    ensures r[0] == CrisisSel <==> CrisisIn(ToLower(message))
  {
    Decide(TriggersOf(ToLower(message)))
  }

  /** Pushes the selections rule by rule, as `fallbackComponentSelection` does. */
  method FallbackComponentSelection(message: string) returns (components: seq<Selection>)
    ensures components == FallbackSelection(message)
  {
    var lowerMessage := ToLower(message);
    ghost var m := TriggersOf(lowerMessage).matched;
    components := [];
    if CrisisIn(lowerMessage) {
      components := components + [CrisisSel];
      return;
    }
    if Matches(lowerMessage, Anxiety) {
      components := components + [BreathingSel];
      components := components + [GroundingSel];
    }
    assert components == PicksIf(m, Anxiety);
    if Matches(lowerMessage, Sleep) {
      components := components + [SleepSel];
      components := components + [SleepMeditationSel];
    }
    assert components == PicksIf(m, Anxiety) + PicksIf(m, Sleep);
    if Matches(lowerMessage, Sadness) {
      components := components + [SadJournalSel];
      components := components + [AffirmationsSel];
    }
    assert components == PicksIf(m, Anxiety) + PicksIf(m, Sleep) + PicksIf(m, Sadness);
    if Matches(lowerMessage, Progress) {
      components := components + [DashboardSel];
    }
    if Matches(lowerMessage, Journaling) {
      components := components + [StreamJournalSel];
    }
    assert components == CategoryPicks(m);
    if |components| == 0 {
      components := components + [MoodTrackerSel];
    }
  }

  // ---------------------------------------------------------------------------------------------
  // Properties of the fallback selector
  // ---------------------------------------------------------------------------------------------

  /** A crisis keyword anywhere in the lowercased text yields exactly `[CrisisResources]`, with empty props. */
  lemma CrisisShortCircuits(message: string)
    requires CrisisIn(ToLower(message))
    ensures FallbackSelection(message) == [CrisisSel]
    ensures CrisisSel.props == map[]
  {
  }

  /** Without a crisis keyword, no selection names `CrisisResources`. */
  lemma NoCrisisNoCrisisResources(message: string)
    requires !CrisisIn(ToLower(message))
    ensures forall s :: s in FallbackSelection(message) ==> s.componentName != "CrisisResources"
  {
    var m := TriggersOf(ToLower(message)).matched;
    forall c | true ensures forall s :: s in PicksIf(m, c) ==> s.componentName != "CrisisResources" {
    }
  }

  /** The result is never empty and holds at most eight selections. */
  lemma FallbackSize(message: string)
    ensures 1 <= |FallbackSelection(message)| <= 8
  {
  }

  /** `MoodTracker` is chosen exactly when nothing matched, and then it stands alone. */
  lemma MoodTrackerOnlyAlone(message: string)
    ensures var r := FallbackSelection(message);
            var lower := ToLower(message);
            && (MoodTrackerSel in r <==> !CrisisIn(lower) && forall c: Category :: !Matches(lower, c))
            && (MoodTrackerSel in r ==> r == [MoodTrackerSel])
  {
    var lower := ToLower(message);
    var t := TriggersOf(lower);
    if t.crisis {
      assert FallbackSelection(message) == [CrisisSel];
    } else {
      var m := t.matched;
      forall c | true ensures MoodTrackerSel !in PicksIf(m, c) && (c in m ==> PicksIf(m, c) != []) {
      }
      assert FallbackSelection(message) == Decide(t);
    }
  }

  /**
   * Without a crisis keyword, each rule's first pick is present exactly when that rule's
   * category matched: the five rules act independently, in a fixed order.
   */
  lemma RulesIndependent(message: string, c: Category)
    requires !CrisisIn(ToLower(message))
    ensures Picks(c)[0] in FallbackSelection(message) <==> Matches(ToLower(message), c)
  {
    var m := TriggersOf(ToLower(message)).matched;
    forall d | d != c ensures Picks(c)[0] !in Picks(d) {
    }
    assert Picks(c)[0] != MoodTrackerSel;
  }

  /** There is no deduplication: a sad message asking to journal gets two `JournalPrompt` selections. */
  lemma JournalPromptTwice(message: string)
    requires !CrisisIn(ToLower(message))
    requires Matches(ToLower(message), Sadness) && Matches(ToLower(message), Journaling)
    ensures SadJournalSel in FallbackSelection(message) && StreamJournalSel in FallbackSelection(message)
    ensures SadJournalSel != StreamJournalSel
    ensures SadJournalSel.componentName == StreamJournalSel.componentName == "JournalPrompt"
  {
    RulesIndependent(message, Sadness);
    RulesIndependent(message, Journaling);
  }

  // ---------------------------------------------------------------------------------------------
  // The two demo sentences through the fallback selector. A keyword is absent when one of its
  // characters is not in the sentence or two of its adjacent characters are never adjacent there;
  // each sentence is given in short pieces because the solver reads a short literal at once.
  // ---------------------------------------------------------------------------------------------

  /** The anxiety demo sentence, in four pieces the solver can read one at a time. */
  function AnxiousDemoText(): string { "I'm feeling " + "really anxious " + "and my heart " + "is racing" }

  /** The same sentence after `toLowerCase`. */
  function AnxiousDemoLower(): string { "i'm feeling " + "really anxious " + "and my heart " + "is racing" }

  /** The characters of the lowered sentence. */
  const AnxiousDemoChars: set<char> := {'i', '\'', 'm', ' ', 'f', 'e', 'l', 'n', 'g', 'r', 'a', 'y', 'x', 'o', 'u', 's', 'd', 'h', 't', 'c'}

  lemma AnxiousDemoLowered()
    ensures ToLower(AnxiousDemoText()) == AnxiousDemoLower()
  {
    ToLowerAppend("I'm feeling " + "really anxious " + "and my heart ", "is racing");
    ToLowerAppend("I'm feeling " + "really anxious ", "and my heart ");
    ToLowerAppend("I'm feeling ", "really anxious ");
    assert ToLower("I'm feeling ") == "i'm feeling " && ToLower("really anxious ") == "really anxious ";
    assert ToLower("and my heart ") == "and my heart " && ToLower("is racing") == "is racing";
  }

  lemma AnxiousDemoCharset()
    ensures CharsIn(AnxiousDemoLower(), AnxiousDemoChars)
  {
    CharsInJoin("i'm feeling ", "really anxious ", "and my heart ", "is racing", AnxiousDemoChars);
  }

  lemma AnxiousDemoCrisisPairs1()
    ensures NoPair(AnxiousDemoLower(), 's', 'u') && NoPair(AnxiousDemoLower(), 'e', 'n')
  {
    NoPairJoin("i'm feeling ", "really anxious ", "and my heart ", "is racing", 's', 'u');
    NoPairJoin("i'm feeling ", "really anxious ", "and my heart ", "is racing", 'e', 'n');
  }

  lemma AnxiousDemoCrisisPairs2()
    ensures NoPair(AnxiousDemoLower(), 'h', 'u') && NoPair(AnxiousDemoLower(), 'd', 'i')
  {
    NoPairJoin("i'm feeling ", "really anxious ", "and my heart ", "is racing", 'h', 'u');
    NoPairJoin("i'm feeling ", "really anxious ", "and my heart ", "is racing", 'd', 'i');
  }

  lemma AnxiousDemoNoCrisis(lower: string)
    requires CharsIn(lower, AnxiousDemoChars)
    requires NoPair(lower, 's', 'u')
    requires NoPair(lower, 'e', 'n')
    requires NoPair(lower, 'h', 'u')
    requires NoPair(lower, 'd', 'i')
    ensures !CrisisIn(lower)
  {
    PairAbsent(lower, "suicide", 0);
    CharOutside(lower, AnxiousDemoChars, "kill myself", 0);
    PairAbsent(lower, "end it", 0);
    CharOutside(lower, AnxiousDemoChars, "self-harm", 4);
    PairAbsent(lower, "hurt myself", 0);
    PairAbsent(lower, "die", 0);
    CharOutside(lower, AnxiousDemoChars, "don't want to be here", 6);
  }

  lemma AnxiousDemoAnxiety(lower: string)
    requires lower == AnxiousDemoLower()
    ensures Matches(lower, Anxiety)
  {
    OccursAtContains("really anxious ", "anxious", 7);
    ContainsInfix("i'm feeling ", "really anxious ", "and my heart " + "is racing", "anxious");
    assert "i'm feeling " + "really anxious " + ("and my heart " + "is racing") == lower;
  }

  lemma AnxiousDemoSleepPairs1()
    ensures NoPair(AnxiousDemoLower(), 'n', 's') && NoPair(AnxiousDemoLower(), 't', 'i')
  {
    NoPairJoin("i'm feeling ", "really anxious ", "and my heart ", "is racing", 'n', 's');
    NoPairJoin("i'm feeling ", "really anxious ", "and my heart ", "is racing", 't', 'i');
  }

  lemma AnxiousDemoSleepPairs2()
    ensures NoPair(AnxiousDemoLower(), 'e', 's')
  {
    NoPairJoin("i'm feeling ", "really anxious ", "and my heart ", "is racing", 'e', 's');
  }

  lemma AnxiousDemoNoSleep(lower: string)
    requires CharsIn(lower, AnxiousDemoChars)
    requires NoPair(lower, 'n', 's')
    requires NoPair(lower, 't', 'i')
    requires NoPair(lower, 'e', 's')
    ensures !Matches(lower, Sleep)
  {
    CharOutside(lower, AnxiousDemoChars, "sleep", 4);
    PairAbsent(lower, "insomnia", 1);
    CharOutside(lower, AnxiousDemoChars, "can't sleep", 10);
    PairAbsent(lower, "tired", 0);
    PairAbsent(lower, "rest", 1);
  }

  lemma AnxiousDemoSadnessPairs()
    ensures NoPair(AnxiousDemoLower(), 's', 'a') && NoPair(AnxiousDemoLower(), 'l', 'o')
  {
    NoPairJoin("i'm feeling ", "really anxious ", "and my heart ", "is racing", 's', 'a');
    NoPairJoin("i'm feeling ", "really anxious ", "and my heart ", "is racing", 'l', 'o');
  }

  lemma AnxiousDemoNoSadness(lower: string)
    requires CharsIn(lower, AnxiousDemoChars)
    requires NoPair(lower, 's', 'a')
    requires NoPair(lower, 'l', 'o')
    ensures !Matches(lower, Sadness)
  {
    PairAbsent(lower, "sad", 0);
    CharOutside(lower, AnxiousDemoChars, "depressed", 2);
    CharOutside(lower, AnxiousDemoChars, "down", 2);
    CharOutside(lower, AnxiousDemoChars, "hopeless", 2);
    PairAbsent(lower, "lonely", 0);
  }

  lemma AnxiousDemoProgressPairs()
    ensures NoPair(AnxiousDemoLower(), 'h', 'i') && NoPair(AnxiousDemoLower(), 's', 't')
  {
    NoPairJoin("i'm feeling ", "really anxious ", "and my heart ", "is racing", 'h', 'i');
    NoPairJoin("i'm feeling ", "really anxious ", "and my heart ", "is racing", 's', 't');
  }

  lemma AnxiousDemoNoProgress(lower: string)
    requires CharsIn(lower, AnxiousDemoChars)
    requires NoPair(lower, 'h', 'i')
    requires NoPair(lower, 's', 't')
    ensures !Matches(lower, Progress)
  {
    CharOutside(lower, AnxiousDemoChars, "progress", 0);
    CharOutside(lower, AnxiousDemoChars, "dashboard", 4);
    PairAbsent(lower, "history", 0);
    CharOutside(lower, AnxiousDemoChars, "track", 4);
    PairAbsent(lower, "stats", 0);
  }

  lemma AnxiousDemoJournalingPairs()
    ensures NoPair(AnxiousDemoLower(), 'e', 'f')
  {
    NoPairJoin("i'm feeling ", "really anxious ", "and my heart ", "is racing", 'e', 'f');
  }

  lemma AnxiousDemoNoJournaling(lower: string)
    requires CharsIn(lower, AnxiousDemoChars)
    requires NoPair(lower, 'e', 'f')
    ensures !Matches(lower, Journaling)
  {
    CharOutside(lower, AnxiousDemoChars, "journal", 0);
    CharOutside(lower, AnxiousDemoChars, "write", 0);
    PairAbsent(lower, "reflect", 1);
    CharOutside(lower, AnxiousDemoChars, "process", 0);
  }

  /** Every string made of those characters, without those pairs, fires the same rules. */
  lemma AnxiousDemoTriggers(lower: string)
    requires CharsIn(lower, AnxiousDemoChars)
    requires NoPair(lower, 's', 'u')
    requires NoPair(lower, 'e', 'n')
    requires NoPair(lower, 'h', 'u')
    requires NoPair(lower, 'd', 'i')
    requires NoPair(lower, 'n', 's')
    requires NoPair(lower, 't', 'i')
    requires NoPair(lower, 'e', 's')
    requires NoPair(lower, 's', 'a')
    requires NoPair(lower, 'l', 'o')
    requires NoPair(lower, 'h', 'i')
    requires NoPair(lower, 's', 't')
    requires NoPair(lower, 'e', 'f')
    requires Matches(lower, Anxiety)
    ensures TriggersOf(lower) == Triggers(false, {Anxiety})
  {
    AnxiousDemoNoCrisis(lower);
    AnxiousDemoNoSleep(lower);
    AnxiousDemoNoSadness(lower);
    AnxiousDemoNoProgress(lower);
    AnxiousDemoNoJournaling(lower);
  }

  /**
   * The anxiety demo sentence, "I'm feeling really anxious and my heart is racing", fires only
   * the anxiety rule, so the fallback gives the breathing exercise and the grounding exercise, in
   * that order.
   */
  lemma AnxiousDemoSelection()
    ensures FallbackSelection(AnxiousDemoText()) == [BreathingSel, GroundingSel]
  {
    AnxiousDemoLowered();
    AnxiousDemoCharset();
    AnxiousDemoCrisisPairs1();
    AnxiousDemoCrisisPairs2();
    AnxiousDemoSleepPairs1();
    AnxiousDemoSleepPairs2();
    AnxiousDemoSadnessPairs();
    AnxiousDemoProgressPairs();
    AnxiousDemoJournalingPairs();
    AnxiousDemoAnxiety(AnxiousDemoLower());
    AnxiousDemoTriggers(AnxiousDemoLower());
  }

  /** The dashboard demo sentence, in four pieces the solver can read one at a time. */
  function DashboardDemoText(): string { "Show me how " + "I've been " + "doing this " + "week" }

  /** The same sentence after `toLowerCase`. */
  function DashboardDemoLower(): string { "show me how " + "i've been " + "doing this " + "week" }

  /** The characters of the lowered sentence. */
  const DashboardDemoChars: set<char> := {'s', 'h', 'o', 'w', ' ', 'm', 'e', 'i', '\'', 'v', 'b', 'n', 'd', 'g', 't', 'k'}

  lemma DashboardDemoLowered()
    ensures ToLower(DashboardDemoText()) == DashboardDemoLower()
  {
    ToLowerAppend("Show me how " + "I've been " + "doing this ", "week");
    ToLowerAppend("Show me how " + "I've been ", "doing this ");
    ToLowerAppend("Show me how ", "I've been ");
    assert ToLower("Show me how ") == "show me how " && ToLower("I've been ") == "i've been ";
    assert ToLower("doing this ") == "doing this " && ToLower("week") == "week";
  }

  lemma DashboardDemoCharset()
    ensures CharsIn(DashboardDemoLower(), DashboardDemoChars)
  {
    CharsInJoin("show me how ", "i've been ", "doing this ", "week", DashboardDemoChars);
  }

  lemma DashboardDemoCrisisPairs()
    ensures NoPair(DashboardDemoLower(), 'n', 'd') && NoPair(DashboardDemoLower(), 'd', 'i')
  {
    NoPairJoin("show me how ", "i've been ", "doing this ", "week", 'n', 'd');
    NoPairJoin("show me how ", "i've been ", "doing this ", "week", 'd', 'i');
  }

  lemma DashboardDemoNoCrisis(lower: string)
    requires CharsIn(lower, DashboardDemoChars)
    requires NoPair(lower, 'n', 'd')
    requires NoPair(lower, 'd', 'i')
    ensures !CrisisIn(lower)
  {
    CharOutside(lower, DashboardDemoChars, "suicide", 1);
    CharOutside(lower, DashboardDemoChars, "kill myself", 2);
    PairAbsent(lower, "end it", 1);
    CharOutside(lower, DashboardDemoChars, "self-harm", 2);
    CharOutside(lower, DashboardDemoChars, "hurt myself", 1);
    PairAbsent(lower, "die", 0);
    CharOutside(lower, DashboardDemoChars, "don't want to be here", 7);
  }

  lemma DashboardDemoNoAnxiety(lower: string)
    requires CharsIn(lower, DashboardDemoChars)
    ensures !Matches(lower, Anxiety)
  {
    CharOutside(lower, DashboardDemoChars, "anxious", 0);
    CharOutside(lower, DashboardDemoChars, "anxiety", 0);
    CharOutside(lower, DashboardDemoChars, "panic", 0);
    CharOutside(lower, DashboardDemoChars, "nervous", 2);
    CharOutside(lower, DashboardDemoChars, "worried", 2);
    CharOutside(lower, DashboardDemoChars, "stress", 2);
  }

  lemma DashboardDemoNoSleep(lower: string)
    requires CharsIn(lower, DashboardDemoChars)
    ensures !Matches(lower, Sleep)
  {
    CharOutside(lower, DashboardDemoChars, "sleep", 1);
    CharOutside(lower, DashboardDemoChars, "insomnia", 7);
    CharOutside(lower, DashboardDemoChars, "can't sleep", 0);
    CharOutside(lower, DashboardDemoChars, "tired", 2);
    CharOutside(lower, DashboardDemoChars, "rest", 0);
  }

  lemma DashboardDemoSadnessPairs()
    ensures NoPair(DashboardDemoLower(), 'w', 'n')
  {
    NoPairJoin("show me how ", "i've been ", "doing this ", "week", 'w', 'n');
  }

  lemma DashboardDemoNoSadness(lower: string)
    requires CharsIn(lower, DashboardDemoChars)
    requires NoPair(lower, 'w', 'n')
    ensures !Matches(lower, Sadness)
  {
    CharOutside(lower, DashboardDemoChars, "sad", 1);
    CharOutside(lower, DashboardDemoChars, "depressed", 2);
    PairAbsent(lower, "down", 2);
    CharOutside(lower, DashboardDemoChars, "hopeless", 2);
    CharOutside(lower, DashboardDemoChars, "lonely", 0);
  }

  lemma DashboardDemoNoProgress(lower: string)
    requires CharsIn(lower, DashboardDemoChars)
    ensures !Matches(lower, Progress)
  {
    CharOutside(lower, DashboardDemoChars, "progress", 0);
    CharOutside(lower, DashboardDemoChars, "dashboard", 1);
    CharOutside(lower, DashboardDemoChars, "history", 5);
    CharOutside(lower, DashboardDemoChars, "track", 1);
    CharOutside(lower, DashboardDemoChars, "stats", 2);
  }

  lemma DashboardDemoNoJournaling(lower: string)
    requires CharsIn(lower, DashboardDemoChars)
    ensures !Matches(lower, Journaling)
  {
    CharOutside(lower, DashboardDemoChars, "journal", 0);
    CharOutside(lower, DashboardDemoChars, "write", 1);
    CharOutside(lower, DashboardDemoChars, "reflect", 0);
    CharOutside(lower, DashboardDemoChars, "process", 0);
  }

  /** Every string made of those characters, without those pairs, fires the same rules. */
  lemma DashboardDemoTriggers(lower: string)
    requires CharsIn(lower, DashboardDemoChars)
    requires NoPair(lower, 'n', 'd')
    requires NoPair(lower, 'd', 'i')
    requires NoPair(lower, 'w', 'n')
    ensures TriggersOf(lower) == Triggers(false, {})
  {
    DashboardDemoNoCrisis(lower);
    DashboardDemoNoAnxiety(lower);
    DashboardDemoNoSleep(lower);
    DashboardDemoNoSadness(lower);
    DashboardDemoNoProgress(lower);
    DashboardDemoNoJournaling(lower);
  }

  /**
   * The dashboard demo sentence, "Show me how I've been doing this week", holds none of the
   * dashboard words, so no rule fires and the fallback gives the mood tracker, not the dashboard.
   */
  lemma DashboardDemoSelection()
    ensures FallbackSelection(DashboardDemoText()) == [MoodTrackerSel]
  {
    DashboardDemoLowered();
    DashboardDemoCharset();
    DashboardDemoCrisisPairs();
    DashboardDemoSadnessPairs();
    DashboardDemoTriggers(DashboardDemoLower());
  }

  /** "I studied" contains "die", so the fallback answers with crisis resources. */
  lemma StudiedIsCrisis()
    ensures FallbackSelection("I studied") == [CrisisSel]
  {
    var lower := ToLower("I studied");
    assert lower == "i studied";
    assert Contains(lower, "die") by { OccursAtContains(lower, "die", 5); }
  }

  // ---------------------------------------------------------------------------------------------
  // The language-model selector
  // ---------------------------------------------------------------------------------------------

  /** The outgoing messages: system prompt, the last (at most) five history turns, the user text. */
  function BuildMessages(systemPrompt: string, history: seq<Message>, userMessage: string): (r: seq<Message>)
    ensures 2 <= |r| <= 7 && |r| == 2 + Min(|history|, 5)
    ensures r[0] == Message(System, systemPrompt)
    ensures r[|r| - 1] == Message(User, userMessage)
    ensures r[1..|r| - 1] == history[|history| - (|r| - 2)..]
  {
    [Message(System, systemPrompt)] + LastN(history, 5) + [Message(User, userMessage)]
  }

  /** Index of the first occurrence of `c` in `s`. */
  function IndexOf(s: string, c: char): (r: Option<nat>)
    ensures r.None? <==> c !in s
    ensures r.Some? ==> r.value < |s| && s[r.value] == c && c !in s[..r.value]
    decreases |s|
  {
    if s == [] then None
    else if s[0] == c then Some(0)
    else match IndexOf(s[1..], c)
      case None => None
      case Some(i) =>
        assert s[..i + 1] == [s[0]] + s[1..][..i];
        Some(i + 1)
  }

  /** Index of the last occurrence of `c` in `s`. */
  function LastIndexOf(s: string, c: char): (r: Option<nat>)
    ensures r.None? <==> c !in s
    ensures r.Some? ==> r.value < |s| && s[r.value] == c && c !in s[r.value + 1..]
    decreases |s|
  {
    if s == [] then None
    else if s[|s| - 1] == c then Some(|s| - 1)
    else
      var r := LastIndexOf(s[..|s| - 1], c);
      if r.Some? then
        assert s[r.value + 1..] == s[..|s| - 1][r.value + 1..] + [s[|s| - 1]];
        r
      else
        assert s == s[..|s| - 1] + [s[|s| - 1]];
        None
  }

  /** `s[i..j + 1]` runs from the first `{` of `s` to its last `}`. */
  predicate SpanAt(s: string, i: nat, j: nat) {
    i < j < |s| && s[i] == '{' && s[j] == '}' && '{' !in s[..i] && '}' !in s[j + 1..]
  }

  /**
   * The match of `/\{[\s\S]*\}/`: from the first `{` to the last `}` after it, or nothing when
   * no `}` follows a `{`.
   */
  function JsonSpan(s: string): (r: Option<string>)
    ensures r.None? <==> !exists i, j :: 0 <= i < j < |s| && s[i] == '{' && s[j] == '}'
    ensures r.Some? ==> exists i: nat, j: nat :: SpanAt(s, i, j) && r.value == s[i..j + 1]
  {
    match IndexOf(s, '{')
    case None => None
    case Some(i) =>
      match LastIndexOf(s, '}')
      case None => None
      case Some(j) =>
        if i < j then
          assert SpanAt(s, i, j);
          Some(s[i..j + 1])
        else
          None
  }

  /** What the remote chat call returns, or that it threw. */
  datatype ChatOutcome = Reply(text: string) | ChatFailed

  /** The fields read from the parsed object: `response` and `components`, where present. */
  datatype ParsedReply = ParsedReply(response: Option<string>, components: Option<seq<Selection>>)

  /** What `JSON.parse` returns, or that it threw. */
  datatype ParseOutcome = Parsed(value: ParsedReply) | ParseFailed

  datatype AiResult = AiResult(response: string, components: seq<Selection>)

  const Placeholder: string := "I'm here to support you. " + "Let me share some helpful tools."

  /** Which of the three outcomes a call ends in. */
  datatype AiPath = ModelChoice | RawReplyWithFallback | PlaceholderWithFallback

  function PathTaken(text: ChatOutcome, parse: string -> ParseOutcome): AiPath {
    match text
    case ChatFailed => PlaceholderWithFallback
    case Reply(t) =>
      match JsonSpan(t)
      case None => RawReplyWithFallback
      case Some(j) => if parse(j).ParseFailed? then PlaceholderWithFallback else ModelChoice
  }

  /**
   * `selectComponentsWithAI`, with the remote call `chat` and `JSON.parse` as oracles; either may
   * fail, which the source's `catch` turns into the placeholder reply.
   */
  function SelectComponentsWithAI(systemPrompt: string, userMessage: string, history: seq<Message>,
                                  chat: seq<Message> -> ChatOutcome, parse: string -> ParseOutcome): (r: AiResult)
    ensures var out := chat(BuildMessages(systemPrompt, history, userMessage));
            match PathTaken(out, parse)
            case PlaceholderWithFallback => r == AiResult(Placeholder, FallbackSelection(userMessage))
            case RawReplyWithFallback => r == AiResult(out.text, FallbackSelection(userMessage))
            case ModelChoice =>
              var p := parse(JsonSpan(out.text).value).value;
              r.components == p.components.GetOr([])
              && r.response == (if p.response.Some? && p.response.value != "" then p.response.value else out.text)
              && (r.response == "" ==> out.text == "")
  {
    var messages := BuildMessages(systemPrompt, history, userMessage);
    match chat(messages)
    case ChatFailed => AiResult(Placeholder, FallbackSelection(userMessage))
    case Reply(aiResponse) =>
      match JsonSpan(aiResponse)
      case None => AiResult(aiResponse, FallbackSelection(userMessage))
      case Some(jsonText) =>
        match parse(jsonText)
        case ParseFailed => AiResult(Placeholder, FallbackSelection(userMessage))
        case Parsed(p) =>
          var response := if p.response.Some? && p.response.value != "" then p.response.value else aiResponse;
          AiResult(response, p.components.GetOr([]))
  }

  /** On both fallback paths a crisis keyword still yields exactly `[CrisisResources]`. */
  lemma FallbackPathsKeepCrisisRule(systemPrompt: string, userMessage: string, history: seq<Message>,
                                    chat: seq<Message> -> ChatOutcome, parse: string -> ParseOutcome)
    requires PathTaken(chat(BuildMessages(systemPrompt, history, userMessage)), parse) != ModelChoice
    requires CrisisIn(ToLower(userMessage))
    ensures SelectComponentsWithAI(systemPrompt, userMessage, history, chat, parse).components == [CrisisSel]
  {
  }

  /**
   * On the parsed path there is no crisis check: a reply whose JSON has no `components` field
   * yields no components at all, even for a message holding a crisis keyword.
   */
  lemma ParsedPathSkipsCrisisCheck(systemPrompt: string, userMessage: string, history: seq<Message>,
                                   chat: seq<Message> -> ChatOutcome, parse: string -> ParseOutcome)
    requires chat(BuildMessages(systemPrompt, history, userMessage)) == Reply("{}")
    requires parse("{}") == Parsed(ParsedReply(None, None))
    ensures SelectComponentsWithAI(systemPrompt, userMessage, history, chat, parse) == AiResult("{}", [])
  {
    assert IndexOf("{}", '{') == Some(0);
    assert LastIndexOf("{}", '}') == Some(1);
    assert "{}"[0..2] == "{}";
  }

  // ---------------------------------------------------------------------------------------------
  // The component table
  // ---------------------------------------------------------------------------------------------

  /** The ten widgets a selection may name. */
  datatype Component =
    | BreathingExercise | JournalPrompt | MoodTracker | CognitiveReframe | MeditationGuide
    | AnxietyGrounding | MoodDashboard | CrisisResources | Affirmations | SleepWindDown

  function ComponentName(c: Component): string {
    match c
    case BreathingExercise => "BreathingExercise"
    case JournalPrompt => "JournalPrompt"
    case MoodTracker => "MoodTracker"
    case CognitiveReframe => "CognitiveReframe"
    case MeditationGuide => "MeditationGuide"
    case AnxietyGrounding => "AnxietyGrounding"
    case MoodDashboard => "MoodDashboard"
    case CrisisResources => "CrisisResources"
    case Affirmations => "Affirmations"
    case SleepWindDown => "SleepWindDown"
  }

  /** `getComponentByName` restricted to the table's own keys: `None` stands for `null`. */
  function ComponentByName(name: string): (r: Option<Component>)
    ensures r.Some? ==> ComponentName(r.value) == name
  {
    if name == "BreathingExercise" then Some(BreathingExercise)
    else if name == "JournalPrompt" then Some(JournalPrompt)
    else if name == "MoodTracker" then Some(MoodTracker)
    else if name == "CognitiveReframe" then Some(CognitiveReframe)
    else if name == "MeditationGuide" then Some(MeditationGuide)
    else if name == "AnxietyGrounding" then Some(AnxietyGrounding)
    else if name == "MoodDashboard" then Some(MoodDashboard)
    else if name == "CrisisResources" then Some(CrisisResources)
    else if name == "Affirmations" then Some(Affirmations)
    else if name == "SleepWindDown" then Some(SleepWindDown)
    else None
  }

  /** Every component is found under its own name, and only there. */
  lemma ComponentNameRoundTrip(c: Component, name: string)
    ensures ComponentByName(ComponentName(c)) == Some(c)
    ensures ComponentByName(name) == Some(c) <==> name == ComponentName(c)
  {
  }

  /** Every name the fallback selector emits resolves to a component. */
  lemma FallbackNamesResolve(message: string)
    ensures forall s :: s in FallbackSelection(message) ==> ComponentByName(s.componentName).Some?
  {
    var m := TriggersOf(ToLower(message)).matched;
    forall c | true ensures forall s :: s in PicksIf(m, c) ==> ComponentByName(s.componentName).Some? {
    }
  }

  /** Property names every plain JavaScript object inherits from `Object.prototype`. */
  const InheritedNames: seq<string> :=
    ["constructor", "hasOwnProperty", "isPrototypeOf", "propertyIsEnumerable", "toLocaleString",
     "toString", "valueOf", "__proto__", "__defineGetter__", "__defineSetter__", "__lookupGetter__",
     "__lookupSetter__"]

  /** What `components[name] || null` yields on the object literal: its own key, an inherited member, or null. */
  datatype Lookup = Loader(c: Component) | InheritedMember(name: string) | Null

  /** The lookup as written: inherited members are truthy, so they are returned instead of null. */
  function ComponentByNameAsWritten(name: string): (r: Lookup)
    ensures r.Loader? <==> ComponentByName(name).Some?
    ensures r.Null? <==> ComponentByName(name).None? && name !in InheritedNames
  {
    match ComponentByName(name)
    case Some(c) => Loader(c)
    case None => if name in InheritedNames then InheritedMember(name) else Null
  }

  /** "constructor" is not one of the ten names, yet the lookup as written does not return null. */
  lemma InheritedNameIsNotNull()
    ensures ComponentByName("constructor").None?
    ensures ComponentByNameAsWritten("constructor") == InheritedMember("constructor")
  {
    assert InheritedNames[0] == "constructor";
  }
}

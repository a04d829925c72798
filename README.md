# MindFlow core, modelled in Dafny

MindFlow is a mental-wellness chat application. A user types how they feel. The application
answers with a reply and a list of interactive widgets, such as a breathing exercise, a grounding
exercise, a journal prompt or crisis resources. This project models the logic behind that loop and
proves properties of the model:

- **Component selection.**
  - The rule-based fallback selector maps a lowercased message to widget selections by keyword
    rules. A crisis rule comes first and short-circuits the others.
  - The language-model selector builds the outgoing messages and picks one of three outcomes. The
    chat call and `JSON.parse` are passed in as oracles.
  - The table of the ten renderable component names.
- **Mood tools.**
  - The mood log in browser storage: append, then keep the last hundred entries.
  - The windowed analysis: the average rounded to one decimal, the dominant mood with
    first-seen tie-breaking, the half-split trend, and the insight list.
  - The journal prompt table.
- **Tambo tools.**
  - Time-of-day bucketing and suggestions.
  - `generateInsights`.
  - The emergency-resource urgency message.
  - The mood context, including the history slice it reads.
  - The bounded interaction log.
- **Chat route.**
  - Request validation on a JSON value.
  - Trimming and 10000-character truncation of every message's content.
- **Model client.**
  - Configuration from environment variables.
  - The retry loop with exponential back-off.
  - The mapping from HTTP status to error message.
  - The request defaults and `completeText`.
- **Environment utilities.**
  - The development-only usage log.
  - `validateEnvVars`, `getEnvironment` and `isDevelopment`.
- **Widget state machines.**
  - The meditation countdown, its phase index and clock format.
  - The 5-4-3-2-1 grounding counters.
  - The sleep checklist.
  - The two-step cognitive reframe.
  - The breathing cycle.

The model follows the shape of the code. Pure expressions become functions and lemmas. The loops
become methods with invariants, proved against specification functions:

- `fallbackComponentSelection`'s pushes;
- `withRetry`;
- the mood counting and the insight pushes;
- the meditation phase search;
- `generateInsights`.

State that the source updates in place becomes classes with `modifies` clauses:

- browser storage;
- the usage log;
- each widget's React state.

The environment is a map from names to strings. A variable counts as set only when it is present
and non-empty, which is JavaScript's truthiness test. Clocks, timers, the network and the model
provider become parameters:

- an instant `now`;
- a cutoff instant;
- an hour;
- a function from attempt number to fetch result. Retry waits are returned as the sequence of
  delays they would sleep.

Modules: `Common`, `Strings`, `Json`, `MoodSchema`, `Storage`, `ComponentSelector`, `MoodTools`,
`TamboTools`, `ChatRoute`, `AiConfig`, `EnvUtils`, `Meditation`, `Grounding`, `Sleep`, `Reframe`
and `Breathing`.

Where the behaviour is surprising, the model keeps the code's behaviour and proves the surprise:

- "I studied" contains "die" and gets the crisis answer (`ComponentSelector.StudiedIsCrisis`).
- The demo text "Show me how I've been doing this week" holds none of the dashboard words, so
  the fallback answers it with the mood tracker (`ComponentSelector.DashboardDemoSelection`).
  The two demo sentences are written there as concatenations of short pieces, which the solver
  reads one at a time.
- A parsed model reply skips the crisis check (`ComponentSelector.ParsedPathSkipsCrisisCheck`).
- The mood context reads a storage key that nothing writes (`TamboTools.SavedEntriesNotInContext`).
- `withRetry` stops early only on a thrown `Response`. The client throws only `Error` values, so a
  401 is retried (`AiConfig.UnauthorizedIsRetried`).
- With `NODE_ENV` unset, `getEnvironment` says development but `isDevelopment` does not
  (`EnvUtils.DevelopmentTestsDisagree`).
- One mood entry above 1 already trends "improving" (`MoodTools.SingleEntryTrend`).

## Model

| member | source | states |
|---|---|---|
| Common.LastN | mindflow/src/lib/tambo-tools.ts:166-168 | the result is the last min(n, length) elements of the list, in order |
| Common.LastNOfAppend | mindflow/src/lib/mood-tools.ts:21-25 | capping to the last n, appending more and capping again equals capping the whole concatenation once, so repeated capped saves compose |
| Strings.ContainsIff | mindflow/src/lib/ai-component-selector.ts:90-94 | `includes`/regex literal matching holds exactly when the pattern occurs at some index of the text |
| Strings.OccursAtContains | mindflow/src/lib/ai-component-selector.ts:94-95 | an occurrence at a given index means the text contains the pattern |
| Strings.MatchesAtIff | mindflow/src/lib/ai-component-selector.ts:94-95 | the character-by-character match at an index holds iff the slice at that index equals the pattern |
| Strings.OccursFromIff | mindflow/src/lib/ai-component-selector.ts:94-95 | scanning from an index finds the pattern iff it occurs at some later-or-equal index |
| Strings.ToLower | mindflow/src/lib/ai-component-selector.ts:90 | lowercasing keeps the length and maps each character on its own, ASCII capitals to lower case |
| Strings.LeadingSpace | mindflow/src/app/api/chat/route.ts:50 | the number of leading whitespace characters: all of them are whitespace and the next one is not |
| Strings.ContentEnd | mindflow/src/app/api/chat/route.ts:50 | the end of the text without trailing whitespace: everything after it is whitespace and the character before it is not |
| Strings.Trim | mindflow/src/app/api/chat/route.ts:50 | `trim()` is the slice of the input that starts after the leading whitespace, and it neither starts nor ends with whitespace |
| Strings.TrimIdempotent | mindflow/src/app/api/chat/route.ts:50 | trimming twice is trimming once |
| Strings.TrimEmptyIffBlank | mindflow/src/components/generative/CognitiveReframe.tsx:20 | the trimmed text is empty exactly when every character is whitespace |
| Strings.DigitChar | mindflow/src/lib/ai-config.ts:185 | each decimal digit is printed as a digit character |
| Strings.NatToString | mindflow/src/lib/ai-config.ts:185 | the decimal text of a number is non-empty and consists of digits only |
| Strings.DigitsRoundTrip | mindflow/src/lib/ai-config.ts:185 | reading back the printed digits gives the number again |
| Json.Member | mindflow/src/app/api/chat/route.ts:25 | a property lookup succeeds exactly on an object that has that key |
| MoodSchema.ParseMood | mindflow/src/lib/mood-tools.ts:3-9 | the enum check accepts a string only as the spelling of the mood it returns |
| MoodSchema.MoodNameRoundTrip | mindflow/src/lib/mood-tools.ts:3-9 | every mood's spelling parses back to that mood |
| MoodSchema.ValidEntry | mindflow/src/lib/mood-tools.ts:3-9 | a stored entry is valid when its intensity lies in 1..10, the bound of the schema |
| Storage.LocalStorage.constructor | mindflow/src/lib/mood-tools.ts:14-15 | storage starts empty, inside or outside a browser |
| Storage.LocalStorage.SetMoodList | mindflow/src/lib/mood-tools.ts:25 | `setItem` replaces the list under the key and changes no other key |
| Storage.LocalStorage.SetInteractionList | mindflow/src/lib/tambo-tools.ts:225 | `setItem` replaces the interaction list under the key and changes no other key |
| ComponentSelector.Picks | mindflow/src/lib/ai-component-selector.ts:105-162 | each keyword rule contributes one or two selections |
| ComponentSelector.TriggersOf | mindflow/src/lib/ai-component-selector.ts:90-162 | the crisis flag is set iff a crisis keyword occurs, and a category fires iff one of its literals occurs |
| ComponentSelector.CrisisInIsSome | mindflow/src/lib/ai-component-selector.ts:94-95 | the crisis test holds iff some one of the seven keywords occurs in the lowercased text |
| ComponentSelector.FallbackComponentSelection | mindflow/src/lib/ai-component-selector.ts:89-174 | the push sequence returns the selection that the rule function defines |
| ComponentSelector.CrisisShortCircuits | mindflow/src/lib/ai-component-selector.ts:94-102 | a crisis keyword anywhere yields exactly `[CrisisResources]` with empty props, whatever else matched |
| ComponentSelector.NoCrisisNoCrisisResources | mindflow/src/lib/ai-component-selector.ts:105-171 | without a crisis keyword, no selection names `CrisisResources` |
| ComponentSelector.FallbackSize | mindflow/src/lib/ai-component-selector.ts:105-173 | the result is never empty and holds at most eight selections |
| ComponentSelector.FallbackSelection | mindflow/src/lib/ai-component-selector.ts:88-174 | the fallback never returns an empty list, and starts with the crisis selection iff a crisis keyword occurs in the lowercased message |
| ComponentSelector.MoodTrackerOnlyAlone | mindflow/src/lib/ai-component-selector.ts:164-171 | `MoodTracker` appears iff no rule fired, and then it is the only selection |
| ComponentSelector.RulesIndependent | mindflow/src/lib/ai-component-selector.ts:105-162 | without a crisis, a rule's first selection is present iff that rule's pattern matched |
| ComponentSelector.JournalPromptTwice | mindflow/src/lib/ai-component-selector.ts:125-160 | there is no deduplication: a sad message about journaling gets two different `JournalPrompt` selections |
| ComponentSelector.StudiedIsCrisis | mindflow/src/lib/ai-component-selector.ts:90-102 | "I studied" contains "die" and gets the crisis answer |
| ComponentSelector.AnxiousDemoSelection | mindflow/src/lib/ai-component-selector.ts:105-171 | "I'm feeling really anxious and my heart is racing" fires only the anxiety rule and gets the breathing exercise, then the grounding exercise |
| ComponentSelector.DashboardDemoSelection | mindflow/src/lib/ai-component-selector.ts:105-171 | "Show me how I've been doing this week" fires no rule, so the fallback gives the mood tracker and not the dashboard |
| ComponentSelector.BuildMessages | mindflow/src/lib/ai-component-selector.ts:51-55 | the system prompt, then the last at most five history turns in order, then the user text: between 2 and 7 messages |
| ComponentSelector.IndexOf | mindflow/src/lib/ai-component-selector.ts:61 | the first occurrence of a character, or none iff it does not occur |
| ComponentSelector.LastIndexOf | mindflow/src/lib/ai-component-selector.ts:61 | the last occurrence of a character, or none iff it does not occur |
| ComponentSelector.JsonSpan | mindflow/src/lib/ai-component-selector.ts:61-62 | `match(/\{[\s\S]*\}/)` finds the span from the first `{` to the last `}`, and finds none iff no `{` comes before some `}` |
| ComponentSelector.SelectComponentsWithAI | mindflow/src/lib/ai-component-selector.ts:20-84 | a parsed span gives its components (or `[]`) with no fallback, and its response, or the raw reply when that response is missing or empty; without a span, the raw reply plus the fallback selection; on a throw, the placeholder plus the fallback selection |
| ComponentSelector.FallbackPathsKeepCrisisRule | mindflow/src/lib/ai-component-selector.ts:70-83 | on both fallback paths a crisis keyword still yields exactly `[CrisisResources]` |
| ComponentSelector.ParsedPathSkipsCrisisCheck | mindflow/src/lib/ai-component-selector.ts:61-68 | a parsed reply bypasses the crisis rule: a reply `{}` gives no components even for a crisis message |
| ComponentSelector.ComponentByName | mindflow/src/lib/ai-component-selector.ts:179-194 | a name resolves only to the component spelled that way; every other name gives null |
| ComponentSelector.ComponentNameRoundTrip | mindflow/src/lib/ai-component-selector.ts:179-194 | every component is found under its own name, and only under it |
| ComponentSelector.FallbackNamesResolve | mindflow/src/lib/ai-component-selector.ts:89-194 | every name the fallback selector emits resolves to a component |
| ComponentSelector.ComponentByNameAsWritten | mindflow/src/lib/ai-component-selector.ts:193 | the lookup as written returns a loader for the ten names, an inherited object member for `Object.prototype` names, and null only otherwise |
| ComponentSelector.InheritedNameIsNotNull | mindflow/src/lib/ai-component-selector.ts:193 | "constructor" is not a component name, yet the lookup as written does not give null |
| MoodTools.GetMoodHistory | mindflow/src/lib/mood-tools.ts:13-17 | outside a browser the history is empty; inside, it is the list stored under the history key |
| MoodTools.Saved | mindflow/src/lib/mood-tools.ts:21-24 | the saved log is the last min(n+1, 100) elements of the old log plus the entry, the entry last |
| MoodTools.SaveInto | mindflow/src/lib/mood-tools.ts:21-25 | a save changes only the history key, which becomes the capped log |
| MoodTools.SaveMoodEntry | mindflow/src/lib/mood-tools.ts:19-26 | in a browser the mood lists become the capped log; outside a browser nothing changes; interactions never change |
| MoodTools.SaveAllKeepsLast | mindflow/src/lib/mood-tools.ts:21-25 | saving entries one at a time keeps exactly the last hundred of everything saved, in order |
| MoodTools.SaveHundredFifty | mindflow/src/lib/mood-tools.ts:21-25 | from an empty log, saving 150 entries leaves entries 51 to 150, in order |
| MoodTools.Window | mindflow/src/lib/mood-tools.ts:33-35 | the window holds exactly the log's entries at or after the cutoff |
| MoodTools.WindowAppend | mindflow/src/lib/mood-tools.ts:33-35 | filtering distributes over concatenation, so the window keeps the log's order |
| MoodTools.SumBounds | mindflow/src/lib/mood-tools.ts:46 | intensities within bounds give a sum within the bounds times the length |
| MoodTools.MeanBounds | mindflow/src/lib/mood-tools.ts:3-46 | valid intensities in 1..10 give a mean in 1..10 |
| MoodTools.DivideBounds | mindflow/src/lib/mood-tools.ts:46 | dividing a bounded sum by a positive count keeps the bounds |
| MoodTools.RoundTenth | mindflow/src/lib/mood-tools.ts:89 | `Math.round(x*10)/10` is a whole number of tenths within 0.05 of x, rounding halves up |
| MoodTools.RoundTenthBounds | mindflow/src/lib/mood-tools.ts:89 | rounding keeps a value of [1, 10] inside [1, 10] |
| MoodTools.FirstSeen | mindflow/src/lib/mood-tools.ts:48-51 | the count keys are exactly the moods that occur, each once, in order of first appearance |
| MoodTools.BestOf | mindflow/src/lib/mood-tools.ts:53-54 | the stable descending sort's first key is one of the keys |
| MoodTools.BestOfIsFirstMax | mindflow/src/lib/mood-tools.ts:53-54 | that key has a count no other key beats, and every key tied with it comes later |
| MoodTools.DominantOf | mindflow/src/lib/mood-tools.ts:53-54 | the dominant mood of a non-empty window occurs in it |
| MoodTools.DominantIsFirstMax | mindflow/src/lib/mood-tools.ts:48-54 | the dominant mood has a maximal count, and any other mood with the same count first appears after it |
| MoodTools.TrendOf | mindflow/src/lib/mood-tools.ts:57-65 | split at floor(n/2): improving iff the second half's average exceeds the first's by more than 1, declining iff it is more than 1 below, else stable |
| MoodTools.SingleEntryTrend | mindflow/src/lib/mood-tools.ts:57-65 | the empty first half averages 0, so a single valid entry trends improving iff its intensity exceeds 1 |
| MoodTools.SixEntryTrends | mindflow/src/lib/mood-tools.ts:57-65 | three entries at 2 then three at 8 trend improving; reversed, they trend declining |
| MoodTools.ThreeSum | mindflow/src/lib/mood-tools.ts:46 | the sum of three entries is the sum of their intensities |
| MoodTools.InsightOrder | mindflow/src/lib/mood-tools.ts:68-86 | at most four insights; the improving or declining one appears iff that is the trend, and then comes first; the anxious/stressed one iff that mood dominates; the high-intensity one iff the unrounded average exceeds 7; the keep-tracking one iff there are fewer than 3 entries, and then it comes last |
| MoodTools.AnalysisOf | mindflow/src/lib/mood-tools.ts:30-94 | an empty window gives the fixed empty analysis with no entry count; otherwise the count is the window's size |
| MoodTools.AverageInRange | mindflow/src/lib/mood-tools.ts:33-94 | with valid entries, a non-empty window's rounded average lies in [1, 10] |
| MoodTools.DominantMoodOfAnalysis | mindflow/src/lib/mood-tools.ts:48-94 | the reported dominant mood has maximal count in the window, and ties go to the mood seen first |
| MoodTools.CountMoods | mindflow/src/lib/mood-tools.ts:48-51 | the `forEach` fills counts equal to each mood's occurrences, with keys in first-seen order |
| MoodTools.PickDominant | mindflow/src/lib/mood-tools.ts:53-54 | the sort-then-first loop picks the first key of greatest count |
| MoodTools.PushInsights | mindflow/src/lib/mood-tools.ts:68-86 | the pushes build exactly the ordered insight list |
| MoodTools.AnalyzeMoodPatterns | mindflow/src/lib/mood-tools.ts:30-94 | the method returns the analysis of the stored log that the specification function defines |
| MoodTools.CountPositive | mindflow/src/lib/mood-tools.ts:48-51 | a mood that occurs has a positive count |
| MoodTools.GetJournalPrompts | mindflow/src/lib/mood-tools.ts:97-127 | always three prompts; anxious, sad, joyful and overwhelmed each get their own list, every other mood of the enum the calm list |
| MoodTools.PromptsForMoods | mindflow/src/lib/mood-tools.ts:97-127 | of the eight moods, exactly calm, stressed, angry and peaceful get the calm prompts, and two moods share a list iff they are equal or both among those four |
| TamboTools.Period | mindflow/src/lib/tambo-tools.ts:154-159 | each hour falls into exactly one of five periods: morning iff 6..11, afternoon iff 12..16, evening iff 17..20, night otherwise |
| TamboTools.GetMoodContext | mindflow/src/lib/tambo-tools.ts:142-182 | at most the last five stored moods, only when history is asked for in the browser, and then exactly those five; outside the browser no historical data |
| TamboTools.TimeOfDay | mindflow/src/lib/tambo-tools.ts:154-159 | the mood context's label is the label of the hour's period |
| TamboTools.TimeBasedSuggestions | mindflow/src/lib/tambo-tools.ts:269-281 | exactly two suggestions, those of the hour's period |
| TamboTools.SameBoundaries | mindflow/src/lib/tambo-tools.ts:269-281 | the label and the suggestions change at the same hours |
| TamboTools.GenerateInsights | mindflow/src/lib/tambo-tools.ts:246-264 | the pushes build exactly `ToolInsights`, so at most three messages, never both trend messages, in the order that `ToolInsightsOrder` proves |
| TamboTools.ToolInsights | mindflow/src/lib/tambo-tools.ts:246-264 | at most three messages; the improving, declining and volatility messages appear iff the trend is improving, declining or the volatility high |
| TamboTools.ToolInsightsOrder | mindflow/src/lib/tambo-tools.ts:246-264 | the trend message comes first, the volatility message last, and the `mostCommon` message just before it; that message appears iff `mostCommon` is non-empty |
| TamboTools.ToolMessagesDiffer | mindflow/src/lib/tambo-tools.ts:249-261 | the improving, declining, most-common and volatility messages are pairwise distinct |
| TamboTools.InsightsOfTrendOnly | mindflow/src/lib/tambo-tools.ts:249-253 | given only a trend, the insights are that trend's message or nothing |
| TamboTools.AnalysisToolInsights | mindflow/src/lib/tambo-tools.ts:24-31 | on an analysis result, which has no most-common or volatility field, the tool reports at most one insight |
| TamboTools.UrgencyMessage | mindflow/src/lib/tambo-tools.ts:126-130 | "critical" gives the 911 text, "high" the hotline text, anything else the 24/7 text |
| TamboTools.EmergencyResources | mindflow/src/lib/tambo-tools.ts:79-131 | always four crisis and two immediate resources; urgency defaults to high and location to United States |
| TamboTools.DefaultUrgencyIsHigh | mindflow/src/lib/tambo-tools.ts:79-131 | without an urgency, the message is the hotline one |
| TamboTools.ContextOf | mindflow/src/lib/tambo-tools.ts:149-185 | the last at most five stored moods appear only with `includeHistory`; the history flag is set from the stored data either way |
| TamboTools.SavedEntriesNotInContext | mindflow/src/lib/tambo-tools.ts:162-173 | a saved mood entry goes to another key, so the context never changes |
| TamboTools.HistoryFlagAgrees | mindflow/src/lib/tambo-tools.ts:162-184 | with history shown, the flag is set iff the recent moods are non-empty; the flag does not depend on `includeHistory` |
| TamboTools.Tracked | mindflow/src/lib/tambo-tools.ts:212-223 | one push then at most one shift: the new record last, order kept, and a log of at most 100 stays at most 100 |
| TamboTools.OverlongLogStaysOverlong | mindflow/src/lib/tambo-tools.ts:221-223 | a log longer than 100 keeps its length: only one record is dropped per call |
| TamboTools.TrackInteraction | mindflow/src/lib/tambo-tools.ts:208-232 | in a browser the interactions key becomes the tracked log; outside, nothing changes; the mood lists never change; the result is fixed |
| ChatRoute.MessageVerdictIff | mindflow/src/app/api/chat/route.ts:30-42 | a message is accepted iff it is an object with an allowed role and non-empty string content; it throws iff it is null |
| ChatRoute.MessagesVerdictIff | mindflow/src/app/api/chat/route.ts:30-42 | the loop accepts iff every message is well formed, and throws iff a null message follows only well-formed ones |
| ChatRoute.ValidateRequestIff | mindflow/src/app/api/chat/route.ts:20-43 | a body is accepted iff it is an object whose messages are a non-empty array of well-formed messages; a throw needs a null message |
| ChatRoute.ValidateRequest | mindflow/src/app/api/chat/route.ts:20-43 | a body that is not rejected is an object whose messages are a non-empty array |
| ChatRoute.EmptyContentRejected | mindflow/src/app/api/chat/route.ts:31-33 | empty-string content is falsy, so the request is rejected |
| ChatRoute.SanitizeMessage | mindflow/src/app/api/chat/route.ts:46-52 | the result is the prefix of the trimmed text of length min(trimmed length, 10000), equal to the trim when that fits, and empty or starting with a non-whitespace character |
| ChatRoute.SanitizeIdempotent | mindflow/src/app/api/chat/route.ts:46-52 | when the trim fits, sanitising twice is sanitising once |
| ChatRoute.SanitizeOne | mindflow/src/app/api/chat/route.ts:68-71 | the spread keeps every key and the role; only the content changes, to its sanitised text |
| ChatRoute.SanitizeMessages | mindflow/src/app/api/chat/route.ts:68-71 | the map keeps the count and the order of the messages |
| ChatRoute.BlankContentSent | mindflow/src/app/api/chat/route.ts:30-51 | whitespace-only content passes validation but is sanitised to the empty string |
| AiConfig.GetOpenRouterConfig | mindflow/src/lib/ai-config.ts:60-96 | fails with the fixed message iff the key is unset or empty; otherwise the base URL and model are the variables or their defaults |
| AiConfig.Delay | mindflow/src/lib/ai-config.ts:125 | the back-off delay is exactly the smaller of the exponential value and the cap |
| AiConfig.DelayMonotone | mindflow/src/lib/ai-config.ts:125 | with a non-negative base, the delays never decrease |
| AiConfig.DefaultSchedule | mindflow/src/lib/ai-config.ts:109-125 | the default delays are 1000, 2000, 4000, 8000 and then the 10000 cap |
| AiConfig.WithRetry | mindflow/src/lib/ai-config.ts:105-135 | at most maxRetries calls, none when it is at most 0 (then it throws undefined); only a 4xx Response stops early; the result is the last call's; one delay per failed call except the last |
| AiConfig.StatusErrorMessage | mindflow/src/lib/ai-config.ts:178-186 | 429, 401 and 403 get fixed messages; other statuses get the provider's message or "API request failed with status N"; never empty |
| AiConfig.StatusReadBack | mindflow/src/lib/ai-config.ts:185 | without a provider message, the digits after the prefix read back as the status |
| AiConfig.Rethrown | mindflow/src/lib/ai-config.ts:207-213 | the catch rethrows Errors unchanged and wraps anything else in an Error |
| AiConfig.Attempt | mindflow/src/lib/ai-config.ts:156-214 | one attempt succeeds iff the reply is OK, with its data; every failure is an Error, which never stops the retry loop |
| AiConfig.AttemptStopsIff | mindflow/src/lib/ai-config.ts:172-187 | an attempt ends the retry loop iff its reply is OK |
| AiConfig.BuildRequest | mindflow/src/lib/ai-config.ts:148-154 | absent options default to 0.7, 2000 and false; given values are kept |
| AiConfig.CallOpenRouter | mindflow/src/lib/ai-config.ts:138-215 | a missing key fails before any call; at most three calls; when one of the first three replies is OK, the calls stop at the first such reply and return its data; fewer than three calls means the last reply was OK; if every reply fails, three calls, delays 1000 and 2000, and the last failure |
| AiConfig.UnauthorizedIsRetried | mindflow/src/lib/ai-config.ts:120-181 | a 401 becomes an Error, which does not stop the retries |
| AiConfig.FirstContent | mindflow/src/lib/ai-config.ts:232 | the first choice's content when non-empty, else the empty string |
| AiConfig.CompleteText | mindflow/src/lib/ai-config.ts:218-239 | a system message only for a non-empty system prompt, the user message last; the apology when the key is missing or all three replies fail; otherwise the first choice's content of the first OK reply among the three |
| EnvUtils.GetEnvironment | mindflow/src/lib/env-utils.ts:20-31 | NODE_ENV defaults to development; each flag holds iff the name matches, so at most one holds |
| EnvUtils.DevelopmentTestsDisagree | mindflow/src/lib/env-utils.ts:20-38 | with NODE_ENV unset, `getEnvironment` says development while `isDevelopment` does not |
| EnvUtils.IsDevelopment | mindflow/src/lib/env-utils.ts:36-38 | development iff NODE_ENV is set to exactly `development` |
| EnvUtils.SumTokensAppend | mindflow/src/lib/env-utils.ts:125 | the token total of a concatenation is the sum of the totals |
| EnvUtils.SumTokensNonNegative | mindflow/src/lib/env-utils.ts:125 | non-negative token counts give a non-negative total |
| EnvUtils.UsageLog.constructor | mindflow/src/lib/env-utils.ts:89 | the log starts empty |
| EnvUtils.UsageLog.TrackUsage | mindflow/src/lib/env-utils.ts:91-106 | in development exactly one timestamped entry is appended; otherwise the log is unchanged |
| EnvUtils.UsageLog.GetUsageStats | mindflow/src/lib/env-utils.ts:108-129 | in development, the count, token and cost totals and the entries of the log; otherwise zeros and no entries |
| EnvUtils.UsageLog.ClearUsageStats | mindflow/src/lib/env-utils.ts:131-134 | the log becomes empty in every environment |
| EnvUtils.StatsAfterTrack | mindflow/src/lib/env-utils.ts:98-125 | one tracked entry adds one request and its tokens to the totals |
| EnvUtils.Missing | mindflow/src/lib/env-utils.ts:143 | the filter returns no more names than were required |
| EnvUtils.MissingIff | mindflow/src/lib/env-utils.ts:143 | a name is missing iff it is required and unset or empty |
| EnvUtils.MissingAppend | mindflow/src/lib/env-utils.ts:143 | the filter keeps the input order |
| EnvUtils.NoneSetAllMissing | mindflow/src/lib/env-utils.ts:143 | with nothing set, every required name is missing, in order |
| EnvUtils.ValidateEnvVars | mindflow/src/lib/env-utils.ts:139-153 | the missing names are the filter's result; valid iff every required name is set |
| Meditation.PhasesOf | mindflow/src/components/generative/MeditationGuide.tsx:20-53 | each meditation type has eight phases |
| Meditation.PhaseScan | mindflow/src/components/generative/MeditationGuide.tsx:74-84 | the scan from an index lands on a valid index at or after it |
| Meditation.PhaseScanSpec | mindflow/src/components/generative/MeditationGuide.tsx:74-84 | the scan returns the first phase from the index on that contains the elapsed time, or the last phase if none does |
| Meditation.PhaseIndexSpec | mindflow/src/components/generative/MeditationGuide.tsx:72-87 | the phase index is valid, is the first phase containing the elapsed time, or the last phase if none does |
| Meditation.StartOfGrows | mindflow/src/components/generative/MeditationGuide.tsx:76-82 | a later phase starts no earlier than an earlier phase ends |
| Meditation.PhasesDisjoint | mindflow/src/components/generative/MeditationGuide.tsx:78 | no elapsed time lies in two phases |
| Meditation.StartOfSteps | mindflow/src/components/generative/MeditationGuide.tsx:76-82 | a phase's start is the sum of the earlier durations |
| Meditation.ScriptTotals | mindflow/src/components/generative/MeditationGuide.tsx:20-50 | breath and body scan last 280 s, loving-kindness 320 s |
| Meditation.BreathTailStaysOnLastPhase | mindflow/src/components/generative/MeditationGuide.tsx:72-87 | from 270 s on, the breath script stays on its last phase, past its 280 s total as well |
| Meditation.Pad2 | mindflow/src/components/generative/MeditationGuide.tsx:92 | `padStart(2, '0')` gives at least two characters |
| Meditation.FormatTimeRoundTrip | mindflow/src/components/generative/MeditationGuide.tsx:89-93 | minutes times 60 plus seconds is the input, seconds in 0..59, the text is the minutes, a colon and two digits that read back |
| Meditation.FormatTime | mindflow/src/components/generative/MeditationGuide.tsx:89-93 | the text holds a colon and at least four characters |
| Meditation.ComputePhase | mindflow/src/components/generative/MeditationGuide.tsx:74-84 | the loop with its break computes the phase index, which lies inside the script |
| Meditation.MeditationGuide.constructor | mindflow/src/components/generative/MeditationGuide.tsx:12-18 | defaults 5 minutes and breath; paused with the full time and phase 0 |
| Meditation.MeditationGuide.Tick | mindflow/src/components/generative/MeditationGuide.tsx:59-65 | at 1 or less the time becomes 0 and the guide stops; otherwise one second less; never negative |
| Meditation.MeditationGuide.TogglePlay | mindflow/src/components/generative/MeditationGuide.tsx:134 | the button flips only the running flag |
| Meditation.MeditationGuide.UpdatePhase | mindflow/src/components/generative/MeditationGuide.tsx:72-87 | the current phase becomes the phase index of the elapsed time; nothing else changes |
| Meditation.MeditationGuide.ButtonLabel | mindflow/src/components/generative/MeditationGuide.tsx:147 | Pause iff running; when paused, Begin iff the full time remains, Resume otherwise |
| Grounding.MaxProgress | mindflow/src/components/generative/AnxietyGrounding.tsx:16-32 | the step counts sum to 15 |
| Grounding.Incremented | mindflow/src/components/generative/AnxietyGrounding.tsx:24-29 | the key's counter becomes min(prev+1, max); every other counter is unchanged |
| Grounding.IncrementAddsOne | mindflow/src/components/generative/AnxietyGrounding.tsx:24-29 | an increment capped at its own step keeps all counters in bounds and adds one below the cap |
| Grounding.TotalBounds | mindflow/src/components/generative/AnxietyGrounding.tsx:31-33 | the total lies in 0..15, and equals 15 iff every counter is full |
| Grounding.InitialInBounds | mindflow/src/components/generative/AnxietyGrounding.tsx:8-14 | the initial record holds the five senses at zero |
| Grounding.AnxietyGrounding.constructor | mindflow/src/components/generative/AnxietyGrounding.tsx:8-14 | all five counters start at 0 |
| Grounding.AnxietyGrounding.HandleIncrement | mindflow/src/components/generative/AnxietyGrounding.tsx:24-29 | the state becomes the incremented record |
| Grounding.AnxietyGrounding.ClickItem | mindflow/src/components/generative/AnxietyGrounding.tsx:71-72 | a disabled button changes nothing; an enabled one increments its step, capped by the step's count |
| Grounding.ButtonDisabled | mindflow/src/components/generative/AnxietyGrounding.tsx:72 | button i of a step is disabled while fewer than i items of that step are done |
| Grounding.AnxietyGrounding.TotalProgress | mindflow/src/components/generative/AnxietyGrounding.tsx:31 | the progress lies between 0 and the maximum |
| Grounding.AnxietyGrounding.IsComplete | mindflow/src/components/generative/AnxietyGrounding.tsx:33 | complete iff every counter is at its step's count |
| Sleep.Flip | mindflow/src/components/generative/SleepWindDown.tsx:41-43 | only the given id flips; every other flag is kept |
| Sleep.FlipTwice | mindflow/src/components/generative/SleepWindDown.tsx:41-45 | toggling one id twice restores every completion status |
| Sleep.CountDone | mindflow/src/components/generative/SleepWindDown.tsx:45 | the count of done items is at most the number of ids |
| Sleep.FlipCount | mindflow/src/components/generative/SleepWindDown.tsx:41-45 | a toggle of a routine id changes the count by exactly one, up or down |
| Sleep.CountFull | mindflow/src/components/generative/SleepWindDown.tsx:45-46 | the count is full iff every item is done |
| Sleep.SleepWindDown.constructor | mindflow/src/components/generative/SleepWindDown.tsx:8 | nothing is complete at first |
| Sleep.SleepWindDown.Toggle | mindflow/src/components/generative/SleepWindDown.tsx:41-71 | a click flips that routine's flag and keeps the keys among the routine ids |
| Sleep.SleepWindDown.CompletedCount | mindflow/src/components/generative/SleepWindDown.tsx:45 | the count never exceeds the four routine items |
| Sleep.SleepWindDown.AllComplete | mindflow/src/components/generative/SleepWindDown.tsx:46 | all complete iff every routine item is done |
| Sleep.RoutineIdsDistinct | mindflow/src/components/generative/SleepWindDown.tsx:10-39 | the four routine ids are distinct |
| Reframe.CognitiveReframe.constructor | mindflow/src/components/generative/CognitiveReframe.tsx:8-10 | step 1 with an empty thought and reframe |
| Reframe.CognitiveReframe.EditThought | mindflow/src/components/generative/CognitiveReframe.tsx:52-56 | typing at step 1 changes only the thought, and the invariant holds |
| Reframe.CognitiveReframe.EditReframe | mindflow/src/components/generative/CognitiveReframe.tsx:101-105 | typing at step 2 changes only the reframe; the invariant is kept |
| Reframe.CognitiveReframe.ContinueEnabled | mindflow/src/components/generative/CognitiveReframe.tsx:61-62 | Continue is enabled iff the thought is not blank |
| Reframe.CognitiveReframe.HandleContinue | mindflow/src/components/generative/CognitiveReframe.tsx:19-23 | step 1 moves to step 2 iff the trimmed thought is non-empty; otherwise nothing changes |
| Reframe.CognitiveReframe.StartOver | mindflow/src/components/generative/CognitiveReframe.tsx:121-126 | back to step 1 with both texts cleared |
| Reframe.CognitiveReframe.ShowsSuccessNote | mindflow/src/components/generative/CognitiveReframe.tsx:109 | the note shows iff at step 2 the trimmed reframe is non-empty |
| Breathing.NextIndex | backup-generative-components/BreathingExercise.tsx:46 | the index advances in step with the phase cycle and wraps to 0 exactly from 2 |
| Breathing.ThreeStepsCycle | backup-generative-components/BreathingExercise.tsx:31-46 | three advances return to the same phase |
| Breathing.Scale | backup-generative-components/BreathingExercise.tsx:67-73 | 1.3 for inhale and hold, 0.8 for exhale |
| Breathing.PhaseText | backup-generative-components/BreathingExercise.tsx:59-65 | every phase text ends with the duration in parentheses, followed by `s` |
| Breathing.BreathingExercise.constructor | backup-generative-components/BreathingExercise.tsx:16-23 | default 4 s per phase; inhale, paused, count 0 |
| Breathing.BreathingExercise.ToggleActive | backup-generative-components/BreathingExercise.tsx:28-39 | the toggle flips the running flag; a start resets the index and start time but not the shown phase |
| Breathing.BreathingExercise.Tick | backup-generative-components/BreathingExercise.tsx:40-54 | after duration·1000 ms the index and the cycle count become `Advance` of the old ones, the phase follows the index and its timer restarts; before that nothing changes |
| Breathing.Advance | backup-generative-components/BreathingExercise.tsx:44-53 | an advance moves the index and adds one to the count exactly on the wrap |
| Breathing.OneCyclePerThreeChanges | backup-generative-components/BreathingExercise.tsx:44-53 | three phase changes from inhale add exactly one to the count |

## Left out

- `Strings.ToLower` maps only ASCII capitals. Unicode case mapping is not modelled. Strings are
  sequences of characters, not UTF-16 code units, so `slice` counts characters.
- Floating point: averages, rounding and the temperature are exact reals. `estimatedCost` and
  the `totalCost` sum are summed as reals and no property is proved about them.
- The system prompt's wording is not modelled, and neither are shapes of `parsed.components`
  other than a list of selections. The parse is an oracle that returns the fields or fails.
- `AiConfig.CallOpenRouter`:
  - does not model error bodies that fail to parse, or a failing `response.json()` on success;
  - passes the request body to no one, because the fetch is an oracle indexed by attempt number;
  - leaves out the request duration and the development-time logging.
- The stored JSON is taken as well-typed lists. Corrupt JSON and a `mindflow_moods` value of
  another shape are not modelled.
- `TamboTools.ContextOf` leaves out `sessionStart`, which reads the clock.
- The network, timers, `Date.now`, `setInterval` and `setTimeout` are parameters or delay
  sequences. Console logging, `devLog`, `devWarn` and `logError` are left out.
- The `getJournalPrompts` tool wrapper and its guidance string are not modelled. Only the prompt
  lookup is.
- `checkOpenRouterHealth`, `AI_CONFIG`, `getSafeEnvInfo`, `isProduction` and
  `validateEnvironment`'s warning are not modelled. The key check of `validateEnvironment` is part
  of `AiConfig.GetOpenRouterConfig`.
- BreathingExercise's report to the Tambo state hook is left out. This is a foreign call.
- `Breathing.PhaseText`: only the duration suffix of the phase texts is stated. Their wording is
  display only.
- `Meditation.FormatTimeRoundTrip` covers non-negative seconds only. The countdown never goes
  below 0.
- `Sleep.SleepWindDown.CompletedCount` counts the done flags over the four routine ids, not over
  the map's values. The two agree because `Valid` keeps the keys among the routine ids.
- `Sleep.SleepWindDown.Toggle` requires a routine id. The page calls `toggle` only with the ids
  of its routine list.
- `ChatRoute.SanitizeIdempotent` is stated only when the trimmed text fits in 10000 characters.
  A cut can end in whitespace, which a second sanitise would trim.

- `Meditation.MeditationGuide.constructor` and `Breathing.BreathingExercise.constructor` take
  integer durations. The props are JavaScript numbers and may be fractional. A fractional
  countdown and the decimal text `formatTime` would then print are not modelled.
- `EnvUtils.UsageLog.GetUsageStats` returns the entries as a value. The source returns the live
  `usageLog` array, which a later `clearUsageStats` empties in place. That aliasing is not
  captured.
- `MoodTools.GetJournalPrompts` takes one of the eight moods of the enum, the only values the
  tool's schema admits. Other strings, among them inherited `Object.prototype` names, are not
  modelled.

## Findings

| source | as written | input that shows it | evidently intended | confidence | as-written member | corrected member |
|---|---|---|---|---|---|---|
| mindflow/src/lib/ai-component-selector.ts:193 | `components[name] \|\| null` indexes a plain object literal, so inherited `Object.prototype` members are found as well | `getComponentByName("constructor")` returns the `Object` constructor instead of null | null for every name outside the ten components | not executed | ComponentSelector.ComponentByNameAsWritten | ComponentSelector.ComponentByName |

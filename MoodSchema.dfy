/** The `MoodEntry` record the mood store keeps, and its Zod schema as a predicate. */
module MoodSchema {
  import opened Common

  /** The eight moods the schema's enum admits. */
  datatype Mood = Joyful | Calm | Anxious | Sad | Angry | Overwhelmed | Peaceful | Stressed

  /** The enum's spelling of each mood. */
  function MoodName(m: Mood): string {
    match m
    case Joyful => "joyful"
    case Calm => "calm"
    case Anxious => "anxious"
    case Sad => "sad"
    case Angry => "angry"
    case Overwhelmed => "overwhelmed"
    case Peaceful => "peaceful"
    case Stressed => "stressed"
  }

  /** The enum check: the mood a string spells, if it spells one. */
  function ParseMood(s: string): (r: Option<Mood>)
    ensures r.Some? ==> MoodName(r.value) == s
  {
    if s == "joyful" then Some(Joyful)
    else if s == "calm" then Some(Calm)
    else if s == "anxious" then Some(Anxious)
    else if s == "sad" then Some(Sad)
    else if s == "angry" then Some(Angry)
    else if s == "overwhelmed" then Some(Overwhelmed)
    else if s == "peaceful" then Some(Peaceful)
    else if s == "stressed" then Some(Stressed)
    else None
  }

  /** Every mood's spelling parses back to that mood, so no two moods share a spelling. */
  lemma MoodNameRoundTrip(m: Mood)
    ensures ParseMood(MoodName(m)) == Some(m)
  {
  }

  /**
   * One mood log entry. The ISO `timestamp` string is kept as the instant it denotes, in
   * milliseconds; `intensity` is the JavaScript number, taken as an exact real.
   */
  datatype MoodEntry = MoodEntry(
    timestamp: int,
    mood: Mood,
    intensity: real,
    activities: Option<seq<string>>,
    notes: Option<string>)

  /** What the schema demands beyond the field types: an intensity between 1 and 10. */
  predicate ValidEntry(e: MoodEntry) {
    1.0 <= e.intensity <= 10.0
  }

  predicate AllValid(es: seq<MoodEntry>) {
    forall k :: 0 <= k < |es| ==> ValidEntry(es[k])
  }
}

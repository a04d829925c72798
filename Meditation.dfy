/**
 * The guided-meditation widget (components/generative/MeditationGuide): a one-second countdown,
 * the phase shown for the elapsed time, the `m:ss` clock and the play button's label.
 */
module Meditation {
  import opened Common
  import opened Strings

  datatype MeditationType = Breath | BodyScan | LovingKindness

  /** One step of a script: what to show and for how many seconds. */
  datatype Phase = Phase(text: string, duration: nat)

  const BreathPhases: seq<Phase> := [
    Phase("Find a comfortable position", 20),
    Phase("Close your eyes gently", 10),
    Phase("Notice your natural breath", 30),
    Phase("Breathe deeply and slowly", 60),
    Phase("Let thoughts pass like clouds", 60),
    Phase("Return to your breath", 60),
    Phase("Feel gratitude for this moment", 30),
    Phase("Slowly open your eyes", 10)
  ]

  const BodyScanPhases: seq<Phase> := [
    Phase("Lie down comfortably", 20),
    Phase("Notice your feet and toes", 40),
    Phase("Feel your legs relaxing", 40),
    Phase("Release tension in your core", 40),
    Phase("Soften your chest and shoulders", 40),
    Phase("Relax your neck and face", 40),
    Phase("Feel your whole body at peace", 40),
    Phase("Take your time returning", 20)
  ]

  const LovingKindnessPhases: seq<Phase> := [
    Phase("Think of someone you love", 30),
    Phase("May they be happy", 40),
    Phase("May they be healthy", 40),
    Phase("May they be safe", 40),
    Phase("Now direct these wishes to yourself", 40),
    Phase("May I be happy and healthy", 60),
    Phase("Extend compassion to all beings", 40),
    Phase("Rest in loving kindness", 30)
  ]

  function PhasesOf(kind: MeditationType): (ps: seq<Phase>)
    ensures |ps| == 8
  {
    match kind
    case Breath => BreathPhases
    case BodyScan => BodyScanPhases
    case LovingKindness => LovingKindnessPhases
  }

  /** The second at which phase `i` begins: the durations of the phases before it, summed. */
  function StartOf(ps: seq<Phase>, i: nat): int
    requires i <= |ps|
  {
    if i == 0 then 0 else StartOf(ps, i - 1) + ps[i - 1].duration
  }

  /** The script's length in seconds. */
  function Total(ps: seq<Phase>): int {
    StartOf(ps, |ps|)
  }

  /** `elapsed` falls inside phase `i`'s interval. */
  predicate InPhase(ps: seq<Phase>, i: nat, elapsed: int)
    requires i < |ps|
  {
    StartOf(ps, i) <= elapsed < StartOf(ps, i) + ps[i].duration
  }

  /** The scan from phase `i` on, which starts at second `phaseTime`. */
  function PhaseScan(ps: seq<Phase>, elapsed: int, i: nat, phaseTime: int): (p: nat)
    requires i <= |ps| && phaseTime == StartOf(ps, i)
    ensures |ps| > 0 ==> i <= p < |ps| || (i == |ps| && p == |ps| - 1)
    decreases |ps| - i
  {
    if i == |ps| then (if |ps| == 0 then 0 else |ps| - 1)
    else if phaseTime <= elapsed < phaseTime + ps[i].duration then i
    else PhaseScan(ps, elapsed, i + 1, phaseTime + ps[i].duration)
  }

  /** The phase index for `elapsed` seconds: the first phase containing it, else the last. */
  function PhaseIndex(ps: seq<Phase>, elapsed: int): nat {
    PhaseScan(ps, elapsed, 0, 0)
  }

  lemma {:induction false} PhaseScanSpec(ps: seq<Phase>, elapsed: int, i: nat, phaseTime: int)
    requires 0 < |ps| && i <= |ps| && phaseTime == StartOf(ps, i)
    ensures var p := PhaseScan(ps, elapsed, i, phaseTime);
      && p < |ps|
      && ((InPhase(ps, p, elapsed) && forall j :: i <= j < p ==> !InPhase(ps, j, elapsed))
          || (p == |ps| - 1 && forall j :: i <= j < |ps| ==> !InPhase(ps, j, elapsed)))
    decreases |ps| - i
  {
    if i < |ps| && !(phaseTime <= elapsed < phaseTime + ps[i].duration) {
      PhaseScanSpec(ps, elapsed, i + 1, phaseTime + ps[i].duration);
    }
  }

  /**
   * The phase index is always a valid index, and it is the first phase whose interval holds
   * `elapsed`, or the last phase when none does (past the end of the script, or before it).
   */
  lemma PhaseIndexSpec(ps: seq<Phase>, elapsed: int)
    requires |ps| > 0
    ensures var p := PhaseIndex(ps, elapsed);
      && p < |ps|
      && ((InPhase(ps, p, elapsed) && forall j :: 0 <= j < p ==> !InPhase(ps, j, elapsed))
          || (p == |ps| - 1 && forall j :: 0 <= j < |ps| ==> !InPhase(ps, j, elapsed)))
  {
    PhaseScanSpec(ps, elapsed, 0, 0);
  }

  lemma {:induction false} StartOfGrows(ps: seq<Phase>, i: nat, j: nat)
    requires i < j <= |ps|
    ensures StartOf(ps, i) + ps[i].duration <= StartOf(ps, j)
    decreases j - i
  {
    if j > i + 1 {
      StartOfGrows(ps, i, j - 1);
    }
  }

  /** The phase intervals do not overlap, so at most one phase holds any second. */
  lemma PhasesDisjoint(ps: seq<Phase>, i: nat, j: nat, elapsed: int)
    requires i < |ps| && j < |ps|
    requires InPhase(ps, i, elapsed) && InPhase(ps, j, elapsed)
    ensures i == j
  {
    if i < j {
      StartOfGrows(ps, i, j);
    } else if j < i {
      StartOfGrows(ps, j, i);
    }
  }

  lemma {:induction false} StartOfSteps(ps: seq<Phase>, ds: seq<nat>, i: nat)
    requires |ds| == |ps| && i <= |ps|
    requires forall k :: 0 <= k < |ps| ==> ps[k].duration == ds[k]
    ensures StartOf(ps, i) == SumDurations(ds[..i])
  {
    if i > 0 {
      StartOfSteps(ps, ds, i - 1);
      assert ds[..i][..i - 1] == ds[..i - 1];
    }
  }

  function SumDurations(ds: seq<nat>): int {
    if ds == [] then 0 else SumDurations(ds[..|ds| - 1]) + ds[|ds| - 1]
  }

  /** The scripts last 280, 280 and 320 seconds. */
  lemma ScriptTotals()
    ensures Total(BreathPhases) == 280
    ensures Total(BodyScanPhases) == 280
    ensures Total(LovingKindnessPhases) == 320
  {
    StartOfSteps(BreathPhases, [20, 10, 30, 60, 60, 60, 30, 10], 8);
    StartOfSteps(BodyScanPhases, [20, 40, 40, 40, 40, 40, 40, 20], 8);
    StartOfSteps(LovingKindnessPhases, [30, 40, 40, 40, 40, 60, 40, 30], 8);
  }

  /**
   * In a five-minute breath meditation the last phase begins at second 270 and the script ends at
   * 280, so the final 20 seconds of the countdown stay on that phase.
   */
  lemma BreathTailStaysOnLastPhase(elapsed: int)
    requires 270 <= elapsed
    ensures PhaseIndex(BreathPhases, elapsed) == 7
  {
    PhaseIndexSpec(BreathPhases, elapsed);
    assert StartOf(BreathPhases, 4) == 120;
    assert StartOf(BreathPhases, 7) == 270;
    var p := PhaseIndex(BreathPhases, elapsed);
    if p < 7 {
      StartOfGrows(BreathPhases, p, 7);
    }
  }

  /** `Math.floor(seconds / 60)`. */
  function Minutes(seconds: int): int {
    seconds / 60
  }

  /** `seconds % 60` with JavaScript's sign of the dividend. */
  function Seconds(seconds: int): int {
    if seconds >= 0 then seconds % 60 else -((-seconds) % 60)
  }

  /** `s.padStart(2, '0')`. */
  function Pad2(s: string): (r: string)
    ensures |r| >= 2
  {
    if |s| == 0 then "00" else if |s| == 1 then "0" + s else s
  }

  /** `formatTime`, as shown on the clock. */
  function FormatTime(seconds: int): (r: string)
    ensures |r| >= 4 && ':' in r
  {
    IntToString(Minutes(seconds)) + ":" + Pad2(IntToString(Seconds(seconds)))
  }

  /** For a non-negative count the clock is `m:ss` and minutes and seconds recompose the count. */
  lemma FormatTimeRoundTrip(seconds: int)
    requires seconds >= 0
    ensures Minutes(seconds) * 60 + Seconds(seconds) == seconds
    ensures 0 <= Seconds(seconds) < 60
    ensures var m := NatToString(Minutes(seconds)); var r := FormatTime(seconds);
      && |r| == |m| + 3 && r[..|m|] == m && r[|m|] == ':'
      && (forall k :: |m| < k < |r| ==> IsDigit(r[k]))
      && DigitsValue(r[..|m|]) * 60 + DigitsValue(r[|m| + 1..]) == seconds
  {
    var m := NatToString(Minutes(seconds));
    var s := NatToString(Seconds(seconds));
    var r := FormatTime(seconds);
    DigitsRoundTrip(Minutes(seconds));
    DigitsRoundTrip(Seconds(seconds));
    assert r == m + ":" + Pad2(s);
    assert r[..|m|] == m;
    if |s| == 1 {
      assert r[|m| + 1..] == ['0'] + s;
      assert (['0'] + s)[..1] == ['0'];
      assert DigitsValue(['0']) == 0;
    } else {
      assert Seconds(seconds) >= 10;
      assert r[|m| + 1..] == s;
    }
  }

  /** The phase effect's `for` loop, with its early `break`. */
  method ComputePhase(phases: seq<Phase>, elapsed: int) returns (phase: nat)
    ensures phase == PhaseIndex(phases, elapsed)
    ensures |phases| > 0 ==> phase < |phases|
  {
    var phaseTime := 0;
    phase := 0;
    var i: nat := 0;
    while i < |phases|
      invariant i <= |phases|
      invariant phaseTime == StartOf(phases, i)
      invariant PhaseIndex(phases, elapsed) == PhaseScan(phases, elapsed, i, phaseTime)
      invariant phase == (if i == |phases| && i > 0 then i - 1 else 0)
    {
      if phaseTime <= elapsed < phaseTime + phases[i].duration {
        phase := i;
        break;
      }
      phaseTime := phaseTime + phases[i].duration;
      if i == |phases| - 1 {
        phase := i;
      }
      i := i + 1;
    }
  }

  /** The widget's state; `duration` and `kind` are its props. */
  class MeditationGuide {
    const duration: int
    const kind: MeditationType
    var isActive: bool
    var timeRemaining: int
    var currentPhase: nat

    /** The countdown lies between 0 and the full length, and the phase is a valid index. */
    predicate Valid()
      reads this
    {
      0 <= timeRemaining <= duration * 60 && currentPhase < 8
    }

    /** The props default to five minutes of breath meditation; the countdown starts full. */
    constructor(duration: Option<int>, kind: Option<MeditationType>)
      ensures this.duration == duration.GetOr(5) && this.kind == kind.GetOr(Breath)
      ensures !isActive && timeRemaining == this.duration * 60 && currentPhase == 0
      ensures this.duration >= 0 ==> Valid()
    {
      this.duration := duration.GetOr(5);
      this.kind := kind.GetOr(Breath);
      isActive := false;
      timeRemaining := duration.GetOr(5) * 60;
      currentPhase := 0;
    }

    /** One interval tick while active: the last second ends the session. */
    method Tick()
      requires isActive
      modifies this
      ensures old(timeRemaining) <= 1 ==> timeRemaining == 0 && !isActive
      ensures old(timeRemaining) > 1 ==> timeRemaining == old(timeRemaining) - 1 && isActive
      ensures currentPhase == old(currentPhase)
      ensures timeRemaining >= 0
      ensures old(Valid()) ==> Valid()
    {
      if timeRemaining <= 1 {
        isActive := false;
        timeRemaining := 0;
      } else {
        timeRemaining := timeRemaining - 1;
      }
    }

    /** The play/pause button. */
    method TogglePlay()
      modifies this
      ensures isActive == !old(isActive)
      ensures timeRemaining == old(timeRemaining) && currentPhase == old(currentPhase)
    {
      isActive := !isActive;
    }

    /** The phase effect, recomputing the phase from the elapsed seconds. */
    method UpdatePhase()
      modifies this
      ensures currentPhase == PhaseIndex(PhasesOf(kind), duration * 60 - timeRemaining)
      ensures isActive == old(isActive) && timeRemaining == old(timeRemaining)
      ensures old(Valid()) ==> Valid()
    {
      var phases := PhasesOf(kind);
      var phase := ComputePhase(phases, duration * 60 - timeRemaining);
      currentPhase := phase;
    }

    /** The play button's label. */
    function ButtonLabel(): (r: string)
      reads this
      ensures r == "Pause" <==> isActive
      ensures !isActive ==> (r == "Begin" <==> timeRemaining == duration * 60)
      ensures !isActive ==> (r == "Resume" <==> timeRemaining != duration * 60)
    {
      if isActive then "Pause" else if timeRemaining == duration * 60 then "Begin" else "Resume"
    }
  }
}

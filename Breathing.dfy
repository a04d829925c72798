/**
 * The breathing exercise (backup-generative-components/BreathingExercise): a 100 ms interval that
 * moves inhale, hold, exhale once the current phase has lasted `duration` seconds, counting a
 * cycle whenever it wraps back to inhale. The clock is the `now` parameter, in milliseconds.
 */
module Breathing {
  import opened Common
  import opened Strings

  datatype BreathPhase = Inhale | Hold | Exhale

  /** The effect's `phases` array. */
  const Phases: seq<BreathPhase> := [Inhale, Hold, Exhale]

  /** The phase that follows `p`. */
  function Next(p: BreathPhase): BreathPhase {
    match p
    case Inhale => Hold
    case Hold => Exhale
    case Exhale => Inhale
  }

  /** `(phaseIndex + 1) % phases.length`, in step with `Next`. */
  function NextIndex(i: nat): (j: nat)
    requires i < 3
    ensures j < 3 && Phases[j] == Next(Phases[i])
    ensures j == 0 <==> i == 2
  {
    (i + 1) % 3
  }

  /** Three steps bring the index back to where it was. */
  lemma ThreeStepsCycle(i: nat)
    requires i < 3
    ensures NextIndex(NextIndex(NextIndex(i))) == i
    ensures Next(Next(Next(Phases[i]))) == Phases[i]
  {
  }

  /** The circle's scale: expanded for inhale and hold, contracted for exhale. */
  function Scale(p: BreathPhase): (r: real)
    ensures r == 1.3 <==> p != Exhale
    ensures r == 0.8 <==> p == Exhale
  {
    match p
    case Inhale => 1.3
    case Hold => 1.3
    case Exhale => 0.8
  }

  /** The instruction shown for a phase. */
  function PhaseText(p: BreathPhase, duration: int): (r: string)
    ensures var secs := " (" + IntToString(duration) + "s)"; |r| > |secs| && r[|r| - |secs|..] == secs
  {
    var secs := " (" + IntToString(duration) + "s)";
    match p
    case Inhale => "Breathe In" + secs
    case Hold => "Hold" + secs
    case Exhale => "Breathe Out" + secs
  }

  class BreathingExercise {
    const duration: int
    var phase: BreathPhase
    var isActive: bool
    var count: nat
    /** The effect's local `phaseIndex` and `startTime`. */
    var phaseIndex: nat
    var startTime: int

    predicate Valid()
      reads this
    {
      phaseIndex < 3
    }

    /** The duration defaults to four seconds per phase; the exercise starts idle at inhale. */
    constructor(duration: Option<int>)
      ensures this.duration == duration.GetOr(4)
      ensures phase == Inhale && !isActive && count == 0 && phaseIndex == 0 && Valid()
    {
      this.duration := duration.GetOr(4);
      phase := Inhale;
      isActive := false;
      count := 0;
      phaseIndex := 0;
      startTime := 0;
    }

    /**
     * The Start/Pause button. Starting re-runs the effect, which restarts its local index at
     * inhale and its clock at `now`, but leaves the displayed phase as it was.
     */
    method ToggleActive(now: int)
      modifies this
      ensures isActive == !old(isActive)
      ensures isActive ==> phaseIndex == 0 && startTime == now
      ensures !isActive ==> phaseIndex == old(phaseIndex) && startTime == old(startTime)
      ensures phase == old(phase) && count == old(count)
      ensures old(Valid()) ==> Valid()
    {
      isActive := !isActive;
      if isActive {
        phaseIndex := 0;
        startTime := now;
      }
    }

    /** One interval callback at time `now`. */
    method Tick(now: int)
      requires isActive && Valid()
      modifies this
      ensures Valid() && isActive
      ensures now - old(startTime) >= duration * 1000 ==>
        && (phaseIndex, count) == Advance(old(phaseIndex), old(count))
        && phase == Phases[phaseIndex] && startTime == now
      ensures now - old(startTime) < duration * 1000 ==>
        phaseIndex == old(phaseIndex) && phase == old(phase) && startTime == old(startTime) && count == old(count)
    {
      var elapsed := now - startTime;
      if elapsed >= duration * 1000 {
        phaseIndex := (phaseIndex + 1) % |Phases|;
        phase := Phases[phaseIndex];
        startTime := now;
        if phaseIndex == 0 {
          count := count + 1;
        }
      }
    }
  }

  /** The cycle bookkeeping after one phase change: index and completed cycles. */
  function Advance(i: nat, count: nat): (r: (nat, nat))
    requires i < 3
    ensures r.0 == NextIndex(i) && r.1 == count + (if r.0 == 0 then 1 else 0)
  {
    var j := (i + 1) % 3;
    (j, if j == 0 then count + 1 else count)
  }

  /** From inhale, three phase changes complete exactly one cycle and return to inhale. */
  lemma OneCyclePerThreeChanges(count: nat)
    ensures var a := Advance(0, count); var b := Advance(a.0, a.1); Advance(b.0, b.1) == (0, count + 1)
  {
  }
}

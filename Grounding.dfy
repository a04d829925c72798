/**
 * The 5-4-3-2-1 grounding widget (components/generative/AnxietyGrounding): one capped counter per
 * sense, the progress totals and which item buttons are clickable.
 */
module Grounding {

  datatype Sense = See | Touch | Hear | Smell | Taste

  /** Each step's item count. */
  function StepCount(s: Sense): nat {
    match s
    case See => 5
    case Touch => 4
    case Hear => 3
    case Smell => 2
    case Taste => 1
  }

  /** The counter record holds all five senses. */
  predicate Complete(c: map<Sense, int>) {
    forall s: Sense :: s in c
  }

  /** Every counter lies between 0 and its step's count. */
  predicate InBounds(c: map<Sense, int>) {
    Complete(c) && forall s :: s in c ==> 0 <= c[s] <= StepCount(s)
  }

  /** `Object.values(completed).reduce((a, b) => a + b, 0)`. */
  function Total(c: map<Sense, int>): int
    requires Complete(c)
  {
    c[See] + c[Touch] + c[Hear] + c[Smell] + c[Taste]
  }

  /** `steps.reduce((sum, step) => sum + step.count, 0)`. */
  function MaxProgress(): (r: nat)
    ensures r == 15
  {
    StepCount(See) + StepCount(Touch) + StepCount(Hear) + StepCount(Smell) + StepCount(Taste)
  }

  /** The record after a click: `Math.min((prev[key] || 0) + 1, max)` at `key`. */
  function Incremented(c: map<Sense, int>, key: Sense, max: int): (r: map<Sense, int>)
    requires Complete(c)
    ensures Complete(r) && r.Keys == c.Keys
    ensures r[key] == if c[key] + 1 <= max then c[key] + 1 else max
    ensures forall s :: s in c && s != key ==> r[s] == c[s]
  {
    c[key := if c[key] + 1 <= max then c[key] + 1 else max]
  }

  /** A click with its own step's cap keeps every counter in bounds and adds one below the cap. */
  lemma IncrementAddsOne(c: map<Sense, int>, key: Sense)
    requires InBounds(c)
    ensures InBounds(Incremented(c, key, StepCount(key)))
    ensures Total(Incremented(c, key, StepCount(key))) == Total(c) + (if c[key] < StepCount(key) then 1 else 0)
  {
  }

  /** Bounded counters never pass the maximum, and the total reaches it only when all are full. */
  lemma TotalBounds(c: map<Sense, int>)
    requires InBounds(c)
    ensures 0 <= Total(c) <= MaxProgress()
    ensures Total(c) == MaxProgress() <==> forall s :: s in c ==> c[s] == StepCount(s)
  {
    if Total(c) == MaxProgress() {
      forall s | s in c
        ensures c[s] == StepCount(s)
      {
        assert s == See || s == Touch || s == Hear || s == Smell || s == Taste;
      }
    }
  }

  /** The initial record: every sense at zero. */
  const Initial: map<Sense, int> := map[See := 0, Touch := 0, Hear := 0, Smell := 0, Taste := 0]

  lemma InitialInBounds()
    ensures InBounds(Initial) && Total(Initial) == 0
  {
    forall s: Sense
      ensures s in Initial && Initial[s] == 0
    {
      match s
      case See =>
      case Touch =>
      case Hear =>
      case Smell =>
      case Taste =>
    }
  }

  /** Item button `i` of a step is disabled while fewer than `i` items are done. */
  predicate ButtonDisabled(itemsCompleted: int, i: nat) {
    itemsCompleted < i
  }

  /** The widget's state. */
  class AnxietyGrounding {
    var completed: map<Sense, int>

    predicate Valid()
      reads this
    {
      InBounds(completed)
    }

    /** All five counters start at zero. */
    constructor()
      ensures completed == Initial
      ensures Valid() && Total(completed) == 0
    {
      completed := Initial;
      InitialInBounds();
    }

    /** `handleIncrement(key, max)`. */
    method HandleIncrement(key: Sense, max: int)
      requires Complete(completed)
      modifies this
      ensures completed == Incremented(old(completed), key, max)
    {
      completed := completed[key := if completed[key] + 1 <= max then completed[key] + 1 else max];
    }

    /** A click on item button `i` of step `key`: only an enabled button fires, with its step's count. */
    method ClickItem(key: Sense, i: nat)
      requires Valid() && i < StepCount(key)
      modifies this
      ensures ButtonDisabled(old(completed)[key], i) ==> completed == old(completed)
      ensures !ButtonDisabled(old(completed)[key], i) ==> completed == Incremented(old(completed), key, StepCount(key))
      ensures Valid()
    {
      if !ButtonDisabled(completed[key], i) {
        IncrementAddsOne(completed, key);
        HandleIncrement(key, StepCount(key));
      }
    }

    function TotalProgress(): (r: int)
      reads this
      requires Valid()
      ensures 0 <= r <= MaxProgress()
    {
      TotalBounds(completed);
      Total(completed)
    }

    /** `isComplete`: the total equals the maximum, which happens exactly when every step is done. */
    predicate IsComplete()
      reads this
      requires Valid()
      ensures IsComplete() <==> forall s :: s in completed ==> completed[s] == StepCount(s)
    {
      TotalBounds(completed);
      TotalProgress() == MaxProgress()
    }
  }
}

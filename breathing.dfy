/** The calm-breathing mini-game: an inhale / hold / exhale cycler driven by
    one-second ticks that stops by itself after three passes. */
module BreathingGame {

  datatype Phase = Rest | Inhale | Hold | Exhale

  datatype Breath = Breath(phase: Phase, timer: nat, isActive: bool, cyclesCompleted: nat)

  /** Before the first start and after the last exhale. */
  const Idle: Breath := Breath(Rest, 0, false, 0)

  /** "Start Breathing Exercise". */
  const Started: Breath := Breath(Inhale, 0, true, 0)

  /** The counter limit each breathing phase is tested against: 4, 7, 8. */
  function Limit(p: Phase): nat {
    match p
    case Inhale => 4
    case Hold => 7
    case Exhale => 8
    case Rest => 0
  }

  /** Whether counter value `next` ends a phase with the given limit. The source
      tests `next > limit`; `inclusive` selects `next >= limit` instead, which is
      what the 4-7-8 technique it animates calls for. */
  predicate Ends(next: nat, limit: nat, inclusive: bool) {
    if inclusive then next >= limit else next > limit
  }

  /** One interval callback. While inactive no interval is registered. */
  function Step(s: Breath, inclusive: bool): Breath {
    if !s.isActive then s
    else
      var next := s.timer + 1;
      if s.phase == Inhale && Ends(next, Limit(Inhale), inclusive) then s.(phase := Hold, timer := 0)
      else if s.phase == Hold && Ends(next, Limit(Hold), inclusive) then s.(phase := Exhale, timer := 0)
      else if s.phase == Exhale && Ends(next, Limit(Exhale), inclusive) then
        if s.cyclesCompleted >= 2 then Idle
        else Breath(Inhale, 0, true, s.cyclesCompleted + 1)
      else s.(timer := next)
  }

  /** The state after `n` ticks. */
  function Run(s: Breath, n: nat, inclusive: bool): Breath
    decreases n
  {
    if n == 0 then s else Run(Step(s, inclusive), n - 1, inclusive)
  }

  /** Ticks a breathing phase lasts, the tick that leaves it included. */
  function Span(p: Phase, inclusive: bool): nat {
    if inclusive then Limit(p) else Limit(p) + 1
  }

  function CycleLength(inclusive: bool): nat {
    Span(Inhale, inclusive) + Span(Hold, inclusive) + Span(Exhale, inclusive)
  }

  /** The state a phase hands over to when its span is over. */
  function After(p: Phase, cycles: nat): Breath {
    match p
    case Inhale => Breath(Hold, 0, true, cycles)
    case Hold => Breath(Exhale, 0, true, cycles)
    case Exhale => if cycles >= 2 then Idle else Breath(Inhale, 0, true, cycles + 1)
    case Rest => Idle
  }

  lemma {:induction false} RunAdd(s: Breath, a: nat, b: nat, inclusive: bool)
    ensures Run(s, a + b, inclusive) == Run(Run(s, a, inclusive), b, inclusive)
    decreases a
  {
    if a > 0 {
      RunAdd(Step(s, inclusive), a - 1, b, inclusive);
    }
  }

  /** Once stopped, ticks change nothing. */
  lemma {:induction false} InactiveStays(s: Breath, n: nat, inclusive: bool)
    requires !s.isActive
    ensures Run(s, n, inclusive) == s
    decreases n
  {
    if n > 0 {
      InactiveStays(Step(s, inclusive), n - 1, inclusive);
    }
  }

  /** Inside a phase each tick only advances the counter. */
  lemma {:induction false} Counting(p: Phase, t: nat, k: nat, c: nat, inclusive: bool)
    requires p != Rest && t + k < Span(p, inclusive)
    ensures Run(Breath(p, t, true, c), k, inclusive) == Breath(p, t + k, true, c)
    decreases k
  {
    if k > 0 {
      assert Step(Breath(p, t, true, c), inclusive) == Breath(p, t + 1, true, c);
      Counting(p, t + 1, k - 1, c, inclusive);
    }
  }

  /** A phase entered with counter 0 hands over after exactly its span. */
  lemma PhaseEnd(p: Phase, c: nat, inclusive: bool)
    requires p != Rest
    ensures Run(Breath(p, 0, true, c), Span(p, inclusive), inclusive) == After(p, c)
  {
    var s := Breath(p, 0, true, c);
    var n := Span(p, inclusive);
    RunAdd(s, n - 1, 1, inclusive);
    Counting(p, 0, n - 1, c, inclusive);
  }

  /** One full inhale-hold-exhale pass. */
  lemma Cycle(c: nat, inclusive: bool)
    ensures Run(Breath(Inhale, 0, true, c), CycleLength(inclusive), inclusive) == After(Exhale, c)
  {
    var s := Breath(Inhale, 0, true, c);
    var i, h := Span(Inhale, inclusive), Span(Hold, inclusive);
    RunAdd(s, i, h + Span(Exhale, inclusive), inclusive);
    PhaseEnd(Inhale, c, inclusive);
    RunAdd(Breath(Hold, 0, true, c), h, Span(Exhale, inclusive), inclusive);
    PhaseEnd(Hold, c, inclusive);
    PhaseEnd(Exhale, c, inclusive);
  }

  /** Three passes from the start end at rest. */
  lemma ExerciseEnds(inclusive: bool)
    ensures Run(Started, 3 * CycleLength(inclusive), inclusive) == Idle
  {
    var n := CycleLength(inclusive);
    Cycle(0, inclusive);
    Cycle(1, inclusive);
    Cycle(2, inclusive);
    RunAdd(Started, n, n, inclusive);
    RunAdd(Started, 2 * n, n, inclusive);
  }

  /** One tick before the end the third exhale is still running. */
  lemma LastTickActive(inclusive: bool)
    ensures Run(Started, 3 * CycleLength(inclusive) - 1, inclusive) == Breath(Exhale, Span(Exhale, inclusive) - 1, true, 2)
  {
    var n := CycleLength(inclusive);
    Cycle(0, inclusive);
    Cycle(1, inclusive);
    RunAdd(Started, n, n, inclusive);
    var third := Breath(Inhale, 0, true, 2);
    assert Run(Started, 2 * n, inclusive) == third;
    var i, h, e := Span(Inhale, inclusive), Span(Hold, inclusive), Span(Exhale, inclusive);
    RunAdd(Started, 2 * n, n - 1, inclusive);
    RunAdd(third, i + h, e - 1, inclusive);
    RunAdd(third, i, h, inclusive);
    PhaseEnd(Inhale, 2, inclusive);
    PhaseEnd(Hold, 2, inclusive);
    Counting(Exhale, 0, e - 1, 2, inclusive);
  }

  /** If the session is still active after `m` ticks, it was active at every
      earlier tick too, because a stopped session stays stopped. */
  lemma {:induction false} ActiveBefore(s: Breath, m: nat, inclusive: bool)
    requires Run(s, m, inclusive).isActive
    ensures forall k :: 0 <= k <= m ==> Run(s, k, inclusive).isActive
  {
    forall k | 0 <= k <= m
      ensures Run(s, k, inclusive).isActive
    {
      RunAdd(s, k, m - k, inclusive);
      if !Run(s, k, inclusive).isActive {
        InactiveStays(Run(s, k, inclusive), m - k, inclusive);
      }
    }
  }

  /** The whole exercise: exactly three passes, active until the last tick of
      the third exhale, then back to rest with the cycle count cleared. */
  lemma Exercise(inclusive: bool)
    ensures Run(Started, 3 * CycleLength(inclusive), inclusive) == Idle
    ensures forall k :: 0 <= k < 3 * CycleLength(inclusive) ==> Run(Started, k, inclusive).isActive
  {
    ExerciseEnds(inclusive);
    LastTickActive(inclusive);
    ActiveBefore(Started, 3 * CycleLength(inclusive) - 1, inclusive);
  }

  /** As written the phases last 5, 8 and 9 ticks, so the exercise takes 66
      ticks instead of the 3 * (4 + 7 + 8) = 57 of the 4-7-8 technique. */
  lemma AsWrittenTakes66Ticks()
    ensures Span(Inhale, false) == 5 && Span(Hold, false) == 8 && Span(Exhale, false) == 9
    ensures Run(Started, 66, false) == Idle
    ensures forall k :: 0 <= k < 66 ==> Run(Started, k, false).isActive
  {
    Exercise(false);
  }

  /** With the phase test `next >= limit` the phases last 4, 7 and 8 ticks and
      the three passes take 57. */
  lemma IntendedTakes57Ticks()
    ensures Span(Inhale, true) == 4 && Span(Hold, true) == 7 && Span(Exhale, true) == 8
    ensures Run(Started, 57, true) == Idle
    ensures forall k :: 0 <= k < 57 ==> Run(Started, k, true).isActive
  {
    Exercise(true);
  }

  /** The component state. */
  class BreathingGame {
    var phase: Phase
    var timer: nat
    var isActive: bool
    var cyclesCompleted: nat

    function State(): Breath
      reads this
    {
      Breath(phase, timer, isActive, cyclesCompleted)
    }

    constructor ()
      ensures State() == Idle
    {
      phase, timer, isActive, cyclesCompleted := Rest, 0, false, 0;
    }

    method StartBreathing()
      modifies this
      ensures State() == Started
    {
      isActive := true;
      phase := Inhale;
      timer := 0;
      cyclesCompleted := 0;
    }

    /** One interval callback, as the source writes it. */
    method Tick()
      modifies this
      ensures State() == Step(old(State()), false)
    {
      if isActive {
        var nextTimer := timer + 1;
        if phase == Inhale && nextTimer > 4 {
          phase := Hold;
          timer := 0;
        } else if phase == Hold && nextTimer > 7 {
          phase := Exhale;
          timer := 0;
        } else if phase == Exhale && nextTimer > 8 {
          if cyclesCompleted >= 2 {
            isActive := false;
            cyclesCompleted := 0;
            phase := Rest;
            timer := 0;
          } else {
            phase := Inhale;
            cyclesCompleted := cyclesCompleted + 1;
            timer := 0;
          }
        } else {
          timer := nextTimer;
        }
      }
    }
  }
}

/**
 * The random-activation input: a periodic input whose probability loop, after each
 * wait, draws a sample and fires its handler only when the sample is at most the
 * current activation probability. A miss raises the probability (capped at 1); a hit
 * counts an activation, optionally resets the probability and waits an extra cooldown.
 *
 * The sample (`Random.value`, in [0, 1]) and the probability the probability-methods
 * leave behind are parameters of the wake step.
 */
module RandomInput {
  import opened Wrappers
  import opened Activable
  import opened World
  import opened PeriodicInput

  predicate IsRandom(w: World, c: Handle) {
    IsPeriodic(w, c) && w.components[c].kind.random.Some?
  }

  function Rand(w: World, c: Handle): RandomState
    requires IsRandom(w, c)
  {
    w.components[c].kind.random.value
  }

  function WithRandom(w: World, c: Handle, r: RandomState): (w': World)
    requires IsRandom(w, c)
    ensures IsRandom(w', c) && Rand(w', c) == r && Loops(w', c) == Loops(w, c)
    ensures w'.components[c].budget == w.components[c].budget && w'.trace == w.trace
  {
    var k := w.components[c].kind;
    WithKind(w, c, PeriodicIn(k.lastActivated, k.loops, Some(r)))
  }

  /** `Mathf.Min(1, p)`. */
  function CapAtOne(p: real): (r: real)
    ensures r <= 1.0 && r <= p
    ensures r == p || r == 1.0
  {
    if 1.0 < p then 1.0 else p
  }

  /** One miss: the probability grows by the increment, capped at 1. */
  function Raise(p: real, inc: real): real {
    CapAtOne(p + inc)
  }

  /** `n` misses in a row (with no probability-methods in between). */
  function RaiseN(p: real, inc: real, n: nat): real {
    if n == 0 then p else Raise(RaiseN(p, inc, n - 1), inc)
  }

  /** `Start`: snapshot the probability as the initial one, then the periodic `Start`. */
  function AfterRandomStart(w: World, c: Handle): (w': World)
    requires IsRandom(w, c)
    ensures IsRandom(w', c)
  {
    var r := Rand(w, c);
    AfterPeriodicStart(WithRandom(w, c, r.(initial := r.probability)), c)
  }

  /** The probability loop at its test: it ends when deactivated or exhausted, otherwise it waits. */
  function CheckHeadStep(w: World, c: Handle): (w': World)
    requires IsRandom(w, c) && CheckHead in Loops(w, c)
    ensures IsRandom(w', c) && Rand(w', c) == Rand(w, c)
  {
    var b := w.components[c].budget;
    if !b.activated || Exhausted(b) then WithLoops(w, c, Loops(w, c) - multiset{CheckHead})
    else WithLoops(w, c, Loops(w, c) - multiset{CheckHead} + multiset{CheckWait})
  }

  /**
   * The probability loop's test: a deactivated or exhausted input ends that loop;
   * otherwise the loop starts waiting. Either way the budget, the probability and the
   * trace are unchanged, and no other loop is touched.
   */
  lemma CheckHeadCases(w: World, c: Handle)
    requires IsRandom(w, c) && CheckHead in Loops(w, c)
    ensures var w' := CheckHeadStep(w, c);
      && w'.components[c].budget == w.components[c].budget && w'.trace == w.trace
      && Rand(w', c) == Rand(w, c)
      && Loops(w', c)[CheckHead] == Loops(w, c)[CheckHead] - 1
      && Loops(w', c)[CheckCooldown] == Loops(w, c)[CheckCooldown]
    ensures !Ready(w.components[c].budget) ==>
      Loops(CheckHeadStep(w, c), c) == Loops(w, c) - multiset{CheckHead}
    ensures Ready(w.components[c].budget) ==>
      && Loops(CheckHeadStep(w, c), c)[CheckWait] == Loops(w, c)[CheckWait] + 1
      && |Loops(CheckHeadStep(w, c), c)| == |Loops(w, c)|
  {
  }

  /** The probability the draw is compared with: the one the probability-methods leave when they run. */
  function DrawProbability(r: RandomState, adjusted: real): real {
    if r.byMethod then adjusted else r.probability
  }

  /** When configured, the probability-methods run and leave `adjusted` as the probability. */
  function RunProbabilityMethods(w: World, c: Handle, adjusted: real): (w': World)
    requires IsRandom(w, c)
    ensures IsRandom(w', c) && Loops(w', c) == Loops(w, c)
    ensures Rand(w', c) == Rand(w, c).(probability := DrawProbability(Rand(w, c), adjusted))
    ensures w'.components[c].budget == w.components[c].budget
  {
    var r := Rand(w, c);
    if r.byMethod then Fire(WithRandom(w, c, r.(probability := adjusted)), c, ProbabilityMethods, 0) else w
  }

  /** The draw: compare `sample` with the current probability. */
  function Draw(w: World, c: Handle, sample: real): (w': World)
    requires IsRandom(w, c) && CheckWait in Loops(w, c)
    ensures IsRandom(w', c)
  {
    var r := Rand(w, c);
    var p := r.probability;
    if sample <= p then
      var w2 := WithRandom(w, c, r.(probability := if r.resetAfter then r.initial else p));
      var w3 := WithBudget(w2, c, Spend(w2.components[c].budget));
      Fire(WithLoops(w3, c, Loops(w, c) - multiset{CheckWait} + multiset{CheckCooldown}), c, ActivationMethods, 0)
    else
      var w2 := WithRandom(w, c, r.(probability := Raise(p, r.increasing)));
      WithLoops(w2, c, Loops(w, c) - multiset{CheckWait} + multiset{CheckHead})
  }

  /** The probability loop wakes: the probability-methods, then the draw. */
  function CheckWake(w: World, c: Handle, adjusted: real, sample: real): (w': World)
    requires IsRandom(w, c) && CheckWait in Loops(w, c)
    ensures IsRandom(w', c)
  {
    Draw(RunProbabilityMethods(w, c, adjusted), c, sample)
  }

  /** The extra wait after a hit ends: back to the test. */
  function CooldownWake(w: World, c: Handle): (w': World)
    requires IsRandom(w, c) && CheckCooldown in Loops(w, c)
    ensures IsRandom(w', c) && Rand(w', c) == Rand(w, c)
    ensures CheckHead in Loops(w', c) && |Loops(w', c)| == |Loops(w, c)|
    ensures Loops(w', c)[CheckCooldown] == Loops(w, c)[CheckCooldown] - 1
    ensures w'.components[c].budget == w.components[c].budget && w'.trace == w.trace
  {
    WithLoops(w, c, Loops(w, c) - multiset{CheckCooldown} + multiset{CheckHead})
  }

  /**
   * `Start` records the configured probability as the one to reset to, and then, like
   * the periodic input, starts the periodic loop (not the probability loop) when activated.
   */
  lemma RandomStartSnapshots(w: World, c: Handle)
    requires IsRandom(w, c)
    ensures var w' := AfterRandomStart(w, c);
      && Rand(w', c).initial == Rand(w, c).probability
      && Rand(w', c).probability == Rand(w, c).probability
      && Loops(w', c) == (if w.components[c].budget.activated then Loops(w, c) + multiset{PeriodicHead} else Loops(w, c))
      && w'.trace == w.trace
  {
  }

  /** A false-to-true change of the flag starts the probability loop. */
  lemma RandomUpdateStartsCheck(w: World, c: Handle)
    requires IsRandom(w, c)
    requires !w.components[c].kind.lastActivated && w.components[c].budget.activated
    ensures Loops(AfterPeriodicUpdate(w, c), c) == Loops(w, c) + multiset{CheckHead}
  {
    PeriodicUpdateEdge(w, c);
  }

  /**
   * The wake step in full: a hit (sample at most the probability) counts one activation,
   * fires the handler, resets the probability if configured and moves to the cooldown;
   * a miss counts nothing, raises the probability by the increment up to 1 and goes back
   * to the test. The probability-methods run first exactly when configured.
   */
  lemma CheckWakeCases(w: World, c: Handle, adjusted: real, sample: real)
    requires IsRandom(w, c) && CheckWait in Loops(w, c)
    ensures var w' := CheckWake(w, c, adjusted, sample);
      var r := Rand(w, c);
      var p := DrawProbability(r, adjusted);
      var pre := if r.byMethod then w.trace + [Fired(c, ProbabilityMethods, 0)] else w.trace;
      && Rand(w', c).initial == r.initial
      && (sample <= p ==>
            && w'.components[c].budget == Spend(w.components[c].budget)
            && w'.trace == pre + [Fired(c, ActivationMethods, 0)]
            && Rand(w', c).probability == (if r.resetAfter then r.initial else p)
            && Loops(w', c) == Loops(w, c) - multiset{CheckWait} + multiset{CheckCooldown})
      && (p < sample ==>
            && w'.components[c].budget == w.components[c].budget
            && w'.trace == pre
            && Rand(w', c).probability == Raise(p, r.increasing)
            && Loops(w', c) == Loops(w, c) - multiset{CheckWait} + multiset{CheckHead})
  {
  }

  /** After a miss the probability never exceeds 1, and a non-negative increment never lowers it below the drawn one (up to 1). */
  lemma MissKeepsProbabilityBounded(w: World, c: Handle, adjusted: real, sample: real)
    requires IsRandom(w, c) && CheckWait in Loops(w, c)
    requires DrawProbability(Rand(w, c), adjusted) < sample
    ensures Rand(CheckWake(w, c, adjusted, sample), c).probability <= 1.0
    ensures Rand(w, c).increasing >= 0.0 && DrawProbability(Rand(w, c), adjusted) <= 1.0 ==>
      Rand(CheckWake(w, c, adjusted, sample), c).probability >= DrawProbability(Rand(w, c), adjusted)
  {
    CheckWakeCases(w, c, adjusted, sample);
  }

  /** A probability of 1 or more makes every draw a hit, since samples lie in [0, 1]. */
  lemma CertainActivation(w: World, c: Handle, adjusted: real, sample: real)
    requires IsRandom(w, c) && CheckWait in Loops(w, c)
    requires 0.0 <= sample <= 1.0 && DrawProbability(Rand(w, c), adjusted) >= 1.0
    ensures CheckWake(w, c, adjusted, sample).components[c].budget == Spend(w.components[c].budget)
    ensures CheckCooldown in Loops(CheckWake(w, c, adjusted, sample), c)
  {
    CheckWakeCases(w, c, adjusted, sample);
  }

  /** One more miss adds one more increment to the uncapped sum. */
  lemma SumStep(p: real, inc: real, n: nat)
    requires n > 0
    ensures p + n as real * inc == (p + (n - 1) as real * inc) + inc
  {
    assert n as real == (n - 1) as real + 1.0;
  }

  /** `n` misses in a row raise a probability of at most 1 to exactly `min(1, p + n * inc)` when the increment is non-negative. */
  lemma {:induction false} RaiseNClosedForm(p: real, inc: real, n: nat)
    requires p <= 1.0 && inc >= 0.0
    ensures RaiseN(p, inc, n) == CapAtOne(p + n as real * inc)
  {
    if n > 0 {
      RaiseNClosedForm(p, inc, n - 1);
      var q := p + (n - 1) as real * inc;
      var r := RaiseN(p, inc, n - 1);
      assert r == CapAtOne(q);
      SumStep(p, inc, n);
      assert RaiseN(p, inc, n) == CapAtOne(r + inc);
      if 1.0 < q {
        assert r == 1.0;
        assert CapAtOne(r + inc) == 1.0;
        assert CapAtOne(q + inc) == 1.0;
      } else {
        assert r == q;
      }
    }
  }

  /** With a positive increment, enough misses make the next draw certain. */
  lemma MissesReachCertainty(p: real, inc: real, n: nat)
    requires p <= 1.0 && inc > 0.0 && p + n as real * inc >= 1.0
    ensures RaiseN(p, inc, n) == 1.0
  {
    RaiseNClosedForm(p, inc, n);
  }

  method RandomStart(e: Engine, c: Handle)
    requires IsRandom(e.State(), c)
    modifies e
    ensures e.State() == AfterRandomStart(old(e.State()), c)
  {
    var k := e.components[c].kind;
    var r := k.random.value;
    e.components := e.components[c := e.components[c].(kind := PeriodicIn(k.lastActivated, k.loops, Some(r.(initial := r.probability))))];
    PeriodicStart(e, c);
  }

  method CheckTest(e: Engine, c: Handle)
    requires IsRandom(e.State(), c) && CheckHead in Loops(e.State(), c)
    modifies e
    ensures e.State() == CheckHeadStep(old(e.State()), c)
  {
    var b := e.components[c].budget;
    var k := e.components[c].kind;
    if !b.activated || Exhausted(b) {
      e.components := e.components[c := e.components[c].(kind := PeriodicIn(k.lastActivated, k.loops - multiset{CheckHead}, k.random))];
    } else {
      e.components := e.components[c := e.components[c].(kind := PeriodicIn(k.lastActivated, k.loops - multiset{CheckHead} + multiset{CheckWait}, k.random))];
    }
  }

  method ProbabilityMethodsStep(e: Engine, c: Handle, adjusted: real)
    requires IsRandom(e.State(), c)
    modifies e
    ensures e.State() == RunProbabilityMethods(old(e.State()), c, adjusted)
  {
    var k := e.components[c].kind;
    var r := k.random.value;
    if r.byMethod {
      e.components := e.components[c := e.components[c].(kind := PeriodicIn(k.lastActivated, k.loops, Some(r.(probability := adjusted))))];
      e.trace := e.trace + [Fired(c, ProbabilityMethods, 0)];
    }
  }

  method DrawStep(e: Engine, c: Handle, sample: real)
    requires IsRandom(e.State(), c) && CheckWait in Loops(e.State(), c)
    modifies e
    ensures e.State() == Draw(old(e.State()), c, sample)
  {
    var comp := e.components[c];
    var k := comp.kind;
    var r := k.random.value;
    if sample <= r.probability {
      var r' := r.(probability := if r.resetAfter then r.initial else r.probability);
      var k' := PeriodicIn(k.lastActivated, k.loops - multiset{CheckWait} + multiset{CheckCooldown}, Some(r'));
      e.components := e.components[c := Component(Spend(comp.budget), comp.owner, comp.host, k')];
      e.trace := e.trace + [Fired(c, ActivationMethods, 0)];
    } else {
      var r' := r.(probability := Raise(r.probability, r.increasing));
      var k' := PeriodicIn(k.lastActivated, k.loops - multiset{CheckWait} + multiset{CheckHead}, Some(r'));
      e.components := e.components[c := comp.(kind := k')];
    }
  }

  method CheckWakeUp(e: Engine, c: Handle, adjusted: real, sample: real)
    requires IsRandom(e.State(), c) && CheckWait in Loops(e.State(), c)
    modifies e
    ensures e.State() == CheckWake(old(e.State()), c, adjusted, sample)
  {
    ProbabilityMethodsStep(e, c, adjusted);
    DrawStep(e, c, sample);
  }

  method CooldownWakeUp(e: Engine, c: Handle)
    requires IsRandom(e.State(), c) && CheckCooldown in Loops(e.State(), c)
    modifies e
    ensures e.State() == CooldownWake(old(e.State()), c)
  {
    var k := e.components[c].kind;
    e.components := e.components[c := e.components[c].(kind := PeriodicIn(k.lastActivated, k.loops - multiset{CheckCooldown} + multiset{CheckHead}, k.random))];
  }
}

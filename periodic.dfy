/**
 * The periodic-activation input: a timer loop that, while the input is activated and
 * its budget lasts, waits and then counts an activation and fires its handler.
 *
 * Running loops are a multiset of loop positions: `PeriodicHead` is a loop at its
 * `while` test, `PeriodicWait` one waiting for its timer. A head step and a wake step
 * are separate events, so any interleaving of several loops can be expressed.
 */
module PeriodicInput {
  import opened Activable
  import opened World

  predicate IsPeriodic(w: World, c: Handle) {
    c in w.components && w.components[c].kind.PeriodicIn?
  }

  function Loops(w: World, c: Handle): multiset<Phase>
    requires IsPeriodic(w, c)
  {
    w.components[c].kind.loops
  }

  function WithLoops(w: World, c: Handle, loops: multiset<Phase>): (w': World)
    requires IsPeriodic(w, c)
    ensures IsPeriodic(w', c)
  {
    WithKind(w, c, w.components[c].kind.(loops := loops))
  }

  /** Record the last observed value of the activated flag. */
  function WithLastActivated(w: World, c: Handle, value: bool): (w': World)
    requires IsPeriodic(w, c)
    ensures IsPeriodic(w', c) && Loops(w', c) == Loops(w, c)
  {
    var k := w.components[c].kind;
    WithKind(w, c, PeriodicIn(value, k.loops, k.random))
  }

  /** Start one more loop at position `phase`. */
  function Launch(w: World, c: Handle, phase: Phase): (w': World)
    requires IsPeriodic(w, c)
    ensures IsPeriodic(w', c)
  {
    WithLoops(w, c, Loops(w, c) + multiset{phase})
  }

  /** `Start`: remember the flag, and start the periodic loop if activated. */
  function AfterPeriodicStart(w: World, c: Handle): (w': World)
    requires IsPeriodic(w, c)
    ensures IsPeriodic(w', c)
  {
    var b := w.components[c].budget;
    var w1 := WithLastActivated(w, c, b.activated);
    if b.activated then Launch(w1, c, PeriodicHead) else w1
  }

  /** The loop `IniciarCorrutina` starts: the probability loop for the random variant, the periodic loop otherwise. */
  function FirstPhase(k: ComponentKind): Phase
    requires k.PeriodicIn?
  {
    if k.random.Some? then CheckHead else PeriodicHead
  }

  /** `IniciarCorrutina`. */
  function AfterIniciarCorrutina(w: World, c: Handle): (w': World)
    requires IsPeriodic(w, c)
    ensures IsPeriodic(w', c)
  {
    Launch(w, c, FirstPhase(w.components[c].kind))
  }

  /** `Update`: start a loop on a false-to-true change of the flag; only record a true-to-false change. */
  function AfterPeriodicUpdate(w: World, c: Handle): (w': World)
    requires IsPeriodic(w, c)
    ensures IsPeriodic(w', c)
  {
    var act := w.components[c].budget.activated;
    var k := w.components[c].kind;
    if !k.lastActivated && act then AfterIniciarCorrutina(WithLastActivated(w, c, true), c)
    else if k.lastActivated && !act then WithLastActivated(w, c, false)
    else w
  }

  /** `OnDisable`: stop every running loop. */
  function AfterPeriodicDisable(w: World, c: Handle): (w': World)
    requires IsPeriodic(w, c)
    ensures IsPeriodic(w', c) && Loops(w', c) == multiset{}
  {
    WithLoops(w, c, multiset{})
  }

  /** A loop at its test: it ends when deactivated or exhausted, otherwise it starts waiting. */
  function PeriodicHeadStep(w: World, c: Handle): (w': World)
    requires IsPeriodic(w, c) && PeriodicHead in Loops(w, c)
    ensures IsPeriodic(w', c)
  {
    var b := w.components[c].budget;
    if !b.activated || Exhausted(b) then WithLoops(w, c, Loops(w, c) - multiset{PeriodicHead})
    else WithLoops(w, c, Loops(w, c) - multiset{PeriodicHead} + multiset{PeriodicWait})
  }

  /** A waiting loop wakes: count one activation, fire the handler, go back to the test. */
  function PeriodicWake(w: World, c: Handle): (w': World)
    requires IsPeriodic(w, c) && PeriodicWait in Loops(w, c)
    ensures IsPeriodic(w', c)
  {
    var w1 := WithBudget(w, c, Spend(w.components[c].budget));
    Fire(WithLoops(w1, c, Loops(w, c) - multiset{PeriodicWait} + multiset{PeriodicHead}), c, ActivationMethods, 0)
  }

  /** `Start` launches one periodic loop exactly when the input is activated. */
  lemma PeriodicStartLaunches(w: World, c: Handle)
    requires IsPeriodic(w, c)
    ensures var w' := AfterPeriodicStart(w, c);
      && w'.components[c].kind.lastActivated == w.components[c].budget.activated
      && Loops(w', c) == (if w.components[c].budget.activated then Loops(w, c) + multiset{PeriodicHead} else Loops(w, c))
      && w'.components[c].budget == w.components[c].budget
  {
  }

  /**
   * `Update` is an edge detector: it starts exactly one loop on a false-to-true change
   * and none otherwise; a true-to-false change does not stop running loops; afterwards
   * the recorded flag equals the current one.
   */
  lemma PeriodicUpdateEdge(w: World, c: Handle)
    requires IsPeriodic(w, c)
    ensures var w' := AfterPeriodicUpdate(w, c);
      var k := w.components[c].kind;
      var act := w.components[c].budget.activated;
      && w'.components[c].kind.lastActivated == act
      && (!k.lastActivated && act ==> Loops(w', c) == Loops(w, c) + multiset{FirstPhase(k)})
      && (!(!k.lastActivated && act) ==> Loops(w', c) == Loops(w, c))
      && w'.components[c].budget == w.components[c].budget
      && w'.trace == w.trace
  {
  }

  /** Each iteration first exits when deactivated or exhausted: the loop is gone and nothing else changes. */
  lemma PeriodicHeadExits(w: World, c: Handle)
    requires IsPeriodic(w, c) && PeriodicHead in Loops(w, c)
    requires !Ready(w.components[c].budget)
    ensures Loops(PeriodicHeadStep(w, c), c) == Loops(w, c) - multiset{PeriodicHead}
    ensures PeriodicHeadStep(w, c).components[c].budget == w.components[c].budget
    ensures PeriodicHeadStep(w, c).trace == w.trace
  {
  }

  /** After the wait the count rises by exactly one and the handler fires, with no second look at flag or budget. */
  lemma PeriodicWakeCounts(w: World, c: Handle)
    requires IsPeriodic(w, c) && PeriodicWait in Loops(w, c)
    ensures PeriodicWake(w, c).components[c].budget == Spend(w.components[c].budget)
    ensures PeriodicWake(w, c).trace == w.trace + [Fired(c, ActivationMethods, 0)]
  {
  }

  /** One full iteration of a loop: the test, then the wake. */
  function Cycle(w: World, c: Handle): (w': World)
    requires IsPeriodic(w, c) && PeriodicHead in Loops(w, c) && Ready(w.components[c].budget)
    ensures IsPeriodic(w', c)
    ensures Loops(w', c) == Loops(w, c)
    ensures w'.components[c].budget == Spend(w.components[c].budget)
    ensures w'.trace == w.trace + [Fired(c, ActivationMethods, 0)]
  {
    PeriodicWake(PeriodicHeadStep(w, c), c)
  }

  /** A run of `n` iterations: repeat the handler entry `n` times. */
  function Repeat(f: Fired, n: nat): (r: seq<Fired>)
    ensures |r| == n && forall i :: 0 <= i < n ==> r[i] == f
  {
    if n == 0 then [] else Repeat(f, n - 1) + [f]
  }

  /**
   * `n` full iterations of one loop whose flag stays true, within a limited budget:
   * the count rises by exactly `n` and the handler fires `n` times.
   */
  function Cycles(w: World, c: Handle, n: nat): (w': World)
    requires IsPeriodic(w, c) && PeriodicHead in Loops(w, c) && w.components[c].budget.activated
    requires !w.components[c].budget.infinite && w.components[c].budget.count + n <= w.components[c].budget.max
    ensures IsPeriodic(w', c) && Loops(w', c) == Loops(w, c)
    ensures w'.components[c].budget == w.components[c].budget.(count := w.components[c].budget.count + n)
    ensures w'.trace == w.trace + Repeat(Fired(c, ActivationMethods, 0), n)
  {
    if n == 0 then w else Cycle(Cycles(w, c, n - 1), c)
  }

  /**
   * With the flag staying true, a limited loop that starts at count `c0` below the
   * maximum `N` fires exactly `N - c0` times: after those iterations the count is `N`,
   * and the next test ends the loop.
   */
  lemma PeriodicFiresUntilMax(w: World, c: Handle, n: nat)
    requires IsPeriodic(w, c) && PeriodicHead in Loops(w, c) && w.components[c].budget.activated
    requires !w.components[c].budget.infinite && w.components[c].budget.count + n == w.components[c].budget.max
    ensures var w' := Cycles(w, c, n);
      && w'.components[c].budget.count == w.components[c].budget.max
      && |w'.trace| == |w.trace| + n
      && Exhausted(w'.components[c].budget)
      && Loops(PeriodicHeadStep(w', c), c) == Loops(w, c) - multiset{PeriodicHead}
      && PeriodicHeadStep(w', c).trace == w'.trace
  {
  }

  method PeriodicStart(e: Engine, c: Handle)
    requires IsPeriodic(e.State(), c)
    modifies e
    ensures e.State() == AfterPeriodicStart(old(e.State()), c)
  {
    var b := e.components[c].budget;
    var k := e.components[c].kind;
    e.components := e.components[c := e.components[c].(kind := PeriodicIn(b.activated, k.loops, k.random))];
    if b.activated {
      e.components := e.components[c := e.components[c].(kind := e.components[c].kind.(loops := e.components[c].kind.loops + multiset{PeriodicHead}))];
    }
  }

  method IniciarCorrutina(e: Engine, c: Handle)
    requires IsPeriodic(e.State(), c)
    modifies e
    ensures e.State() == AfterIniciarCorrutina(old(e.State()), c)
  {
    var k := e.components[c].kind;
    e.components := e.components[c := e.components[c].(kind := k.(loops := k.loops + multiset{FirstPhase(k)}))];
  }

  method PeriodicUpdate(e: Engine, c: Handle)
    requires IsPeriodic(e.State(), c)
    modifies e
    ensures e.State() == AfterPeriodicUpdate(old(e.State()), c)
  {
    var act := e.components[c].budget.activated;
    var k := e.components[c].kind;
    if !k.lastActivated && act {
      e.components := e.components[c := e.components[c].(kind := PeriodicIn(true, k.loops, k.random))];
      IniciarCorrutina(e, c);
    } else if k.lastActivated && !act {
      e.components := e.components[c := e.components[c].(kind := PeriodicIn(false, k.loops, k.random))];
    }
  }

  method PeriodicOnDisable(e: Engine, c: Handle)
    requires IsPeriodic(e.State(), c)
    modifies e
    ensures e.State() == AfterPeriodicDisable(old(e.State()), c)
  {
    e.components := e.components[c := e.components[c].(kind := e.components[c].kind.(loops := multiset{}))];
  }

  method PeriodicTest(e: Engine, c: Handle)
    requires IsPeriodic(e.State(), c) && PeriodicHead in Loops(e.State(), c)
    modifies e
    ensures e.State() == PeriodicHeadStep(old(e.State()), c)
  {
    var b := e.components[c].budget;
    var k := e.components[c].kind;
    if !b.activated || Exhausted(b) {
      e.components := e.components[c := e.components[c].(kind := k.(loops := k.loops - multiset{PeriodicHead}))];
    } else {
      e.components := e.components[c := e.components[c].(kind := k.(loops := k.loops - multiset{PeriodicHead} + multiset{PeriodicWait}))];
    }
  }

  method PeriodicWakeUp(e: Engine, c: Handle)
    requires IsPeriodic(e.State(), c) && PeriodicWait in Loops(e.State(), c)
    modifies e
    ensures e.State() == PeriodicWake(old(e.State()), c)
  {
    var comp := e.components[c];
    e.components := e.components[c := comp.(budget := Spend(comp.budget), kind := comp.kind.(loops := comp.kind.loops - multiset{PeriodicWait} + multiset{PeriodicHead}))];
    e.trace := e.trace + [Fired(c, ActivationMethods, 0)];
  }
}

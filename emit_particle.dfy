/**
 * Particle-emitting outputs: one emission loop per token, each of which, while the
 * output is activated and the shared budget lasts, creates a smell particle carrying
 * its token and this output's entity as author, hangs it under the smell system and
 * waits its own period.
 *
 * Running loops are a multiset of `EmitLoop(token, period, waiting)`; a head step
 * (the test and one emission) and a wake step (the end of a wait) are separate events.
 */
module EmitParticle {
  import opened Wrappers
  import opened Activable
  import opened World
  import opened SmellParticle
  import opened SmellInput

  predicate IsEmitter(w: World, c: Handle) {
    c in w.components && w.components[c].kind.EmitOut?
  }

  function Emitters(w: World, c: Handle): multiset<EmitLoop>
    requires IsEmitter(w, c)
  {
    w.components[c].kind.emitters
  }

  /** Replace the recorded flag and the running loops of `c`. */
  function WithEmitState(w: World, c: Handle, last: bool, emitters: multiset<EmitLoop>): (w': World)
    requires IsEmitter(w, c)
    ensures IsEmitter(w', c) && Emitters(w', c) == emitters && w'.components[c].kind.lastActivated == last
    ensures w'.components[c].budget == w.components[c].budget
    ensures w'.components.Keys == w.components.Keys
  {
    var k := w.components[c].kind;
    WithKind(w, c, EmitOut(k.stimuli, k.emission, k.prefabDirection, last, emitters))
  }

  /** The number of loops `StartAllParticlesEmitters` gets to start before an index runs past the periods. */
  function Startable(k: ComponentKind): (n: nat)
    requires k.EmitOut?
    ensures n <= |k.stimuli| && n <= |k.emission|
    ensures |k.stimuli| == |k.emission| ==> n == |k.stimuli|
  {
    if |k.stimuli| <= |k.emission| then |k.stimuli| else |k.emission|
  }

  /** The loops started for the first `|stimuli|` tokens, pairing token `i` with period `i`. */
  function PairLoops(stimuli: seq<string>, emission: seq<real>): multiset<EmitLoop>
    requires |stimuli| <= |emission|
  {
    if stimuli == [] then multiset{}
    else
      var i := |stimuli| - 1;
      PairLoops(stimuli[..i], emission) + multiset{EmitLoop(stimuli[i], emission[i], false)}
  }

  /** Exactly one loop per token index, and each pairs the `i`-th token with the `i`-th period. */
  lemma {:induction false} PairLoopsMeaning(stimuli: seq<string>, emission: seq<real>)
    requires |stimuli| <= |emission|
    ensures |PairLoops(stimuli, emission)| == |stimuli|
    ensures forall l :: l in PairLoops(stimuli, emission) <==>
      exists i :: 0 <= i < |stimuli| && l == EmitLoop(stimuli[i], emission[i], false)
  {
    if stimuli != [] {
      var i := |stimuli| - 1;
      var init := stimuli[..i];
      PairLoopsMeaning(init, emission);
      forall l | l in PairLoops(stimuli, emission)
        ensures exists j :: 0 <= j < |stimuli| && l == EmitLoop(stimuli[j], emission[j], false)
      {
        if l in PairLoops(init, emission) {
          var j :| 0 <= j < |init| && l == EmitLoop(init[j], emission[j], false);
          assert stimuli[j] == init[j];
        } else {
          assert l == EmitLoop(stimuli[i], emission[i], false);
        }
      }
      forall l | exists j :: 0 <= j < |stimuli| && l == EmitLoop(stimuli[j], emission[j], false)
        ensures l in PairLoops(stimuli, emission)
      {
        var j :| 0 <= j < |stimuli| && l == EmitLoop(stimuli[j], emission[j], false);
        if j < i {
          assert init[j] == stimuli[j];
          assert l in PairLoops(init, emission);
        }
      }
    }
  }

  /** `StartAllParticlesEmitters`: one loop per token, as far as there are periods for them. */
  function AfterStartAll(w: World, c: Handle): (w': World)
    requires IsEmitter(w, c)
    ensures IsEmitter(w', c)
  {
    var k := w.components[c].kind;
    WithEmitState(w, c, k.lastActivated, k.emitters + PairLoops(k.stimuli[..Startable(k)], k.emission))
  }

  /** `Start`: remember the flag; when activated, a token/period count mismatch is logged and starts nothing. */
  function AfterEmitStart(w: World, c: Handle): (w': World)
    requires IsEmitter(w, c)
    ensures IsEmitter(w', c)
  {
    var k := w.components[c].kind;
    var act := w.components[c].budget.activated;
    var w1 := WithEmitState(w, c, act, k.emitters);
    if !act then w1
    else if |k.stimuli| != |k.emission| then Warn(w1, EmissionMismatch(c))
    else AfterStartAll(w1, c)
  }

  /** `Update`: restart every loop on a false-to-true change of the flag, with no second look at the counts. */
  function AfterEmitUpdate(w: World, c: Handle): (w': World)
    requires IsEmitter(w, c)
    ensures IsEmitter(w', c)
  {
    var k := w.components[c].kind;
    var act := w.components[c].budget.activated;
    if !k.lastActivated && act then AfterStartAll(WithEmitState(w, c, true, k.emitters), c)
    else if k.lastActivated && !act then WithEmitState(w, c, false, k.emitters)
    else w
  }

  /** `OnDisable`: stop every running loop. */
  function AfterEmitDisable(w: World, c: Handle): (w': World)
    requires IsEmitter(w, c)
    ensures IsEmitter(w', c) && Emitters(w', c) == multiset{}
  {
    WithEmitState(w, c, w.components[c].kind.lastActivated, multiset{})
  }

  /** A fresh instance of the particle prefab: not yet initialized, not yet under any parent. */
  function PrefabParticle(k: ComponentKind): Particle
    requires k.EmitOut?
  {
    Particle(None, "", k.prefabDirection, false, false, None)
  }

  /** Game object `obj` and particle `p` are unused handles. */
  predicate FreshHandles(w: World, obj: Handle, p: Handle) {
    obj !in w.objects && p !in w.particles
  }

  /**
   * The head of an emission loop: it ends when deactivated or exhausted. Otherwise a
   * new particle is created at the fresh handles and initialized with this output's
   * entity and the loop's token; it is hung under the smell system, the shared count
   * rises by one and the loop waits. With no smell system instance the hanging fails:
   * the particle stays, unparented, the count does not rise, and the loop dies.
   */
  function EmitHead(w: World, c: Handle, loop: EmitLoop, obj: Handle, p: Handle): (w': World)
    requires IsEmitter(w, c) && loop in Emitters(w, c) && !loop.waiting
    requires FreshHandles(w, obj, p)
    ensures IsEmitter(w', c)
  {
    var comp := w.components[c];
    if !Ready(comp.budget) then WithEmitState(w, c, comp.kind.lastActivated, Emitters(w, c) - multiset{loop})
    else Settle(Spawn(w, c, loop, obj, p), c, loop, p)
  }

  /** The creation half of an emission: a prefab instance at the fresh handles, initialized with this output's entity and the loop's token. */
  function Spawn(w: World, c: Handle, loop: EmitLoop, obj: Handle, p: Handle): (w': World)
    requires IsEmitter(w, c) && FreshHandles(w, obj, p)
    ensures w'.components == w.components && w'.entities == w.entities && w'.smellInstance == w.smellInstance
    ensures w'.particles.Keys == w.particles.Keys + {p} && obj in w'.objects && w'.objects[obj].particle == Some(p)
    ensures w'.particles[p].author == Some(w.components[c].owner) && w'.particles[p].stimulus == loop.stimulus
    ensures w'.particles[p].initialized && w'.particles[p].transformParent == None
  {
    var w1 := w.(objects := w.objects[obj := GameObject([], Some(p))],
                 particles := w.particles[p := PrefabParticle(w.components[c].kind)]);
    AfterInitParticle(w1, p, Some(w.components[c].owner), loop.stimulus)
  }

  /**
   * The hanging half of an emission: under a live smell system instance the particle
   * is parented, the count rises and the loop waits; otherwise the loop dies.
   */
  function Settle(w: World, c: Handle, loop: EmitLoop, p: Handle): (w': World)
    requires IsEmitter(w, c) && p in w.particles
    ensures IsEmitter(w', c) && w'.particles.Keys == w.particles.Keys
  {
    var comp := w.components[c];
    var rest := Emitters(w, c) - multiset{loop};
    if !Live(w, w.smellInstance) then WithEmitState(w, c, comp.kind.lastActivated, rest)
    else
      var w3 := WithParticle(w, p, w.particles[p].(transformParent := w.smellInstance));
      var w4 := WithBudget(w3, c, Spend(comp.budget));
      WithEmitState(w4, c, comp.kind.lastActivated, rest + multiset{loop.(waiting := true)})
  }

  /** A waiting emission loop's period ends: back to the test. */
  function EmitWake(w: World, c: Handle, loop: EmitLoop): (w': World)
    requires IsEmitter(w, c) && loop in Emitters(w, c) && loop.waiting
    ensures IsEmitter(w', c)
  {
    WithEmitState(w, c, w.components[c].kind.lastActivated, Emitters(w, c) - multiset{loop} + multiset{loop.(waiting := false)})
  }

  /**
   * The end of a loop's period: that one loop stops waiting and is back at its test,
   * with its token and period kept; the other loops, the shared budget, the particles
   * and the trace are unchanged.
   */
  lemma EmitWakeEffect(w: World, c: Handle, loop: EmitLoop)
    requires IsEmitter(w, c) && loop in Emitters(w, c) && loop.waiting
    ensures var w' := EmitWake(w, c, loop);
      && w'.components[c].budget == w.components[c].budget
      && w'.particles == w.particles && w'.objects == w.objects && w'.trace == w.trace
      && |Emitters(w', c)| == |Emitters(w, c)|
      && Emitters(w', c)[loop] == Emitters(w, c)[loop] - 1
      && Emitters(w', c)[loop.(waiting := false)] == Emitters(w, c)[loop.(waiting := false)] + 1
      && forall l :: l != loop && l != loop.(waiting := false) ==> Emitters(w', c)[l] == Emitters(w, c)[l]
  {
  }

  /**
   * `Start`: when activated, a mismatch between the token and period counts logs an
   * error and starts no loop; matching counts start one loop per token. The recorded
   * flag is the current one either way.
   */
  lemma EmitStartCases(w: World, c: Handle)
    requires IsEmitter(w, c)
    ensures var w' := AfterEmitStart(w, c);
      var k := w.components[c].kind;
      && w'.components[c].kind.lastActivated == w.components[c].budget.activated
      && (!w.components[c].budget.activated ==> Emitters(w', c) == Emitters(w, c) && w'.log == w.log)
      && (w.components[c].budget.activated && |k.stimuli| != |k.emission| ==>
            Emitters(w', c) == Emitters(w, c) && w'.log == w.log + [EmissionMismatch(c)])
      && (w.components[c].budget.activated && |k.stimuli| == |k.emission| ==>
            Emitters(w', c) == Emitters(w, c) + PairLoops(k.stimuli, k.emission) && w'.log == w.log)
  {
    var k := w.components[c].kind;
    assert k.stimuli[..|k.stimuli|] == k.stimuli;
  }

  /**
   * `Update` restarts the loops exactly on a false-to-true change of the flag, one per
   * token as far as there are periods, whether or not the counts match; otherwise no
   * loop starts.
   */
  lemma EmitUpdateEdge(w: World, c: Handle)
    requires IsEmitter(w, c)
    ensures var w' := AfterEmitUpdate(w, c);
      var k := w.components[c].kind;
      var act := w.components[c].budget.activated;
      && w'.components[c].kind.lastActivated == act
      && (!k.lastActivated && act ==> Emitters(w', c) == Emitters(w, c) + PairLoops(k.stimuli[..Startable(k)], k.emission))
      && (!(!k.lastActivated && act) ==> Emitters(w', c) == Emitters(w, c))
      && w'.log == w.log
  {
  }

  /** A loop whose test fails ends, and nothing else changes: no particle, no count. */
  lemma EmitHeadExits(w: World, c: Handle, loop: EmitLoop, obj: Handle, p: Handle)
    requires IsEmitter(w, c) && loop in Emitters(w, c) && !loop.waiting && FreshHandles(w, obj, p)
    requires !Ready(w.components[c].budget)
    ensures var w' := EmitHead(w, c, loop, obj, p);
      && Emitters(w', c) == Emitters(w, c) - multiset{loop}
      && w'.particles == w.particles
      && w'.components[c].budget == w.components[c].budget
  {
  }

  /**
   * One emission creates exactly one particle, initialized with this output's entity
   * and the loop's token and hung under the smell system, and raises the shared count
   * by exactly one; the loop then waits.
   */
  lemma EmitHeadEmits(w: World, c: Handle, loop: EmitLoop, obj: Handle, p: Handle)
    requires IsEmitter(w, c) && loop in Emitters(w, c) && !loop.waiting && FreshHandles(w, obj, p)
    requires Ready(w.components[c].budget) && Live(w, w.smellInstance)
    ensures var w' := EmitHead(w, c, loop, obj, p);
      && w'.particles.Keys == w.particles.Keys + {p}
      && w'.particles[p].author == Some(w.components[c].owner)
      && w'.particles[p].stimulus == loop.stimulus
      && w'.particles[p].initialized
      && w'.particles[p].transformParent == w.smellInstance
      && w'.objects[obj].particle == Some(p)
      && w'.components[c].budget == Spend(w.components[c].budget)
      && Emitters(w', c) == Emitters(w, c) - multiset{loop} + multiset{loop.(waiting := true)}
  {
  }

  /**
   * No self-stimulation through smell: a particle just emitted carries its emitter's
   * entity as author, so a smell input of that same entity ignores it and leaves it
   * unconsumed, even when the entity has already been destroyed.
   */
  lemma OwnParticleIgnored(w: World, c: Handle, loop: EmitLoop, obj: Handle, p: Handle, s: Handle)
    requires IsEmitter(w, c) && loop in Emitters(w, c) && !loop.waiting && FreshHandles(w, obj, p)
    requires Ready(w.components[c].budget)
    requires IsSmell(w, s) && w.components[s].owner == w.components[c].owner
    ensures var w' := EmitHead(w, c, loop, obj, p);
      IsSmell(w', s) && SmellEnter(w', s, obj) == w'
  {
  }

  /** With no smell system instance, the particle is created but the loop dies before counting. */
  lemma EmitHeadWithoutSmellSystem(w: World, c: Handle, loop: EmitLoop, obj: Handle, p: Handle)
    requires IsEmitter(w, c) && loop in Emitters(w, c) && !loop.waiting && FreshHandles(w, obj, p)
    requires Ready(w.components[c].budget) && !Live(w, w.smellInstance)
    ensures var w' := EmitHead(w, c, loop, obj, p);
      && p in w'.particles && w'.particles[p].transformParent == None
      && w'.components[c].budget == w.components[c].budget
      && Emitters(w', c) == Emitters(w, c) - multiset{loop}
  {
  }

  /**
   * All loops of one output draw on one count: when a single activation is left, the
   * first loop to emit uses it up and the next loop to reach its test ends without
   * emitting.
   */
  lemma LoopsShareBudget(w: World, c: Handle, l1: EmitLoop, l2: EmitLoop, o1: Handle, p1: Handle, o2: Handle, p2: Handle)
    requires IsEmitter(w, c) && !l1.waiting && !l2.waiting
    requires multiset{l1, l2} <= Emitters(w, c)
    requires FreshHandles(w, o1, p1) && o1 != o2 && p1 != p2 && FreshHandles(w, o2, p2)
    requires Ready(w.components[c].budget) && Live(w, w.smellInstance)
    requires !w.components[c].budget.infinite && w.components[c].budget.count + 1 == w.components[c].budget.max
    ensures var w1 := EmitHead(w, c, l1, o1, p1);
      && l2 in Emitters(w1, c) && FreshHandles(w1, o2, p2)
      && var w2 := EmitHead(w1, c, l2, o2, p2);
      && p2 !in w2.particles
      && w2.components[c].budget.count == w.components[c].budget.max
  {
    EmitHeadEmits(w, c, l1, o1, p1);
    var w1 := EmitHead(w, c, l1, o1, p1);
    assert l2 in Emitters(w1, c) by {
      assert Emitters(w, c) - multiset{l1} == (Emitters(w, c) - multiset{l1, l2}) + multiset{l2};
    }
    EmitHeadExits(w1, c, l2, o2, p2);
  }

  /** `OnDisable` stops every loop and changes nothing else of the output. */
  lemma EmitDisableStops(w: World, c: Handle)
    requires IsEmitter(w, c)
    ensures Emitters(AfterEmitDisable(w, c), c) == multiset{}
    ensures AfterEmitDisable(w, c).components[c].budget == w.components[c].budget
    ensures AfterEmitDisable(w, c).particles == w.particles
  {
  }

  method StartAllParticlesEmitters(e: Engine, c: Handle)
    requires IsEmitter(e.State(), c)
    modifies e
    ensures e.State() == AfterStartAll(old(e.State()), c)
  {
    var k := e.components[c].kind;
    var n := Startable(k);
    var loops := k.emitters;
    assert k.stimuli[..0] == [];
    var i := 0;
    while i < n
      invariant 0 <= i <= n
      invariant loops == k.emitters + PairLoops(k.stimuli[..i], k.emission)
    {
      assert k.stimuli[..i + 1][..i] == k.stimuli[..i];
      loops := loops + multiset{EmitLoop(k.stimuli[i], k.emission[i], false)};
      i := i + 1;
    }
    e.components := e.components[c := e.components[c].(kind := EmitOut(k.stimuli, k.emission, k.prefabDirection, k.lastActivated, loops))];
  }

  method EmitStart(e: Engine, c: Handle)
    requires IsEmitter(e.State(), c)
    modifies e
    ensures e.State() == AfterEmitStart(old(e.State()), c)
  {
    var k := e.components[c].kind;
    var act := e.components[c].budget.activated;
    e.components := e.components[c := e.components[c].(kind := EmitOut(k.stimuli, k.emission, k.prefabDirection, act, k.emitters))];
    if act {
      if |k.stimuli| != |k.emission| {
        e.log := e.log + [EmissionMismatch(c)];
        return;
      }
      StartAllParticlesEmitters(e, c);
    }
  }

  method EmitUpdate(e: Engine, c: Handle)
    requires IsEmitter(e.State(), c)
    modifies e
    ensures e.State() == AfterEmitUpdate(old(e.State()), c)
  {
    var k := e.components[c].kind;
    var act := e.components[c].budget.activated;
    if !k.lastActivated && act {
      e.components := e.components[c := e.components[c].(kind := EmitOut(k.stimuli, k.emission, k.prefabDirection, true, k.emitters))];
      StartAllParticlesEmitters(e, c);
    } else if k.lastActivated && !act {
      e.components := e.components[c := e.components[c].(kind := EmitOut(k.stimuli, k.emission, k.prefabDirection, false, k.emitters))];
    }
  }

  method EmitOnDisable(e: Engine, c: Handle)
    requires IsEmitter(e.State(), c)
    modifies e
    ensures e.State() == AfterEmitDisable(old(e.State()), c)
  {
    var k := e.components[c].kind;
    e.components := e.components[c := e.components[c].(kind := EmitOut(k.stimuli, k.emission, k.prefabDirection, k.lastActivated, multiset{}))];
  }

  method SpawnParticle(e: Engine, c: Handle, loop: EmitLoop, obj: Handle, p: Handle)
    requires IsEmitter(e.State(), c) && FreshHandles(e.State(), obj, p)
    modifies e
    ensures e.State() == Spawn(old(e.State()), c, loop, obj, p)
  {
    var comp := e.components[c];
    e.objects := e.objects[obj := GameObject([], Some(p))];
    e.particles := e.particles[p := PrefabParticle(comp.kind)];
    InitParticle(e, p, Some(comp.owner), loop.stimulus);
  }

  method SettleEmission(e: Engine, c: Handle, loop: EmitLoop, p: Handle)
    requires IsEmitter(e.State(), c) && p in e.particles
    modifies e
    ensures e.State() == Settle(old(e.State()), c, loop, p)
  {
    var comp := e.components[c];
    var k := comp.kind;
    var rest := k.emitters - multiset{loop};
    if !Live(e.State(), e.smellInstance) {
      e.components := e.components[c := comp.(kind := EmitOut(k.stimuli, k.emission, k.prefabDirection, k.lastActivated, rest))];
      return;
    }
    e.particles := e.particles[p := e.particles[p].(transformParent := e.smellInstance)];
    e.components := e.components[c := Component(Spend(comp.budget), comp.owner, comp.host,
      EmitOut(k.stimuli, k.emission, k.prefabDirection, k.lastActivated, rest + multiset{loop.(waiting := true)}))];
  }

  /** One pass of the `Emission` loop body, at the fresh handles `obj` and `p`. */
  method Emission(e: Engine, c: Handle, loop: EmitLoop, obj: Handle, p: Handle)
    requires IsEmitter(e.State(), c) && loop in Emitters(e.State(), c) && !loop.waiting
    requires FreshHandles(e.State(), obj, p)
    modifies e
    ensures e.State() == EmitHead(old(e.State()), c, loop, obj, p)
  {
    var comp := e.components[c];
    var k := comp.kind;
    if !Ready(comp.budget) {
      e.components := e.components[c := comp.(kind := EmitOut(k.stimuli, k.emission, k.prefabDirection, k.lastActivated, k.emitters - multiset{loop}))];
      return;
    }
    SpawnParticle(e, c, loop, obj, p);
    SettleEmission(e, c, loop, p);
  }

  method EmitWakeUp(e: Engine, c: Handle, loop: EmitLoop)
    requires IsEmitter(e.State(), c) && loop in Emitters(e.State(), c) && loop.waiting
    modifies e
    ensures e.State() == EmitWake(old(e.State()), c, loop)
  {
    var k := e.components[c].kind;
    var loops := k.emitters - multiset{loop} + multiset{loop.(waiting := false)};
    e.components := e.components[c := e.components[c].(kind := EmitOut(k.stimuli, k.emission, k.prefabDirection, k.lastActivated, loops))];
  }
}

/**
 * The smell input: on contact with a smell particle authored by somebody else it
 * consumes the particle and, if the particle's token is listened, fires the handler at
 * the token's first index. It never counts its activations.
 */
module SmellInput {
  import opened Wrappers
  import opened Lists
  import opened Activable
  import opened World
  import opened SmellParticle

  predicate IsSmell(w: World, c: Handle) {
    c in w.components && w.components[c].kind.SmellIn?
  }

  /** `EvaluateStimulus`: fire the handler at the (listened) token's first index, if there is one. */
  function SmellEvaluate(w: World, c: Handle, stimulus: string): (r: Outcome)
    requires IsSmell(w, c) && stimulus in w.components[c].kind.stimuli
  {
    var k := w.components[c].kind;
    var index := IndexOf(k.stimuli, stimulus);
    if k.handlers < index + 1 then Outcome(w, false) else Outcome(Fire(w, c, ActivationMethods, index), true)
  }

  /**
   * `OnTriggerEnter`: gated by the budget; ignores anything but a particle authored by
   * another entity; consumes the particle before looking at its token.
   */
  function SmellEnter(w: World, c: Handle, obj: Handle): World
    requires IsSmell(w, c)
  {
    var comp := w.components[c];
    if !Ready(comp.budget) then w
    else
      var p := ParticleOn(w, obj);
      if p.None? || w.particles[p.value].author == Some(comp.owner) then w
      else
        var token := w.particles[p.value].stimulus;
        var w1 := AfterConsume(w, p.value);
        if token !in comp.kind.stimuli then w1
        else SmellEvaluate(w1, c, token).world
  }

  /**
   * Smell detection never changes any component (so never depletes a budget); a
   * refused contact changes nothing; an accepted one consumes the particle even when
   * its token is not listened, and fires the token's handler when there is one.
   */
  lemma SmellEnterCases(w: World, c: Handle, obj: Handle)
    requires IsSmell(w, c)
    ensures SmellEnter(w, c, obj).components == w.components
    ensures var comp := w.components[c];
      var p := ParticleOn(w, obj);
      (!Ready(comp.budget) || p.None? || w.particles[p.value].author == Some(comp.owner)) ==> SmellEnter(w, c, obj) == w
    ensures var comp := w.components[c];
      var p := ParticleOn(w, obj);
      Ready(comp.budget) && p.Some? && w.particles[p.value].author != Some(comp.owner) ==>
        var token := w.particles[p.value].stimulus;
        var w' := SmellEnter(w, c, obj);
        && w'.particles == w.particles[p.value := w.particles[p.value].(doomed := true)]
        && (token !in comp.kind.stimuli ==> w'.trace == w.trace)
        && (token in comp.kind.stimuli && IndexOf(comp.kind.stimuli, token) < comp.kind.handlers ==>
              w'.trace == w.trace + [Fired(c, ActivationMethods, IndexOf(comp.kind.stimuli, token))])
  {
  }

  method EvaluateSmell(e: Engine, c: Handle, stimulus: string) returns (ok: bool)
    requires IsSmell(e.State(), c) && stimulus in e.components[c].kind.stimuli
    modifies e
    ensures Outcome(e.State(), ok) == SmellEvaluate(old(e.State()), c, stimulus)
  {
    var k := e.components[c].kind;
    var index := IndexOf(k.stimuli, stimulus);
    if k.handlers < index + 1 {
      return false;
    }
    e.trace := e.trace + [Fired(c, ActivationMethods, index)];
    ok := true;
  }

  /** `OnTriggerEnter`. */
  method OnSmellEnter(e: Engine, c: Handle, obj: Handle)
    requires IsSmell(e.State(), c)
    modifies e
    ensures e.State() == SmellEnter(old(e.State()), c, obj)
  {
    var comp := e.components[c];
    if !Ready(comp.budget) {
      return;
    }
    var p := ParticleOn(e.State(), obj);
    if p.None? || e.particles[p.value].author == Some(comp.owner) {
      return;
    }
    var token := ConsumeParticle(e, p.value);
    if token !in comp.kind.stimuli {
      return;
    }
    var ok := EvaluateSmell(e, c, token);
  }
}

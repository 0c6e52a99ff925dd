/**
 * Vision inputs: an input that reacts to single-token outputs entering (or staying in)
 * its vision volume. The enter variant also reacts to them leaving; the stay variant
 * reacts on every tick of the overlap.
 */
module VisionInput {
  import opened Wrappers
  import opened Lists
  import opened Activable
  import opened World

  predicate IsVision(w: World, c: Handle) {
    c in w.components && w.components[c].kind.VisionIn?
  }

  /** The single-token output on the other object, if any. */
  function SeenOutput(w: World, obj: Handle): (r: Option<Handle>)
    ensures r.Some? ==> r.value in w.components
    ensures r.Some? ==> (w.components[r.value].kind.PresenceOut? || w.components[r.value].kind.PresenceActivationOut?)
  {
    GetComponent(w, obj, WantSimpleOutput)
  }

  /** `EvaluateStimulus`: fire the handler at the (listened) token's first index, if there is one. */
  function VisionEvaluate(w: World, c: Handle, stimulus: string): (r: Outcome)
    requires IsVision(w, c) && stimulus in w.components[c].kind.stimuli
  {
    var k := w.components[c].kind;
    var index := IndexOf(k.stimuli, stimulus);
    if k.handlers < index + 1 then Outcome(w, false) else Outcome(Fire(w, c, ActivationMethods, index), true)
  }

  /**
   * `ExecuteInput`: gated by the budget; an output of this input's own entity is
   * refused with a warning; an evaluation that finds no handler is logged; a
   * successful one counts.
   */
  function VisionExecute(w: World, c: Handle, obj: Handle): (w': World)
    requires IsVision(w, c)
    ensures IsVision(w', c)
  {
    var comp := w.components[c];
    if !Ready(comp.budget) then w
    else
      var out := SeenOutput(w, obj);
      if out.None? || SimpleToken(w.components[out.value].kind) !in comp.kind.stimuli then w
      else
        var token := SimpleToken(w.components[out.value].kind);
        if w.components[out.value].owner == comp.owner then Warn(w, SelfStimulation(c, token))
        else
          var r := VisionEvaluate(w, c, token);
          if !r.ok then Warn(w, MissingHandler(c, token))
          else WithBudget(r.world, c, Spend(comp.budget))
  }

  /** `EvaluateExit` of the enter variant: fire the exit handler at the token's first index, if there is one. */
  function VisionEvaluateExit(w: World, c: Handle, stimulus: string): (r: Outcome)
    requires IsVision(w, c) && stimulus in w.components[c].kind.stimuli
  {
    var k := w.components[c].kind;
    var index := IndexOf(k.stimuli, stimulus);
    if k.exitHandlers < index + 1 then Outcome(w, false) else Outcome(Fire(w, c, ExitMethods, index), true)
  }

  /** `OnTriggerExit` of the enter variant: gated by the activated flag only, never counts. */
  function VisionExit(w: World, c: Handle, obj: Handle): World
    requires IsVision(w, c)
  {
    var comp := w.components[c];
    if !comp.budget.activated then w
    else
      var out := SeenOutput(w, obj);
      if out.None? || SimpleToken(w.components[out.value].kind) !in comp.kind.stimuli then w
      else
        var token := SimpleToken(w.components[out.value].kind);
        if w.components[out.value].owner == comp.owner then Warn(w, SelfStimulation(c, token))
        else
          var r := VisionEvaluateExit(w, c, token);
          if !r.ok then Warn(w, MissingExitHandler(c, token)) else r.world
  }

  /**
   * The trigger callbacks a vision input defines: the enter variant handles enter and
   * exit, the stay variant handles stay; any other callback is not defined and does
   * nothing.
   */
  function VisionContact(w: World, c: Handle, obj: Handle, contact: Contact): World
    requires IsVision(w, c)
  {
    match (w.components[c].kind.variant, contact)
    case (OnEnter, Entering) => VisionExecute(w, c, obj)
    case (OnEnter, Leaving) => VisionExit(w, c, obj)
    case (OnStay, Staying) => VisionExecute(w, c, obj)
    case (_, _) => w
  }

  /** `Update`: the vision collider is enabled exactly while the input is activated. */
  function VisionUpdate(w: World, c: Handle): (w': World)
    requires IsVision(w, c)
    ensures var col := w.components[c].kind.collider;
      col in w.colliders ==> col in w'.colliders && w'.colliders[col].enabled == w.components[c].budget.activated
  {
    var col := w.components[c].kind.collider;
    if col in w.colliders then w.(colliders := w.colliders[col := w.colliders[col].(enabled := w.components[c].budget.activated)]) else w
  }

  /** `EvaluateStimulus` answers true exactly when the handler list is longer than the token's index. */
  lemma VisionEvaluateAnswer(w: World, c: Handle, stimulus: string)
    requires IsVision(w, c) && stimulus in w.components[c].kind.stimuli
    ensures var k := w.components[c].kind;
      VisionEvaluate(w, c, stimulus).ok <==> IndexOf(k.stimuli, stimulus) < k.handlers
    ensures var k := w.components[c].kind;
      VisionEvaluate(w, c, stimulus).ok ==> VisionEvaluate(w, c, stimulus).world.trace == w.trace + [Fired(c, ActivationMethods, IndexOf(k.stimuli, stimulus))]
  {
  }

  /**
   * The cases of `ExecuteInput`: not ready, no single-token output or an unlistened
   * token change nothing; a same-entity output only logs; a missing handler only logs;
   * otherwise the handler fires and the count rises by one.
   */
  lemma VisionExecuteCases(w: World, c: Handle, obj: Handle)
    requires IsVision(w, c)
    ensures var comp := w.components[c];
      var out := SeenOutput(w, obj);
      var w' := VisionExecute(w, c, obj);
      && (!Ready(comp.budget) ==> w' == w)
      && (out.None? ==> w' == w)
      && (out.Some? && SimpleToken(w.components[out.value].kind) !in comp.kind.stimuli ==> w' == w)
      && (Ready(comp.budget) && out.Some? && SimpleToken(w.components[out.value].kind) in comp.kind.stimuli ==>
            var token := SimpleToken(w.components[out.value].kind);
            var index := IndexOf(comp.kind.stimuli, token);
            && (w.components[out.value].owner == comp.owner ==> w' == w.(log := w.log + [SelfStimulation(c, token)]))
            && (w.components[out.value].owner != comp.owner && index < comp.kind.handlers ==>
                  w'.trace == w.trace + [Fired(c, ActivationMethods, index)]
                  && w'.components == w.components[c := comp.(budget := Spend(comp.budget))]
                  && w'.log == w.log)
            && (w.components[out.value].owner != comp.owner && comp.kind.handlers <= index ==>
                  w' == w.(log := w.log + [MissingHandler(c, token)])))
  {
  }

  /** `ExecuteInput` raises the count by at most one and changes nothing else of the input. */
  lemma VisionExecuteCountStep(w: World, c: Handle, obj: Handle)
    requires IsVision(w, c)
    ensures var b := w.components[c].budget;
      var b' := VisionExecute(w, c, obj).components[c].budget;
      && b'.(count := b.count) == b
      && (b'.count == b.count || (b'.count == b.count + 1 && Ready(b)))
      && VisionExecute(w, c, obj).components[c].kind == w.components[c].kind
  {
    var comp := w.components[c];
    var out := SeenOutput(w, obj);
    if Ready(comp.budget) && out.Some? && SimpleToken(w.components[out.value].kind) in comp.kind.stimuli {
      var token := SimpleToken(w.components[out.value].kind);
      if w.components[out.value].owner != comp.owner {
        var r := VisionEvaluate(w, c, token);
        assert r.world.components == w.components;
      }
    }
  }

  /** `n` consecutive stay ticks against the same object. */
  function StayTicks(w: World, c: Handle, obj: Handle, n: nat): (w': World)
    requires IsVision(w, c)
    ensures IsVision(w', c)
  {
    if n == 0 then w else VisionExecute(StayTicks(w, c, obj, n - 1), c, obj)
  }

  /**
   * An overlap lasting `n` ticks consumes at most `n` activations, and a limited
   * input that starts within its maximum stays within it, however long the overlap.
   */
  lemma {:induction false} StayTicksBound(w: World, c: Handle, obj: Handle, n: nat)
    requires IsVision(w, c)
    ensures var b := w.components[c].budget;
      var b' := StayTicks(w, c, obj, n).components[c].budget;
      && b'.(count := b.count) == b
      && b.count <= b'.count <= b.count + n
      && (!b.infinite && b.count <= b.max ==> b'.count <= b.max)
  {
    if n > 0 {
      StayTicksBound(w, c, obj, n - 1);
      VisionExecuteCountStep(StayTicks(w, c, obj, n - 1), c, obj);
    }
  }

  /**
   * Leaving the volume never changes the count, is ignored when deactivated, and is not
   * gated by the budget: an exhausted but activated input still runs its exit handler.
   */
  lemma VisionExitCases(w: World, c: Handle, obj: Handle)
    requires IsVision(w, c)
    ensures VisionExit(w, c, obj).components == w.components
    ensures !w.components[c].budget.activated ==> VisionExit(w, c, obj) == w
    ensures var comp := w.components[c];
      var out := SeenOutput(w, obj);
      comp.budget.activated && out.Some? && SimpleToken(w.components[out.value].kind) in comp.kind.stimuli
        && w.components[out.value].owner != comp.owner
        && IndexOf(comp.kind.stimuli, SimpleToken(w.components[out.value].kind)) < comp.kind.exitHandlers
      ==> VisionExit(w, c, obj).trace == w.trace + [Fired(c, ExitMethods, IndexOf(comp.kind.stimuli, SimpleToken(w.components[out.value].kind)))]
  {
  }

  /** The stay variant has no exit callback, and the enter variant no stay callback. */
  lemma VisionVariantCallbacks(w: World, c: Handle, obj: Handle)
    requires IsVision(w, c)
    ensures w.components[c].kind.variant == OnStay ==> VisionContact(w, c, obj, Leaving) == w && VisionContact(w, c, obj, Entering) == w
    ensures w.components[c].kind.variant == OnEnter ==> VisionContact(w, c, obj, Staying) == w
  {
  }

  method ExecuteInput(e: Engine, c: Handle, obj: Handle)
    requires IsVision(e.State(), c)
    modifies e
    ensures e.State() == VisionExecute(old(e.State()), c, obj)
  {
    var comp := e.components[c];
    if !Ready(comp.budget) {
      return;
    }
    var out := SeenOutput(e.State(), obj);
    if out.None? {
      return;
    }
    var token := SimpleToken(e.components[out.value].kind);
    if token !in comp.kind.stimuli {
      return;
    }
    if e.components[out.value].owner == comp.owner {
      e.log := e.log + [SelfStimulation(c, token)];
      return;
    }
    var ok := EvaluateVision(e, c, token);
    if !ok {
      e.log := e.log + [MissingHandler(c, token)];
    } else {
      e.components := e.components[c := comp.(budget := Spend(comp.budget))];
    }
  }

  method EvaluateVision(e: Engine, c: Handle, stimulus: string) returns (ok: bool)
    requires IsVision(e.State(), c) && stimulus in e.components[c].kind.stimuli
    modifies e
    ensures Outcome(e.State(), ok) == VisionEvaluate(old(e.State()), c, stimulus)
  {
    var k := e.components[c].kind;
    var index := IndexOf(k.stimuli, stimulus);
    if k.handlers < index + 1 {
      return false;
    }
    e.trace := e.trace + [Fired(c, ActivationMethods, index)];
    ok := true;
  }

  method EvaluateExit(e: Engine, c: Handle, stimulus: string) returns (ok: bool)
    requires IsVision(e.State(), c) && stimulus in e.components[c].kind.stimuli
    modifies e
    ensures Outcome(e.State(), ok) == VisionEvaluateExit(old(e.State()), c, stimulus)
  {
    var k := e.components[c].kind;
    var index := IndexOf(k.stimuli, stimulus);
    if k.exitHandlers < index + 1 {
      return false;
    }
    e.trace := e.trace + [Fired(c, ExitMethods, index)];
    ok := true;
  }

  /** `OnTriggerExit` of the enter variant. */
  method OnVisionExit(e: Engine, c: Handle, obj: Handle)
    requires IsVision(e.State(), c)
    modifies e
    ensures e.State() == VisionExit(old(e.State()), c, obj)
  {
    var comp := e.components[c];
    if !comp.budget.activated {
      return;
    }
    var out := SeenOutput(e.State(), obj);
    if out.None? {
      return;
    }
    var token := SimpleToken(e.components[out.value].kind);
    if token !in comp.kind.stimuli {
      return;
    }
    if e.components[out.value].owner == comp.owner {
      e.log := e.log + [SelfStimulation(c, token)];
      return;
    }
    var ok := EvaluateExit(e, c, token);
    if !ok {
      e.log := e.log + [MissingExitHandler(c, token)];
    }
  }

  /** The trigger callbacks, dispatched on the input's variant. */
  method OnVisionContact(e: Engine, c: Handle, obj: Handle, contact: Contact)
    requires IsVision(e.State(), c)
    modifies e
    ensures e.State() == VisionContact(old(e.State()), c, obj, contact)
  {
    match (e.components[c].kind.variant, contact) {
      case (OnEnter, Entering) =>
        ExecuteInput(e, c, obj);
      case (OnEnter, Leaving) =>
        OnVisionExit(e, c, obj);
      case (OnStay, Staying) =>
        ExecuteInput(e, c, obj);
      case (_, _) =>
    }
  }

  /** `Update`. */
  method UpdateVision(e: Engine, c: Handle)
    requires IsVision(e.State(), c)
    modifies e
    ensures e.State() == VisionUpdate(old(e.State()), c)
  {
    var col := e.components[c].kind.collider;
    if col in e.colliders {
      e.colliders := e.colliders[col := e.colliders[col].(enabled := e.components[c].budget.activated)];
    }
  }
}

/**
 * Presence-activation outputs: an output that, on contact with a presence output of
 * another entity whose token it accepts, sends its own token to that entity's direct
 * input and counts the delivery when it is accepted. The enter variant reacts to
 * contacts beginning, the stay variant to every tick of a contact.
 */
module PresenceActivation {
  import opened Wrappers
  import opened Lists
  import opened Activable
  import opened World
  import opened Delivery

  predicate IsPresenceActivation(w: World, c: Handle) {
    c in w.components && w.components[c].kind.PresenceActivationOut?
  }

  /** The presence output on the other object, if any. */
  function PresenceOn(w: World, obj: Handle): (r: Option<Handle>)
    ensures r.Some? ==> r.value in w.components && w.components[r.value].kind.PresenceOut?
  {
    GetComponent(w, obj, WantPresence)
  }

  /**
   * The target entity of a contact with `obj`, if the contact is to be acted on: a
   * presence output is there, it belongs to another entity, and its token is accepted.
   */
  function Target(w: World, c: Handle, obj: Handle): (r: Option<Handle>)
    requires IsPresenceActivation(w, c)
  {
    var out := PresenceOn(w, obj);
    if out.None? then None
    else
      var other := w.components[out.value];
      if other.owner == w.components[c].owner || other.kind.stimulus !in w.components[c].kind.stimulable then None
      else Some(other.owner)
  }

  /**
   * `SpreadStimulus`: refused once the count has reached the maximum (whatever the
   * unlimited flag says); otherwise the token goes to the target entity's direct input
   * and the activation counts when that input accepts it.
   */
  function Spread(w: World, c: Handle, obj: Handle, hops: nat): (w': World)
    requires IsPresenceActivation(w, c)
    ensures IsPresenceActivation(w', c)
  {
    var b := w.components[c].budget;
    if b.count >= b.max then w
    else
      var target := Target(w, c, obj);
      if target.None? then w
      else
        var r := SendDirect(w, target.value, w.components[c].kind.stimulus, hops);
        if r.ok then WithBudget(r.world, c, Spend(b)) else r.world
  }

  /** The trigger callbacks, gated by the activated flag; the other variant's callback is not defined. */
  function PresenceActivationContact(w: World, c: Handle, obj: Handle, contact: Contact, hops: nat): (w': World)
    requires IsPresenceActivation(w, c)
    ensures IsPresenceActivation(w', c)
  {
    var comp := w.components[c];
    match (comp.kind.variant, contact)
    case (OnEnter, Entering) => if comp.budget.activated then Spread(w, c, obj, hops) else w
    case (OnStay, Staying) => if comp.budget.activated then Spread(w, c, obj, hops) else w
    case (_, _) => w
  }

  /** `Update`: the presence collider is enabled exactly while the output is activated. */
  function PresenceActivationUpdate(w: World, c: Handle): (w': World)
    requires IsPresenceActivation(w, c)
    ensures var col := w.components[c].kind.collider;
      && w'.(colliders := w.colliders) == w
      && (col in w.colliders ==> w'.colliders == w.colliders[col := Collider(w.components[c].budget.activated, w.colliders[col].shape)])
      && (col !in w.colliders ==> w' == w)
  {
    var col := w.components[c].kind.collider;
    if col in w.colliders then w.(colliders := w.colliders[col := w.colliders[col].(enabled := w.components[c].budget.activated)]) else w
  }

  /**
   * `SpreadStimulus` in full: nothing at all happens when the count has reached the
   * maximum (even for an unlimited output) or when there is no acceptable target;
   * otherwise the result is the delivery to the target, plus one activation exactly
   * when the delivery was accepted.
   */
  lemma SpreadCases(w: World, c: Handle, obj: Handle, hops: nat)
    requires IsPresenceActivation(w, c)
    ensures var b := w.components[c].budget;
      b.count >= b.max || Target(w, c, obj).None? ==> Spread(w, c, obj, hops) == w
    ensures var b := w.components[c].budget;
      b.count < b.max && Target(w, c, obj).Some? ==>
        var r := SendDirect(w, Target(w, c, obj).value, w.components[c].kind.stimulus, hops);
        && Spread(w, c, obj, hops).(components := r.world.components) == r.world
        && Spread(w, c, obj, hops).components[c].budget == (if r.ok then Spend(b) else b)
  {
  }

  /** A target is a different entity owning a presence output whose token this output accepts. */
  lemma TargetMeaning(w: World, c: Handle, obj: Handle)
    requires IsPresenceActivation(w, c)
    ensures Target(w, c, obj).Some? <==>
      exists p :: PresenceOn(w, obj) == Some(p)
        && w.components[p].owner != w.components[c].owner
        && w.components[p].kind.stimulus in w.components[c].kind.stimulable
    ensures Target(w, c, obj).Some? ==> Target(w, c, obj).value == w.components[PresenceOn(w, obj).value].owner
  {
    var out := PresenceOn(w, obj);
    if out.Some? {
      var p := out.value;
      assert PresenceOn(w, obj) == Some(p);
    }
  }

  /**
   * A spread changes only this output's count (by at most one, and only from below
   * the maximum), the counts of direct inputs (upwards) and the trace (by appending).
   */
  lemma SpreadFrame(w: World, c: Handle, obj: Handle, hops: nat)
    requires IsPresenceActivation(w, c)
    ensures var w' := Spread(w, c, obj, hops);
      var b := w.components[c].budget;
      && Frame(w, w'.(components := w'.components[c := w.components[c]]))
      && w'.components[c].budget.(count := b.count) == b
      && (w'.components[c].budget.count == b.count || (w'.components[c].budget.count == b.count + 1 && b.count < b.max))
      && w'.components[c].kind == w.components[c].kind
  {
    var b := w.components[c].budget;
    if b.count < b.max && Target(w, c, obj).Some? {
      var r := SendDirect(w, Target(w, c, obj).value, w.components[c].kind.stimulus, hops);
      assert r.world.components[c] == w.components[c];
      if r.ok {
        var w' := WithBudget(r.world, c, Spend(b));
        assert w'.components[c := w.components[c]] == r.world.components;
      } else {
        assert r.world.components[c := w.components[c]] == r.world.components;
      }
    } else {
      assert w.components[c := w.components[c]] == w.components;
    }
  }

  /** Repeated spreads never take a count that starts at most the maximum above it. */
  lemma SpreadRespectsMax(w: World, c: Handle, obj: Handle, hops: nat)
    requires IsPresenceActivation(w, c)
    requires w.components[c].budget.count <= w.components[c].budget.max
    ensures Spread(w, c, obj, hops).components[c].budget.count <= w.components[c].budget.max
  {
    SpreadFrame(w, c, obj, hops);
  }

  /** A deactivated output ignores contacts; the enter variant ignores stays and the stay variant ignores enters. */
  lemma ContactGates(w: World, c: Handle, obj: Handle, hops: nat)
    requires IsPresenceActivation(w, c)
    ensures !w.components[c].budget.activated ==> forall contact :: PresenceActivationContact(w, c, obj, contact, hops) == w
    ensures PresenceActivationContact(w, c, obj, Leaving, hops) == w
    ensures w.components[c].kind.variant == OnEnter ==> PresenceActivationContact(w, c, obj, Staying, hops) == w
    ensures w.components[c].kind.variant == OnStay ==> PresenceActivationContact(w, c, obj, Entering, hops) == w
  {
  }

  method SpreadStimulus(e: Engine, c: Handle, obj: Handle, hops: nat)
    requires IsPresenceActivation(e.State(), c)
    modifies e
    ensures e.State() == Spread(old(e.State()), c, obj, hops)
  {
    var b := e.components[c].budget;
    if b.count >= b.max {
      return;
    }
    var target := Target(e.State(), c, obj);
    if target.None? {
      return;
    }
    var ok := SendDirectStimulus(e, target.value, e.components[c].kind.stimulus, hops);
    if ok {
      e.components := e.components[c := e.components[c].(budget := Spend(b))];
    }
  }

  method OnPresenceActivationContact(e: Engine, c: Handle, obj: Handle, contact: Contact, hops: nat)
    requires IsPresenceActivation(e.State(), c)
    modifies e
    ensures e.State() == PresenceActivationContact(old(e.State()), c, obj, contact, hops)
  {
    var comp := e.components[c];
    match (comp.kind.variant, contact)
    case (OnEnter, Entering) =>
      if comp.budget.activated {
        SpreadStimulus(e, c, obj, hops);
      }
    case (OnStay, Staying) =>
      if comp.budget.activated {
        SpreadStimulus(e, c, obj, hops);
      }
    case (_, _) =>
  }

  method UpdatePresenceActivation(e: Engine, c: Handle)
    requires IsPresenceActivation(e.State(), c)
    modifies e
    ensures e.State() == PresenceActivationUpdate(old(e.State()), c)
  {
    var col := e.components[c].kind.collider;
    if col in e.colliders {
      e.colliders := e.colliders[col := e.colliders[col].(enabled := e.components[c].budget.activated)];
    }
  }
}

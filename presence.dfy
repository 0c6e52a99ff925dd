/**
 * Presence outputs: an output whose collider announces its token to whatever
 * overlaps it. When the output is deactivated, the collider is first shrunk to
 * nothing for one physics tick and only then restored and disabled.
 */
module PresenceOutput {
  import opened Wrappers
  import opened World
  import opened ColliderDisabling

  predicate IsPresence(w: World, c: Handle) {
    c in w.components && w.components[c].kind.PresenceOut?
  }

  /** The presence collider of `c`, when it still exists. */
  predicate HasCollider(w: World, c: Handle) {
    IsPresence(w, c) && w.components[c].kind.collider in w.colliders
  }

  /** Replace the presence-specific state of `c`. */
  function WithPresence(w: World, c: Handle, minimized: bool, d: Disabler): (w': World)
    requires IsPresence(w, c)
    ensures IsPresence(w', c) && w'.components[c].kind.minimized == minimized && w'.components[c].kind.disabler == d
    ensures w'.components[c].kind.collider == w.components[c].kind.collider
    ensures w'.components[c].budget == w.components[c].budget
  {
    var k := w.components[c].kind;
    WithKind(w, c, PresenceOut(k.stimulus, k.collider, minimized, d))
  }

  /** `Start`: a new, clean disabler. */
  function AfterPresenceStart(w: World, c: Handle): (w': World)
    requires IsPresence(w, c)
    ensures IsPresence(w', c) && w'.components[c].kind.disabler == CleanDisabler
  {
    WithPresence(w, c, w.components[c].kind.minimized, CleanDisabler)
  }

  /**
   * `FixedUpdate`: an enabled collider of a deactivated output is shrunk on one tick
   * (the flag `minimized` is set only when shrinking completes) and restored and
   * disabled on the next; in every other case the collider's enabled flag follows the
   * activated flag. A collider that no longer exists makes the tick do nothing.
   */
  function PresenceTick(w: World, c: Handle): (w': World)
    requires IsPresence(w, c)
    ensures IsPresence(w', c) && w'.colliders.Keys == w.colliders.Keys
  {
    var k := w.components[c].kind;
    var col := k.collider;
    var act := w.components[c].budget.activated;
    if col !in w.colliders then w
    else if w.colliders[col].enabled && !act then
      if !k.minimized then
        var m := Minimize(w.colliders, k.disabler, col);
        WithPresence(w.(colliders := m.colliders), c, m.completed, m.disabler)
      else
        var restored := Restore(w.colliders, k.disabler);
        WithPresence(w.(colliders := restored[col := Collider(act, restored[col].shape)]), c, false, CleanDisabler)
    else w.(colliders := w.colliders[col := Collider(act, w.colliders[col].shape)])
  }

  /** `n` ticks with no other event in between. */
  function Ticks(w: World, c: Handle, n: nat): (w': World)
    requires IsPresence(w, c)
    ensures IsPresence(w', c)
  {
    if n == 0 then w else PresenceTick(Ticks(w, c, n - 1), c)
  }

  /** Outside the shrink-and-restore case, a tick only makes the enabled flag follow the activated flag. */
  lemma TickFollowsActivated(w: World, c: Handle)
    requires HasCollider(w, c)
    requires var col := w.components[c].kind.collider;
      !(w.colliders[col].enabled && !w.components[c].budget.activated)
    ensures var col := w.components[c].kind.collider;
      var w' := PresenceTick(w, c);
      && w'.colliders[col] == Collider(w.components[c].budget.activated, w.colliders[col].shape)
      && w'.components == w.components
      && (forall h :: h in w.colliders && h != col ==> w'.colliders[h] == w.colliders[h])
  {
  }

  /**
   * From a stable active state, deactivation disables a box, capsule or mesh collider
   * in exactly two ticks: the first shrinks it and keeps it enabled, the second puts
   * its dimensions back and disables it. Later ticks change nothing.
   */
  lemma TwoTickDisable(w: World, c: Handle)
    requires HasCollider(w, c) && !w.components[c].budget.activated
    requires var k := w.components[c].kind;
      && !k.minimized && k.disabler == CleanDisabler
      && w.colliders[k.collider].enabled && Shrinkable(w.colliders[k.collider].shape)
    ensures var col := w.components[c].kind.collider;
      var w1 := PresenceTick(w, c);
      && w1.colliders[col] == Collider(true, Zeroed(w.colliders[col].shape))
      && w1.components[c].kind.minimized
    ensures var col := w.components[c].kind.collider;
      var w2 := PresenceTick(PresenceTick(w, c), c);
      && w2.colliders == w.colliders[col := Collider(false, w.colliders[col].shape)]
      && !w2.components[c].kind.minimized
      && w2.components[c].kind.disabler == CleanDisabler
      && PresenceTick(w2, c) == w2
  {
    var k := w.components[c].kind;
    var col := k.collider;
    MinimizeRestoreRoundTrip(w.colliders, col);
    var m := Minimize(w.colliders, CleanDisabler, col);
    var w1 := PresenceTick(w, c);
    assert w1 == WithPresence(w.(colliders := m.colliders), c, true, m.disabler);
    var restored := Restore(w1.colliders, m.disabler);
    assert restored == w.colliders;
    var w2 := PresenceTick(w1, c);
    assert w2 == WithPresence(w1.(colliders := restored[col := Collider(false, restored[col].shape)]), c, false, CleanDisabler);
    assert w2.components[c] == w.components[c].(kind := PresenceOut(k.stimulus, col, false, CleanDisabler));
    assert w2.components[c] == w.components[c];
    assert w2.colliders[col := Collider(false, w2.colliders[col].shape)] == w2.colliders;
  }

  /** Reactivation re-enables a disabled collider in one tick, without shrinking or restoring anything. */
  lemma ReactivationEnables(w: World, c: Handle)
    requires HasCollider(w, c) && w.components[c].budget.activated
    ensures var col := w.components[c].kind.collider;
      && PresenceTick(w, c).colliders[col] == Collider(true, w.colliders[col].shape)
      && PresenceTick(w, c).components == w.components
  {
  }

  /**
   * A shrunk collider is restored and disabled in one tick whenever the output is
   * deactivated; if the output was reactivated during the shrunk tick, the collider
   * stays enabled and the output stays minimized until the next deactivation.
   */
  lemma ShrunkTick(w: World, c: Handle)
    requires HasCollider(w, c) && w.components[c].kind.minimized
    ensures var k := w.components[c].kind;
      var col := k.collider;
      w.colliders[col].enabled && !w.components[c].budget.activated ==>
        var restored := Restore(w.colliders, k.disabler);
        && PresenceTick(w, c).colliders == restored[col := Collider(false, restored[col].shape)]
        && !PresenceTick(w, c).components[c].kind.minimized
        && PresenceTick(w, c).components[c].kind.disabler == CleanDisabler
    ensures var col := w.components[c].kind.collider;
      w.components[c].budget.activated ==>
        && PresenceTick(w, c).colliders[col].enabled
        && PresenceTick(w, c).components[c].kind.minimized
  {
  }

  /** The state the sphere defect keeps a presence output in: enabled, deactivated, not minimized, no capsule saved. */
  predicate StuckSphere(w: World, c: Handle) {
    && HasCollider(w, c)
    && !w.components[c].budget.activated
    && !w.components[c].kind.minimized
    && w.colliders[w.components[c].kind.collider].enabled
    && w.colliders[w.components[c].kind.collider].shape.Sphere?
    && !Alive(w.colliders, w.components[c].kind.disabler.auxCapsule)
  }

  /** One tick of a stuck sphere leaves every collider as it was and the output still stuck. */
  lemma SphereTick(w: World, c: Handle)
    requires StuckSphere(w, c)
    ensures PresenceTick(w, c).colliders == w.colliders
    ensures StuckSphere(PresenceTick(w, c), c)
  {
    var k := w.components[c].kind;
    SphereMinimizeFails(w.colliders, k.disabler, k.collider);
  }

  /**
   * As written, a sphere presence collider is never disabled by deactivation: however
   * many ticks pass, it stays enabled with its full radius.
   */
  lemma {:induction false} SphereNeverDisabled(w: World, c: Handle, n: nat)
    requires StuckSphere(w, c)
    ensures Ticks(w, c, n).colliders == w.colliders
    ensures StuckSphere(Ticks(w, c, n), c)
  {
    if n > 0 {
      SphereNeverDisabled(w, c, n - 1);
      SphereTick(Ticks(w, c, n - 1), c);
    }
  }

  method PresenceStart(e: Engine, c: Handle)
    requires IsPresence(e.State(), c)
    modifies e
    ensures e.State() == AfterPresenceStart(old(e.State()), c)
  {
    var k := e.components[c].kind;
    e.components := e.components[c := e.components[c].(kind := PresenceOut(k.stimulus, k.collider, k.minimized, CleanDisabler))];
  }

  method PresenceFixedUpdate(e: Engine, c: Handle)
    requires IsPresence(e.State(), c)
    modifies e
    ensures e.State() == PresenceTick(old(e.State()), c)
  {
    var k := e.components[c].kind;
    var col := k.collider;
    var act := e.components[c].budget.activated;
    if col !in e.colliders {
      return;
    }
    if e.colliders[col].enabled && !act {
      if !k.minimized {
        var m := Minimize(e.colliders, k.disabler, col);
        e.colliders := m.colliders;
        e.components := e.components[c := e.components[c].(kind := PresenceOut(k.stimulus, col, m.completed, m.disabler))];
      } else {
        var restored := Restore(e.colliders, k.disabler);
        e.colliders := restored[col := Collider(act, restored[col].shape)];
        e.components := e.components[c := e.components[c].(kind := PresenceOut(k.stimulus, col, false, CleanDisabler))];
      }
    } else {
      e.colliders := e.colliders[col := Collider(act, e.colliders[col].shape)];
    }
  }
}

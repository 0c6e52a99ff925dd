/**
 * The budget operations every input and output component inherits from `Activable`:
 * the `Activated` property and `ResetActivations`, applied to a component of the scene.
 */
module ComponentBudget {
  import opened Activable
  import opened World

  /** The `Activated` getter. */
  function Activated(w: World, c: Handle): bool
    requires c in w.components
  {
    w.components[c].budget.activated
  }

  /** The `Activated` setter. */
  function AfterSetActivated(w: World, c: Handle, value: bool): World
    requires c in w.components
  {
    WithBudget(w, c, WithActivated(w.components[c].budget, value))
  }

  /** `ResetActivations`. */
  function AfterResetActivations(w: World, c: Handle): World
    requires c in w.components
  {
    WithBudget(w, c, Reset(w.components[c].budget))
  }

  /**
   * The getter returns the last value set, and setting changes nothing but that flag
   * of that component.
   */
  lemma SetThenGet(w: World, c: Handle, value: bool)
    requires c in w.components
    ensures c in AfterSetActivated(w, c, value).components
    ensures Activated(AfterSetActivated(w, c, value), c) == value
    ensures AfterSetActivated(w, c, value).components[c].budget.(activated := w.components[c].budget.activated) == w.components[c].budget
    ensures AfterSetActivated(w, c, value).components[c].(budget := w.components[c].budget) == w.components[c]
    ensures forall d :: d in w.components && d != c ==> AfterSetActivated(w, c, value).components[d] == w.components[d]
    ensures AfterSetActivated(w, c, value).(components := w.components) == w
  {
  }

  /**
   * A reset zeroes the count and keeps the flag, the unlimited flag and the maximum;
   * resetting twice is resetting once.
   */
  lemma ResetEffect(w: World, c: Handle)
    requires c in w.components
    ensures c in AfterResetActivations(w, c).components
    ensures AfterResetActivations(w, c).components[c].budget.count == 0
    ensures AfterResetActivations(w, c).components[c].budget.activated == w.components[c].budget.activated
    ensures AfterResetActivations(w, c).components[c].budget.infinite == w.components[c].budget.infinite
    ensures AfterResetActivations(w, c).components[c].budget.max == w.components[c].budget.max
    ensures AfterResetActivations(AfterResetActivations(w, c), c) == AfterResetActivations(w, c)
  {
  }

  method GetActivated(e: Engine, c: Handle) returns (value: bool)
    requires c in e.components
    ensures value == e.components[c].budget.activated
  {
    value := e.components[c].budget.activated;
  }

  method SetActivated(e: Engine, c: Handle, value: bool)
    requires c in e.components
    modifies e
    ensures e.State() == AfterSetActivated(old(e.State()), c, value)
  {
    e.components := e.components[c := e.components[c].(budget := e.components[c].budget.(activated := value))];
  }

  method ResetActivations(e: Engine, c: Handle)
    requires c in e.components
    modifies e
    ensures e.State() == AfterResetActivations(old(e.State()), c)
  {
    e.components := e.components[c := e.components[c].(budget := e.components[c].budget.(count := 0))];
  }
}

/**
 * The activation budget every input and output component inherits: an on/off flag,
 * an "unlimited" flag, a maximum and the number of activations so far.
 */
module Activable {

  datatype Budget = Budget(activated: bool, infinite: bool, max: int, count: int)

  /** A freshly added component: activated, unlimited, maximum 100, no activations yet. */
  const Fresh := Budget(true, true, 100, 0)

  /** The usual exhaustion test: a limited budget whose count has reached its maximum. */
  predicate Exhausted(b: Budget) {
    !b.infinite && b.count >= b.max
  }

  /** The gate most components test before acting: activated and not exhausted. */
  predicate Ready(b: Budget) {
    b.activated && !Exhausted(b)
  }

  /** One more activation. */
  function Spend(b: Budget): (r: Budget)
    ensures r.count == b.count + 1
    ensures r.(count := b.count) == b
  {
    b.(count := b.count + 1)
  }

  /** `ResetActivations`: only the activation count changes, and it becomes 0. */
  function Reset(b: Budget): (r: Budget)
    ensures r.count == 0 && r.(count := b.count) == b
  {
    b.(count := 0)
  }

  /** The `Activated` setter: only the flag changes. */
  function WithActivated(b: Budget, value: bool): (r: Budget)
    ensures r.activated == value && r.(activated := b.activated) == b
  {
    b.(activated := value)
  }

  /** A fresh component is ready, and stays ready under any finite number of spends. */
  lemma FreshNeverExhausts(n: nat)
    ensures Ready(SpendN(Fresh, n))
  {
  }

  function SpendN(b: Budget, n: nat): (r: Budget)
    ensures r.(count := b.count) == b
  {
    if n == 0 then b else Spend(SpendN(b, n - 1))
  }

  /** `n` spends raise the count by exactly `n`. */
  lemma {:induction false} SpendNCount(b: Budget, n: nat)
    ensures SpendN(b, n).count == b.count + n
  {
    if n > 0 { SpendNCount(b, n - 1); }
  }

  /**
   * Budget monotonicity: a limited, activated budget with maximum `N` accepts exactly
   * `N - count` further spends, after which it is exhausted; a reset makes it ready
   * again whenever `N` is positive.
   */
  lemma BudgetMonotonicity(b: Budget, n: nat)
    requires b.activated && !b.infinite && 0 <= b.count && b.count + n == b.max
    ensures forall k: nat :: k < n ==> Ready(SpendN(b, k))
    ensures Exhausted(SpendN(b, n))
    ensures b.max > 0 ==> Ready(Reset(SpendN(b, n)))
  {
    forall k: nat | k < n ensures Ready(SpendN(b, k)) { SpendNCount(b, k); }
    SpendNCount(b, n);
  }
}

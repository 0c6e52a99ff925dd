/**
 * The smell system: a singleton system holding the list of live smell particles.
 * `AddParticle` appends and `EraseParticle` removes the first occurrence.
 */
module SmellRegistry {
  import opened Wrappers
  import opened Lists
  import opened World

  /** Replace the particle list of entity `s`. */
  function WithParticles(w: World, s: Handle, ps: seq<Handle>): World
    requires s in w.entities
  {
    w.(entities := w.entities[s := w.entities[s].(particles := ps)])
  }

  function AfterAddParticle(w: World, s: Handle, p: Handle): World
    requires s in w.entities
  {
    WithParticles(w, s, w.entities[s].particles + [p])
  }

  function AfterEraseParticle(w: World, s: Handle, p: Handle): World
    requires s in w.entities
  {
    WithParticles(w, s, Remove(w.entities[s].particles, p))
  }

  /** Adding then erasing a particle that was not listed restores the smell system exactly. */
  lemma AddThenEraseParticle(w: World, s: Handle, p: Handle)
    requires s in w.entities && p !in w.entities[s].particles
    ensures p in AfterAddParticle(w, s, p).entities[s].particles
    ensures AfterEraseParticle(AfterAddParticle(w, s, p), s, p) == w
  {
    RemoveAfterAppend(w.entities[s].particles, p);
    assert w.entities[s].(particles := w.entities[s].particles) == w.entities[s];
    assert w.entities[s := w.entities[s]] == w.entities;
  }

  /** Erasing a particle leaves every other particle listed, and the erased one gone when the list had no repeats. */
  lemma EraseParticleEffect(w: World, s: Handle, p: Handle, q: Handle)
    requires s in w.entities && q != p
    ensures q in AfterEraseParticle(w, s, p).entities[s].particles <==> q in w.entities[s].particles
    ensures NoDuplicates(w.entities[s].particles) ==> p !in AfterEraseParticle(w, s, p).entities[s].particles
  {
    RemoveMembership(w.entities[s].particles, p, q);
    if NoDuplicates(w.entities[s].particles) { RemoveNoDuplicates(w.entities[s].particles, p); }
  }

  /** Whether `Awake` of `s` finds a different live smell system already installed. */
  predicate SmellDuplicate(w: World, s: Handle) {
    Live(w, w.smellInstance) && w.smellInstance.value != s
  }

  /** `Awake`: become the singleton unless another live instance exists (then this one is due for destruction). */
  function AfterSmellAwake(w: World, s: Handle): (w': World)
    ensures SmellDuplicate(w, s) ==> w' == w
    ensures !SmellDuplicate(w, s) ==> w' == w.(smellInstance := Some(s))
  {
    if SmellDuplicate(w, s) then w else w.(smellInstance := Some(s))
  }

  /**
   * Once live smell system `s` is installed, `Awake` of any other smell system is a
   * duplicate and changes nothing, and `Awake` of `s` again changes nothing either.
   */
  lemma SmellSingleton(w: World, s: Handle, t: Handle)
    requires s in w.entities && !SmellDuplicate(w, s)
    ensures AfterSmellAwake(w, s).smellInstance == Some(s)
    ensures t != s ==> SmellDuplicate(AfterSmellAwake(w, s), t)
    ensures AfterSmellAwake(AfterSmellAwake(w, s), t).smellInstance == Some(s)
    ensures AfterSmellAwake(AfterSmellAwake(w, s), s) == AfterSmellAwake(w, s)
  {
  }

  method AddParticle(e: Engine, s: Handle, p: Handle)
    requires s in e.entities
    modifies e
    ensures e.State() == AfterAddParticle(old(e.State()), s, p)
  {
    e.entities := e.entities[s := e.entities[s].(particles := e.entities[s].particles + [p])];
  }

  method EraseParticle(e: Engine, s: Handle, p: Handle)
    requires s in e.entities
    modifies e
    ensures e.State() == AfterEraseParticle(old(e.State()), s, p)
  {
    e.entities := e.entities[s := e.entities[s].(particles := Remove(e.entities[s].particles, p))];
  }

  /** `Awake`; `duplicate` reports that this smell system is due for destruction. */
  method SmellAwake(e: Engine, s: Handle) returns (duplicate: bool)
    modifies e
    ensures duplicate == SmellDuplicate(old(e.State()), s)
    ensures e.State() == AfterSmellAwake(old(e.State()), s)
  {
    duplicate := e.smellInstance.Some? && e.smellInstance.value in e.entities && e.smellInstance.value != s;
    if !duplicate {
      e.smellInstance := Some(s);
    }
  }
}

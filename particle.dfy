/**
 * A smell particle: an invisible object carrying a stimulus token (its "smell"), the
 * entity that emitted it and a movement direction. Author and token can be set only
 * once; consuming a particle hands out its token and requests its destruction.
 */
module SmellParticle {
  import opened Wrappers
  import opened World
  import opened SmellRegistry

  /** Replace the record of particle `p`. */
  function WithParticle(w: World, p: Handle, q: Particle): World {
    w.(particles := w.particles[p := q])
  }

  /** `InitParticle`: sets author and token the first time only. */
  function AfterInitParticle(w: World, p: Handle, author: Option<Handle>, stimulus: string): (w': World)
    requires p in w.particles
    ensures p in w'.particles
  {
    var q := w.particles[p];
    if q.initialized then w
    else WithParticle(w, p, q.(author := author, stimulus := stimulus, initialized := true))
  }

  /**
   * Author and token are write-once: after a first initialization they carry the first
   * values, and any later initialization changes nothing.
   */
  lemma InitParticleWriteOnce(w: World, p: Handle, a1: Option<Handle>, s1: string, a2: Option<Handle>, s2: string)
    requires p in w.particles && !w.particles[p].initialized
    ensures AfterInitParticle(w, p, a1, s1).particles[p].author == a1
    ensures AfterInitParticle(w, p, a1, s1).particles[p].stimulus == s1
    ensures AfterInitParticle(AfterInitParticle(w, p, a1, s1), p, a2, s2) == AfterInitParticle(w, p, a1, s1)
  {
  }

  /** The `Author` getter. */
  function Author(w: World, p: Handle): Option<Handle>
    requires p in w.particles
  {
    w.particles[p].author
  }

  /** The `Direction` setter: the only field that stays writable after initialization. */
  function AfterSetDirection(w: World, p: Handle, d: Vec3): World
    requires p in w.particles
  {
    WithParticle(w, p, w.particles[p].(direction := d))
  }

  /** Changing the direction leaves author and token as they were (they cannot be forged). */
  lemma SetDirectionKeepsIdentity(w: World, p: Handle, d: Vec3)
    requires p in w.particles
    ensures AfterSetDirection(w, p, d).particles[p].direction == d
    ensures Author(AfterSetDirection(w, p, d), p) == Author(w, p)
    ensures AfterSetDirection(w, p, d).particles[p].stimulus == w.particles[p].stimulus
    ensures AfterSetDirection(w, p, d).particles[p].initialized == w.particles[p].initialized
  {
  }

  /** `ConsumeParticle`: marks the particle for destruction at the end of the frame. */
  function AfterConsume(w: World, p: Handle): World
    requires p in w.particles
  {
    WithParticle(w, p, w.particles[p].(doomed := true))
  }

  /**
   * Consuming yields the particle's token; the destruction is deferred, so a second
   * consumer in the same frame gets the same token again.
   */
  lemma ConsumeTwiceSameToken(w: World, p: Handle)
    requires p in w.particles
    ensures AfterConsume(w, p).particles[p].stimulus == w.particles[p].stimulus
    ensures AfterConsume(w, p).particles[p].doomed
    ensures AfterConsume(AfterConsume(w, p), p) == AfterConsume(w, p)
  {
  }

  /**
   * `Start`: register with the smell system instance. Without a live instance the call
   * throws before anything is written.
   */
  function AfterParticleStart(w: World, p: Handle): World {
    if Live(w, w.smellInstance) then AfterAddParticle(w, w.smellInstance.value, p) else w
  }

  /** `OnDestroy`: unregister from the smell system instance, then the particle is gone. */
  function AfterParticleDestroy(w: World, p: Handle): (w': World)
    ensures p !in w'.particles
  {
    var w1 := if Live(w, w.smellInstance) then AfterEraseParticle(w, w.smellInstance.value, p) else w;
    w1.(particles := w1.particles - {p})
  }

  /**
   * A particle started and later destroyed leaves the smell system's list as it found
   * it, and the particle record is gone.
   */
  lemma StartThenDestroy(w: World, p: Handle)
    requires Live(w, w.smellInstance) && p !in w.entities[w.smellInstance.value].particles
    ensures p in AfterParticleStart(w, p).entities[w.smellInstance.value].particles
    ensures AfterParticleDestroy(AfterParticleStart(w, p), p) == w.(particles := w.particles - {p})
  {
    AddThenEraseParticle(w, w.smellInstance.value, p);
  }

  method InitParticle(e: Engine, p: Handle, author: Option<Handle>, stimulus: string)
    requires p in e.particles
    modifies e
    ensures e.State() == AfterInitParticle(old(e.State()), p, author, stimulus)
  {
    var q := e.particles[p];
    if !q.initialized {
      e.particles := e.particles[p := q.(author := author, stimulus := stimulus, initialized := true)];
    }
  }

  method GetAuthor(e: Engine, p: Handle) returns (author: Option<Handle>)
    requires p in e.particles
    ensures author == e.particles[p].author
  {
    author := e.particles[p].author;
  }

  method SetDirection(e: Engine, p: Handle, d: Vec3)
    requires p in e.particles
    modifies e
    ensures e.State() == AfterSetDirection(old(e.State()), p, d)
  {
    e.particles := e.particles[p := e.particles[p].(direction := d)];
  }

  /** `ConsumeParticle`: returns the token and requests destruction. */
  method ConsumeParticle(e: Engine, p: Handle) returns (stimulus: string)
    requires p in e.particles
    modifies e
    ensures stimulus == old(e.particles[p].stimulus)
    ensures e.State() == AfterConsume(old(e.State()), p)
  {
    stimulus := e.particles[p].stimulus;
    e.particles := e.particles[p := e.particles[p].(doomed := true)];
  }

  method ParticleStart(e: Engine, p: Handle)
    modifies e
    ensures e.State() == AfterParticleStart(old(e.State()), p)
  {
    if e.smellInstance.Some? && e.smellInstance.value in e.entities {
      AddParticle(e, e.smellInstance.value, p);
    }
  }

  method ParticleOnDestroy(e: Engine, p: Handle)
    modifies e
    ensures e.State() == AfterParticleDestroy(old(e.State()), p)
  {
    if e.smellInstance.Some? && e.smellInstance.value in e.entities {
      EraseParticle(e, e.smellInstance.value, p);
    }
    e.particles := e.particles - {p};
  }
}

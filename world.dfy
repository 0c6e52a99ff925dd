/**
 * The state of a running scene, as one record: every entity, component, game object,
 * particle and collider lives in a map keyed by an integer handle, and the root
 * system's registries are sequences. A handle that is missing from its map plays the
 * part of a null (or destroyed) reference.
 *
 * Handler invocation (`UnityEvent.Invoke`) is recorded as an entry of `trace`, and the
 * warnings the engine logs unconditionally are recorded in `log`.
 */
module World {
  import opened Wrappers
  import opened Activable

  type Handle = nat

  /** A 3-vector of collider dimensions or scales; only the zero vector is distinguished. */
  datatype Vec3 = Vec3(x: real, y: real, z: real)

  const Zero3 := Vec3(0.0, 0.0, 0.0)

  /** The exact runtime type of an entity. */
  datatype EntityKind = UnitKind | SystemKind | RootKind | SmellKind

  /**
   * An entity: a unit, a system, the root system or the smell system. `children` and
   * `systemId` are used by systems, `parentSystemKey` by units, `particles` by the
   * smell system.
   */
  datatype Entity = Entity(
    kind: EntityKind,
    name: string,
    parent: Option<Handle>,
    inputDirect: Option<Handle>,
    systemId: string,
    children: seq<Handle>,
    parentSystemKey: string,
    particles: seq<Handle>)
  {
    predicate IsSystem() { kind != UnitKind }
  }

  /** Which callback an input or output component was written for. */
  datatype Variant = OnEnter | OnStay

  /** The trigger callbacks: `OnTriggerEnter`, `OnTriggerStay`, `OnTriggerExit`. */
  datatype Contact = Entering | Staying | Leaving

  /** Where a running periodic (`PeriodicHead`/`PeriodicWait`) or probability loop stands. */
  datatype Phase = PeriodicHead | PeriodicWait | CheckHead | CheckWait | CheckCooldown

  /** The extra state of a random-activation input. */
  datatype RandomState = RandomState(
    probability: real,
    increasing: real,
    resetAfter: bool,
    byMethod: bool,
    initial: real)

  /** One running emission loop of a particle emitter: its token, its period, and whether it is waiting. */
  datatype EmitLoop = EmitLoop(stimulus: string, period: real, waiting: bool)

  /** What a broadcast output does, as classified by its `Awake`; `Pending` is the state before `Awake`. */
  datatype BroadcastMode = Pending | Inert | SystemMode(system: Handle) | RootMode(root: Handle)

  /** The saved references and dimensions of a collider disabler. */
  datatype Disabler = Disabler(
    auxBox: Option<Handle>,
    auxCapsule: Option<Handle>,
    auxSphere: Option<Handle>,
    auxMesh: Option<Handle>,
    boxSize: Vec3,
    capsuleRadius: real,
    capsuleHeight: real,
    sphereRadius: real,
    meshScale: Vec3)

  /** A disabler with nothing saved. */
  const CleanDisabler := Disabler(None, None, None, None, Zero3, 0.0, 0.0, 0.0, Zero3)

  /**
   * The kind-specific part of a component. Handler lists are represented by their
   * lengths (`handlers`, `exitHandlers`); invoking one appends to the trace.
   */
  datatype ComponentKind =
    | DirectIn(stimuli: seq<string>, handlers: nat, rebroadcast: bool)
    | VisionIn(variant: Variant, collider: Handle, stimuli: seq<string>, handlers: nat, exitHandlers: nat)
    | SmellIn(stimuli: seq<string>, handlers: nat)
    | PeriodicIn(lastActivated: bool, loops: multiset<Phase>, random: Option<RandomState>)
    | BroadcastOut(mode: BroadcastMode)
    | DirectOut(stimuli: seq<string>, targets: seq<Option<Handle>>)
    | PresenceOut(stimulus: string, collider: Handle, minimized: bool, disabler: Disabler)
    | PresenceActivationOut(variant: Variant, stimulus: string, collider: Handle, stimulable: seq<string>)
    | EmitOut(stimuli: seq<string>, emission: seq<real>, prefabDirection: Vec3, lastActivated: bool, emitters: multiset<EmitLoop>)

  /** A component: its budget, its owning entity, the game object it sits on, and its kind. */
  datatype Component = Component(budget: Budget, owner: Handle, host: Handle, kind: ComponentKind)

  /** The geometric shape of a collider, with the dimensions the disabler saves and zeroes. */
  datatype Shape = Box(size: Vec3) | Capsule(radius: real, height: real) | Sphere(radius: real) | Mesh(scale: Vec3) | OtherShape

  datatype Collider = Collider(enabled: bool, shape: Shape)

  /**
   * A smell particle. `doomed` records that its destruction has been requested;
   * `transformParent` is the object its transform hangs under.
   */
  datatype Particle = Particle(
    author: Option<Handle>,
    stimulus: string,
    direction: Vec3,
    initialized: bool,
    doomed: bool,
    transformParent: Option<Handle>)

  /** A game object: its components in order, and the particle script on it, if any. */
  datatype GameObject = GameObject(components: seq<Handle>, particle: Option<Handle>)

  datatype HandlerList = ActivationMethods | ExitMethods | ProbabilityMethods

  /** One handler-set invocation: which component, which of its lists, which index. */
  datatype Fired = Fired(component: Handle, list: HandlerList, index: nat)

  /** The warnings and errors the engine logs whatever its debug flag says. */
  datatype Warning =
    | SelfStimulation(component: Handle, stimulus: string)
    | MissingHandler(component: Handle, stimulus: string)
    | MissingExitHandler(component: Handle, stimulus: string)
    | BroadcastOnUnit(component: Handle)
    | NoSuchParent(entity: Handle)
    | EmissionMismatch(component: Handle)

  datatype World = World(
    entities: map<Handle, Entity>,
    components: map<Handle, Component>,
    objects: map<Handle, GameObject>,
    particles: map<Handle, Particle>,
    colliders: map<Handle, Collider>,
    allUnits: seq<Handle>,
    allSystems: seq<Handle>,
    systemDictionary: map<string, Handle>,
    smellSystem: Option<Handle>,
    rootInstance: Option<Handle>,
    smellInstance: Option<Handle>,
    trace: seq<Fired>,
    log: seq<Warning>)

  /** The result of a call that also answers whether it succeeded. */
  datatype Outcome = Outcome(world: World, ok: bool)

  /** An entity reference that is not null and not destroyed. */
  predicate Live(w: World, r: Option<Handle>) {
    r.Some? && r.value in w.entities
  }

  /** The component types `GetComponent<T>` is asked for. */
  datatype Wanted = WantBroadcast | WantSimpleOutput | WantPresence

  predicate Matches(k: ComponentKind, want: Wanted) {
    match want
    case WantBroadcast => k.BroadcastOut?
    case WantSimpleOutput => k.PresenceOut? || k.PresenceActivationOut?
    case WantPresence => k.PresenceOut?
  }

  /** The component `c` exists and is of the wanted type. */
  predicate IsA(w: World, c: Handle, want: Wanted) {
    c in w.components && Matches(w.components[c].kind, want)
  }

  /** The first component of the wanted type among `cs`. */
  function FirstOf(w: World, cs: seq<Handle>, want: Wanted): (r: Option<Handle>)
    ensures r.Some? ==> r.value in cs && IsA(w, r.value, want)
    ensures r.None? ==> forall c :: c in cs ==> !IsA(w, c, want)
    ensures r.Some? ==> exists i :: (0 <= i < |cs| && cs[i] == r.value && forall j :: 0 <= j < i ==> !IsA(w, cs[j], want))
  {
    if cs == [] then None
    else if IsA(w, cs[0], want) then Some(cs[0])
    else
      var r := FirstOf(w, cs[1..], want);
      assert r.Some? ==> exists i :: (0 <= i < |cs| && cs[i] == r.value && forall j :: 0 <= j < i ==> !IsA(w, cs[j], want)) by {
        if r.Some? {
          var i :| 0 <= i < |cs[1..]| && cs[1..][i] == r.value && forall j :: 0 <= j < i ==> !IsA(w, cs[1..][j], want);
          assert cs[i + 1] == r.value;
          forall j | 0 <= j < i + 1 ensures !IsA(w, cs[j], want) {
            if j > 0 { assert cs[j] == cs[1..][j - 1]; }
          }
        }
      }
      r
  }

  /** `obj.GetComponent<T>()`: the first component of the wanted type on a game object. */
  function GetComponent(w: World, obj: Handle, want: Wanted): (r: Option<Handle>)
    ensures r.Some? ==> obj in w.objects && r.value in w.objects[obj].components
    ensures r.Some? ==> IsA(w, r.value, want)
  {
    if obj in w.objects then FirstOf(w, w.objects[obj].components, want) else None
  }

  /** The token of a single-token output (a presence or presence-activation output). */
  function SimpleToken(k: ComponentKind): string
    requires k.PresenceOut? || k.PresenceActivationOut?
  {
    k.stimulus
  }

  /** `GetComponent<Particle>()`: the particle script on a game object, if it exists. */
  function ParticleOn(w: World, obj: Handle): (r: Option<Handle>)
    ensures r.Some? ==> r.value in w.particles
  {
    if obj in w.objects && w.objects[obj].particle.Some? && w.objects[obj].particle.value in w.particles
    then w.objects[obj].particle else None
  }

  /** Replace one component's budget. */
  function WithBudget(w: World, h: Handle, b: Budget): World
    requires h in w.components
  {
    w.(components := w.components[h := w.components[h].(budget := b)])
  }

  /** Replace one component's kind-specific state. */
  function WithKind(w: World, h: Handle, k: ComponentKind): World
    requires h in w.components
  {
    w.(components := w.components[h := w.components[h].(kind := k)])
  }

  /** Invoke a handler-set: append its entry to the trace. */
  function Fire(w: World, h: Handle, list: HandlerList, index: nat): World {
    w.(trace := w.trace + [Fired(h, list, index)])
  }

  function Warn(w: World, warning: Warning): World {
    w.(log := w.log + [warning])
  }

  /** The engine: the scene's state held in mutable fields. */
  class Engine {
    var entities: map<Handle, Entity>
    var components: map<Handle, Component>
    var objects: map<Handle, GameObject>
    var particles: map<Handle, Particle>
    var colliders: map<Handle, Collider>
    var allUnits: seq<Handle>
    var allSystems: seq<Handle>
    var systemDictionary: map<string, Handle>
    var smellSystem: Option<Handle>
    var rootInstance: Option<Handle>
    var smellInstance: Option<Handle>
    var trace: seq<Fired>
    var log: seq<Warning>

    /** The scene as a value. */
    function State(): World
      reads this
    {
      World(entities, components, objects, particles, colliders, allUnits, allSystems,
            systemDictionary, smellSystem, rootInstance, smellInstance, trace, log)
    }

    /** Load a scene. */
    constructor (w: World)
      ensures State() == w
    {
      entities, components, objects, particles, colliders := w.entities, w.components, w.objects, w.particles, w.colliders;
      allUnits, allSystems, systemDictionary := w.allUnits, w.allSystems, w.systemDictionary;
      smellSystem, rootInstance, smellInstance := w.smellSystem, w.rootInstance, w.smellInstance;
      trace, log := w.trace, w.log;
    }
  }
}

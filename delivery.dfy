/**
 * Direct delivery of a stimulus token and its broadcast fan-out.
 *
 * `SendDirect` hands a token to an entity's direct-connection input; `EvaluateDirect`
 * gates it on the budget and the listened tokens, optionally rebroadcasts it through
 * the broadcast output on the same object, then fires the handler at the token's first
 * index and counts the activation. `Broadcast` sends the token to every child of its
 * system, or to every registered system when its owner is the root.
 *
 * Rebroadcast can chain; the chain is bounded by `hops`, the number of nested
 * rebroadcasts still allowed.
 */
module Delivery {
  import opened Wrappers
  import opened Lists
  import opened Activable
  import opened World

  /** Component `b` differs from `a` only by an activation count that did not fall. */
  predicate Grown(a: Component, b: Component) {
    b == a.(budget := a.budget.(count := b.budget.count)) && a.budget.count <= b.budget.count
  }

  /**
   * What delivery may change: the activation counts of direct-connection inputs (only
   * upwards) and the trace (only by appending). Everything else stays as it was.
   */
  predicate Frame(w: World, w': World) {
    && w'.(components := w.components, trace := w.trace) == w
    && w'.components.Keys == w.components.Keys
    && (forall c :: c in w.components ==> Grown(w.components[c], w'.components[c]))
    && (forall c :: c in w.components && !w.components[c].kind.DirectIn? ==> w'.components[c] == w.components[c])
    && w.trace <= w'.trace
  }

  lemma FrameTrans(w1: World, w2: World, w3: World)
    requires Frame(w1, w2) && Frame(w2, w3)
    ensures Frame(w1, w3)
  {
  }

  /** A direct-connection input component. */
  predicate IsDirectIn(w: World, c: Handle) {
    c in w.components && w.components[c].kind.DirectIn?
  }

  /** The live direct-connection input of entity `x`, if it has one (otherwise the reference is null). */
  function DirectInputOf(w: World, x: Handle): (r: Option<Handle>)
    ensures r.Some? ==> IsDirectIn(w, r.value)
  {
    if x in w.entities && w.entities[x].inputDirect.Some? && IsDirectIn(w, w.entities[x].inputDirect.value)
    then w.entities[x].inputDirect else None
  }

  /**
   * `SendDirectStimulus` of entity `x`: false when it has no direct input, otherwise
   * whatever that input's evaluation answers.
   */
  function SendDirect(w: World, x: Handle, stimulus: string, hops: nat): (r: Outcome)
    ensures Frame(w, r.world)
    decreases hops, 2
  {
    var input := DirectInputOf(w, x);
    if input.None? then Outcome(w, false) else EvaluateDirect(w, input.value, stimulus, hops)
  }

  /** `EvaluateStimulus` of direct-connection input `c`. */
  function EvaluateDirect(w: World, c: Handle, stimulus: string, hops: nat): (r: Outcome)
    requires IsDirectIn(w, c)
    ensures Frame(w, r.world)
    decreases hops, 1
  {
    var comp := w.components[c];
    if !Ready(comp.budget) || stimulus !in comp.kind.stimuli then Outcome(w, false)
    else
      var w1 := Rebroadcast(w, c, stimulus, hops);
      var index := IndexOf(comp.kind.stimuli, stimulus);
      if comp.kind.handlers < index + 1 then Outcome(w1, false)
      else
        var w2 := WithBudget(Fire(w1, c, ActivationMethods, index), c, Spend(w1.components[c].budget));
        FrameTrans(w, w1, w2);
        Outcome(w2, true)
  }

  /**
   * The rebroadcast step of `EvaluateStimulus`: pass the token to the broadcast output
   * on the same object, if the input asks for it and there is one. With no hops left
   * the chain is cut here.
   */
  function Rebroadcast(w: World, c: Handle, stimulus: string, hops: nat): (w': World)
    requires IsDirectIn(w, c)
    ensures Frame(w, w')
    decreases hops, 0
  {
    if !w.components[c].kind.rebroadcast then w
    else
      var out := GetComponent(w, w.components[c].host, WantBroadcast);
      if out.None? || hops == 0 then w else Broadcast(w, out.value, stimulus, hops - 1)
  }

  /**
   * Whom broadcast output `b` sends to: the children of its system in system mode, every
   * registered system in root mode, nobody when inert or not yet classified.
   */
  function Recipients(w: World, b: Handle): seq<Handle>
    requires b in w.components && w.components[b].kind.BroadcastOut?
  {
    match w.components[b].kind.mode
    case SystemMode(s) => if s in w.entities then w.entities[s].children else []
    case RootMode(_) => w.allSystems
    case Inert => []
    case Pending => []
  }

  /** `BroadcastStimulus` of broadcast output `b`. */
  function Broadcast(w: World, b: Handle, stimulus: string, hops: nat): (w': World)
    requires b in w.components && w.components[b].kind.BroadcastOut?
    ensures Frame(w, w')
    decreases hops, 4
  {
    SendAll(w, Recipients(w, b), stimulus, hops)
  }

  /** `SendDirectStimulus` to each of `targets`, in order, ignoring the answers. */
  function SendAll(w: World, targets: seq<Handle>, stimulus: string, hops: nat): (w': World)
    ensures Frame(w, w')
    decreases hops, 3, |targets|
  {
    if targets == [] then w
    else
      var w1 := SendAll(w, targets[..|targets| - 1], stimulus, hops);
      var r := SendDirect(w1, targets[|targets| - 1], stimulus, hops);
      FrameTrans(w, w1, r.world);
      r.world
  }

  /** The token is listened to by input `c` and its first index has a handler. */
  predicate Handled(w: World, c: Handle, stimulus: string)
    requires IsDirectIn(w, c)
  {
    var k := w.components[c].kind;
    stimulus in k.stimuli && IndexOf(k.stimuli, stimulus) < k.handlers
  }

  /**
   * The gate of `EvaluateStimulus`: a deactivated or exhausted input, or an unlistened
   * token, is refused with no effect at all (no rebroadcast either). Otherwise the
   * answer is true exactly when the token's first index has a handler.
   */
  lemma EvaluateDirectGate(w: World, c: Handle, stimulus: string, hops: nat)
    requires IsDirectIn(w, c)
    ensures !Ready(w.components[c].budget) || stimulus !in w.components[c].kind.stimuli ==>
      EvaluateDirect(w, c, stimulus, hops) == Outcome(w, false)
    ensures EvaluateDirect(w, c, stimulus, hops).ok <==> Ready(w.components[c].budget) && Handled(w, c, stimulus)
  {
  }

  /**
   * On success the handler-set at the token's first index is the last one fired, and
   * the input's count ends at least one above where it started.
   */
  lemma EvaluateDirectFires(w: World, c: Handle, stimulus: string, hops: nat)
    requires IsDirectIn(w, c)
    ensures var r := EvaluateDirect(w, c, stimulus, hops);
      r.ok ==>
        && |r.world.trace| > |w.trace|
        && r.world.trace[|r.world.trace| - 1] == Fired(c, ActivationMethods, IndexOf(w.components[c].kind.stimuli, stimulus))
        && r.world.components[c].budget.count >= w.components[c].budget.count + 1
  {
    var comp := w.components[c];
    if Ready(comp.budget) && stimulus in comp.kind.stimuli {
      var w1 := Rebroadcast(w, c, stimulus, hops);
      assert Grown(comp, w1.components[c]);
    }
  }

  /**
   * Without rebroadcast the effect is exact: on success one entry for the token's
   * handler is appended and the count rises by exactly one; on failure nothing changes.
   * A limited input that starts at or below its maximum therefore never exceeds it.
   * The bound holds only without rebroadcast: a rebroadcast runs before the count
   * rises, and once the `hops` cut ends a cycle back to this input, every level of
   * the chain counts, so the count can pass the maximum where the source instead
   * recurses until its stack overflows and never counts.
   */
  lemma EvaluateDirectPlain(w: World, c: Handle, stimulus: string, hops: nat)
    requires IsDirectIn(w, c) && !w.components[c].kind.rebroadcast
    ensures var r := EvaluateDirect(w, c, stimulus, hops);
      && (r.ok ==> r.world == WithBudget(Fire(w, c, ActivationMethods, IndexOf(w.components[c].kind.stimuli, stimulus)), c, Spend(w.components[c].budget)))
      && (!r.ok ==> r.world == w)
    ensures var b := w.components[c].budget;
      !b.infinite && b.count <= b.max ==> EvaluateDirect(w, c, stimulus, hops).world.components[c].budget.count <= b.max
  {
  }

  /** With rebroadcast, a listened token reaches the broadcast output even when the handler check then fails. */
  lemma RebroadcastBeforeHandler(w: World, c: Handle, stimulus: string, hops: nat)
    requires IsDirectIn(w, c) && w.components[c].kind.rebroadcast && hops > 0
    requires Ready(w.components[c].budget) && stimulus in w.components[c].kind.stimuli
    requires GetComponent(w, w.components[c].host, WantBroadcast).Some?
    requires !Handled(w, c, stimulus)
    ensures EvaluateDirect(w, c, stimulus, hops) ==
      Outcome(Broadcast(w, GetComponent(w, w.components[c].host, WantBroadcast).value, stimulus, hops - 1), false)
  {
  }

  /**
   * A rebroadcast through a broadcast output whose `Awake` has not run yet sends
   * nothing and changes nothing, so the evaluation goes on to the handler and the
   * count exactly as without rebroadcast.
   */
  lemma PendingRebroadcastSkipped(w: World, c: Handle, b: Handle, stimulus: string, hops: nat)
    requires IsDirectIn(w, c) && w.components[c].kind.rebroadcast
    requires GetComponent(w, w.components[c].host, WantBroadcast) == Some(b)
    requires b in w.components && w.components[b].kind == BroadcastOut(Pending)
    ensures Rebroadcast(w, c, stimulus, hops) == w
    ensures Ready(w.components[c].budget) && Handled(w, c, stimulus) ==>
      EvaluateDirect(w, c, stimulus, hops) ==
        Outcome(WithBudget(Fire(w, c, ActivationMethods, IndexOf(w.components[c].kind.stimuli, stimulus)), c, Spend(w.components[c].budget)), true)
  {
    if hops > 0 {
      assert Recipients(w, b) == [];
      assert Broadcast(w, b, stimulus, hops - 1) == SendAll(w, [], stimulus, hops - 1) == w;
    }
  }

  /** An entity without a live direct input answers false and nothing changes. */
  lemma SendDirectWithoutInput(w: World, x: Handle, stimulus: string, hops: nat)
    requires DirectInputOf(w, x).None?
    ensures SendDirect(w, x, stimulus, hops) == Outcome(w, false)
  {
  }

  /** Delivery never changes which direct input an entity has. */
  lemma DirectInputStable(w: World, w': World, x: Handle)
    requires Frame(w, w')
    ensures DirectInputOf(w', x) == DirectInputOf(w, x)
  {
    if x in w.entities && w.entities[x].inputDirect.Some? {
      var d := w.entities[x].inputDirect.value;
      if d in w.components { assert Grown(w.components[d], w'.components[d]); }
    }
  }

  /** Sending to `a + b` is sending to `a`, then to `b`: each target once, in list order. */
  lemma {:induction false} SendAllAppend(w: World, a: seq<Handle>, b: seq<Handle>, stimulus: string, hops: nat)
    ensures SendAll(w, a + b, stimulus, hops) == SendAll(SendAll(w, a, stimulus, hops), b, stimulus, hops)
    decreases |b|
  {
    if b == [] {
      assert a + b == a;
    } else {
      var b' := b[..|b| - 1];
      assert (a + b)[..|a + b| - 1] == a + b';
      assert (a + b)[|a + b| - 1] == b[|b| - 1];
      SendAllAppend(w, a, b', stimulus, hops);
    }
  }

  /** No target's direct input rebroadcasts. */
  predicate NoRebroadcastAt(w: World, targets: seq<Handle>) {
    forall x :: x in targets && DirectInputOf(w, x).Some? ==> !w.components[DirectInputOf(w, x).value].kind.rebroadcast
  }

  /** The number of entries of `tr` fired by component `c`. */
  function FiredBy(tr: seq<Fired>, c: Handle): (n: nat)
    ensures n <= |tr|
  {
    if tr == [] then 0
    else FiredBy(tr[..|tr| - 1], c) + (if tr[|tr| - 1].component == c then 1 else 0)
  }

  /** The number of entries of `targets` whose live direct input is `c`. */
  function Addressing(w: World, targets: seq<Handle>, c: Handle): (n: nat)
    ensures n <= |targets|
  {
    if targets == [] then 0
    else Addressing(w, targets[..|targets| - 1], c) + (if DirectInputOf(w, targets[|targets| - 1]) == Some(c) then 1 else 0)
  }

  /** Appending one entry counts it for its own component only. */
  lemma FiredBySnoc(tr: seq<Fired>, e: Fired, c: Handle)
    ensures FiredBy(tr + [e], c) == FiredBy(tr, c) + (if e.component == c then 1 else 0)
  {
    assert (tr + [e])[..|tr|] == tr;
  }

  /** One send to a target whose input does not rebroadcast appends at most one entry, fired by that input. */
  lemma SendOneFiresAtMostOnce(w: World, x: Handle, stimulus: string, hops: nat)
    requires DirectInputOf(w, x).Some? ==> !w.components[DirectInputOf(w, x).value].kind.rebroadcast
    ensures var w' := SendDirect(w, x, stimulus, hops).world;
      || w'.trace == w.trace
      || (DirectInputOf(w, x).Some? && exists e: Fired :: e.component == DirectInputOf(w, x).value && w'.trace == w.trace + [e])
  {
    var input := DirectInputOf(w, x);
    if input.Some? {
      EvaluateDirectPlain(w, input.value, stimulus, hops);
      var r := EvaluateDirect(w, input.value, stimulus, hops);
      if r.ok {
        var e := Fired(input.value, ActivationMethods, IndexOf(w.components[input.value].kind.stimuli, stimulus));
        assert r.world.trace == w.trace + [e];
      }
    }
  }

  /** The counting step of the fan-out: the last target adds at most one entry, fired by its own input. */
  lemma FanOutCountStep(w: World, targets: seq<Handle>, t1: seq<Fired>, t2: seq<Fired>)
    requires targets != [] && w.trace <= t1 && |t1| <= |w.trace| + |targets| - 1
    requires forall c :: FiredBy(t1[|w.trace|..], c) <= Addressing(w, targets[..|targets| - 1], c)
    requires var d := DirectInputOf(w, targets[|targets| - 1]);
      t2 == t1 || (d.Some? && exists e: Fired :: e.component == d.value && t2 == t1 + [e])
    ensures |t2| <= |w.trace| + |targets|
    ensures forall c :: FiredBy(t2[|w.trace|..], c) <= Addressing(w, targets, c)
  {
    if t2 != t1 {
      var d := DirectInputOf(w, targets[|targets| - 1]);
      var e: Fired :| e.component == d.value && t2 == t1 + [e];
      assert t2[|w.trace|..] == t1[|w.trace|..] + [e];
      forall c ensures FiredBy(t2[|w.trace|..], c) <= Addressing(w, targets, c) {
        FiredBySnoc(t1[|w.trace|..], e, c);
      }
    }
  }

  /**
   * Without rebroadcasting targets, a fan-out fires at most one handler-set per target:
   * each direct input fires no more new entries than there are occurrences of targets
   * whose input it is, and the trace grows by at most the number of targets.
   */
  lemma {:induction false} SendAllFiresAtMostOncePerTarget(w: World, targets: seq<Handle>, stimulus: string, hops: nat)
    requires NoRebroadcastAt(w, targets)
    ensures var w' := SendAll(w, targets, stimulus, hops);
      && |w'.trace| <= |w.trace| + |targets|
      && forall c :: FiredBy(w'.trace[|w.trace|..], c) <= Addressing(w, targets, c)
    decreases |targets|
  {
    if targets == [] {
      assert SendAll(w, targets, stimulus, hops).trace[|w.trace|..] == [];
    } else {
      var init := targets[..|targets| - 1];
      var x := targets[|targets| - 1];
      assert NoRebroadcastAt(w, init);
      SendAllFiresAtMostOncePerTarget(w, init, stimulus, hops);
      var w1 := SendAll(w, init, stimulus, hops);
      assert SendAll(w, targets, stimulus, hops) == SendDirect(w1, x, stimulus, hops).world;
      DirectInputStable(w, w1, x);
      if DirectInputOf(w1, x).Some? {
        assert Grown(w.components[DirectInputOf(w1, x).value], w1.components[DirectInputOf(w1, x).value]);
      }
      SendOneFiresAtMostOnce(w1, x, stimulus, hops);
      FanOutCountStep(w, targets, w1.trace, SendDirect(w1, x, stimulus, hops).world.trace);
    }
  }

  /** Sending to one more target is sending to the first ones, then to it. */
  lemma SendAllStep(w: World, targets: seq<Handle>, i: nat, stimulus: string, hops: nat)
    requires i < |targets|
    ensures SendAll(w, targets[..i + 1], stimulus, hops) == SendDirect(SendAll(w, targets[..i], stimulus, hops), targets[i], stimulus, hops).world
  {
    assert targets[..i + 1][..i] == targets[..i];
  }

  /**
   * A broadcast has no gate of its own and its own component never changes; an inert
   * (or not yet classified) broadcast does nothing; a root-owned broadcast sends to
   * every registered system, and a system-owned one to each child of its system.
   */
  lemma BroadcastTargets(w: World, b: Handle, stimulus: string, hops: nat)
    requires b in w.components && w.components[b].kind.BroadcastOut?
    ensures Broadcast(w, b, stimulus, hops).components[b] == w.components[b]
    ensures w.components[b].kind.mode.Inert? || w.components[b].kind.mode.Pending? ==> Broadcast(w, b, stimulus, hops) == w
    ensures w.components[b].kind.mode.RootMode? ==> Recipients(w, b) == w.allSystems
    ensures var m := w.components[b].kind.mode;
      m.SystemMode? && m.system in w.entities ==> Recipients(w, b) == w.entities[m.system].children
  {
  }

  /**
   * `Awake` of broadcast output `b`: inert with a warning when its owner is a unit,
   * root mode when the owner is the root, system mode for any other owner (a plain or
   * smell system). An owner that is gone makes the call throw before any write.
   */
  function AfterBroadcastAwake(w: World, b: Handle): World
    requires b in w.components && w.components[b].kind.BroadcastOut?
  {
    var owner := w.components[b].owner;
    if owner !in w.entities then w
    else match w.entities[owner].kind
      case UnitKind => Warn(WithKind(w, b, BroadcastOut(Inert)), BroadcastOnUnit(b))
      case RootKind => WithKind(w, b, BroadcastOut(RootMode(owner)))
      case SystemKind => WithKind(w, b, BroadcastOut(SystemMode(owner)))
      case SmellKind => WithKind(w, b, BroadcastOut(SystemMode(owner)))
  }

  /**
   * After `Awake` a unit-owned broadcast is inert and sends nothing; a root-owned one
   * sends to every registered system; any other sends to its owner's children.
   */
  lemma BroadcastAwakeModes(w: World, b: Handle)
    requires b in w.components && w.components[b].kind.BroadcastOut? && w.components[b].owner in w.entities
    ensures var w' := AfterBroadcastAwake(w, b);
      var owner := w.components[b].owner;
      && b in w'.components && w'.components[b].kind.BroadcastOut?
      && (w.entities[owner].kind == UnitKind ==> Recipients(w', b) == [] && w'.log == w.log + [BroadcastOnUnit(b)])
      && (w.entities[owner].kind == RootKind ==> Recipients(w', b) == w.allSystems)
      && (w.entities[owner].IsSystem() && w.entities[owner].kind != RootKind ==> Recipients(w', b) == w.entities[owner].children)
  {
    var owner := w.components[b].owner;
    var w' := AfterBroadcastAwake(w, b);
    assert w'.entities == w.entities && w'.allSystems == w.allSystems;
  }

  method BroadcastAwake(e: Engine, b: Handle)
    requires b in e.components && e.components[b].kind.BroadcastOut?
    modifies e
    ensures e.State() == AfterBroadcastAwake(old(e.State()), b)
  {
    var owner := e.components[b].owner;
    if owner !in e.entities {
      return;
    }
    var mode;
    match e.entities[owner].kind {
      case UnitKind =>
        mode := Inert;
      case RootKind =>
        mode := RootMode(owner);
      case SystemKind =>
        mode := SystemMode(owner);
      case SmellKind =>
        mode := SystemMode(owner);
    }
    e.components := e.components[b := e.components[b].(kind := BroadcastOut(mode))];
    if mode.Inert? {
      e.log := e.log + [BroadcastOnUnit(b)];
    }
  }

  /** `SendDirectStimulus` of entity `x`. */
  method SendDirectStimulus(e: Engine, x: Handle, stimulus: string, hops: nat) returns (ok: bool)
    modifies e
    ensures Outcome(e.State(), ok) == SendDirect(old(e.State()), x, stimulus, hops)
    decreases hops, 2
  {
    var input := DirectInputOf(e.State(), x);
    if input.None? {
      return false;
    }
    ok := EvaluateStimulus(e, input.value, stimulus, hops);
  }

  /** `EvaluateStimulus` of direct-connection input `c`. */
  method EvaluateStimulus(e: Engine, c: Handle, stimulus: string, hops: nat) returns (ok: bool)
    requires IsDirectIn(e.State(), c)
    modifies e
    ensures Outcome(e.State(), ok) == EvaluateDirect(old(e.State()), c, stimulus, hops)
    decreases hops, 1
  {
    var comp := e.components[c];
    if !Ready(comp.budget) {
      return false;
    }
    if stimulus !in comp.kind.stimuli {
      return false;
    }
    RebroadcastStep(e, c, stimulus, hops);
    var index := IndexOf(comp.kind.stimuli, stimulus);
    if comp.kind.handlers < index + 1 {
      return false;
    }
    e.trace := e.trace + [Fired(c, ActivationMethods, index)];
    e.components := e.components[c := e.components[c].(budget := Spend(e.components[c].budget))];
    ok := true;
  }

  /** The rebroadcast step of `EvaluateStimulus`. */
  method RebroadcastStep(e: Engine, c: Handle, stimulus: string, hops: nat)
    requires IsDirectIn(e.State(), c)
    modifies e
    ensures e.State() == Rebroadcast(old(e.State()), c, stimulus, hops)
    decreases hops, 0
  {
    if e.components[c].kind.rebroadcast {
      var out := GetComponent(e.State(), e.components[c].host, WantBroadcast);
      if out.Some? && hops > 0 {
        BroadcastStimulus(e, out.value, stimulus, hops - 1);
      }
    }
  }

  /** `BroadcastStimulus` of broadcast output `b`, with its sending loop. */
  method BroadcastStimulus(e: Engine, b: Handle, stimulus: string, hops: nat)
    requires b in e.components && e.components[b].kind.BroadcastOut?
    modifies e
    ensures e.State() == Broadcast(old(e.State()), b, stimulus, hops)
    decreases hops, 4
  {
    ghost var w0 := e.State();
    var targets := Recipients(e.State(), b);
    var i := 0;
    while i < |targets|
      invariant 0 <= i <= |targets|
      invariant e.State() == SendAll(w0, targets[..i], stimulus, hops)
    {
      SendAllStep(w0, targets, i, stimulus, hops);
      var sent := SendDirectStimulus(e, targets[i], stimulus, hops);
      i := i + 1;
    }
    assert targets[..i] == targets;
  }
}

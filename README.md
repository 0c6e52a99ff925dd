# Systemic Framework for Unity — stimulus-routing engine, modelled in Dafny

The Systemic Framework lets a Unity scene be built from *entities* (units and
systems) that exchange *stimuli*: string tokens from a shared vocabulary. Entities
are arranged in a hierarchy. A root system keeps global registries of every unit and
every system, plus a dictionary from system ID to system. A smell system keeps the
live smell particles.

Components carry an activation budget: an activated flag, an unlimited flag, a
maximum and a count. Inputs react to stimuli and fire user handler-sets:
- direct connection;
- vision, in an enter and a stay variant;
- smell;
- periodic and random timers.

Outputs produce stimuli:
- broadcast to children or to every system;
- direct connection to the i-th target;
- presence activation on contact;
- presence colliders that shrink before disabling;
- particle emitters.

The model is one world record with the following parts:
- maps from integer handles to entity, component, game-object, particle and collider records;
- the registries, as sequences and a map;
- a `trace` of handler-set invocations;
- a `log` of the warnings the engine always prints.

Every runtime operation is a pure step function on that record, and the properties
are lemmas about those functions. Beside it, the class `World.Engine` holds the same
state in mutable fields. Each operation is also a method on an `Engine`. Its
`ensures` ties the new state to the step function (`e.State() == Op(old(e.State()), …)`).
Loops in the source stay loops in these methods:
- the dictionary rebuild;
- the system-name list;
- the broadcast fan-out;
- starting the emitters.

`StimulusManager` keeps its own list and is its own class.

Null and destroyed references are handles missing from their map. Where the source
would throw a `NullReferenceException` before writing anything, the call changes
nothing. One throw is not modelled: a rebroadcast through a broadcast output whose
`Awake` has not run. The source throws out of `EvaluateStimulus` there, while the model
sends nothing and goes on (see "## Left out"). Where it throws after some writes, those writes are kept: the sphere branch
of the collider disabler, an emitter with no smell system, a system added under an ID
already in use (listed, but not entered in the dictionary), and the root's dictionary
rebuild, which keeps the entries made before the first repeated ID. Timer coroutines are
multisets of loop positions, with separate "test" and "wake" steps. The random sample
and the probability left by the probability-methods are parameters.

Things the code does that one might not expect, all modelled as written:
- the smell input never counts its activations;
- presence activation ignores the unlimited flag;
- the random input's `Start` launches the plain periodic loop (`RandomInput.RandomStartSnapshots`);
- the sphere branch of the collider disabler writes through the capsule reference, so a
  sphere presence collider is never disabled (`PresenceOutput.SphereNeverDisabled`);
- a root-owned broadcast sends to every registered system.

## Model

| member | source | states |
|---|---|---|
| Lists.IndexOf | Scripts/Input/InputDirectConnection.cs:57 | `List.IndexOf`: -1 exactly when absent, otherwise the first position holding the element |
| Lists.Remove | Scripts/Systems/System.cs:57-60 | `List.Remove`: a list without the element is unchanged, otherwise only its first occurrence is dropped |
| Lists.RemoveMembership | Scripts/Systems/RootSystem.cs:206-209 | removing one element leaves every other element's membership as it was |
| Lists.RemoveNoDuplicates | Scripts/Systems/RootSystem.cs:196-200 | removing from a list without repeats keeps it so and removes the element entirely |
| Lists.RemoveAfterAppend | Scripts/Systems/System.cs:48-60 | appending an absent element and removing it gives back the original list |
| StimulusRegistry.Added | Scripts/Stimulus/StimulusManager.cs:48-52 | the token is present afterwards; it is appended at the end only when absent, and the list is unchanged when present |
| StimulusRegistry.AddedKeepsNoDuplicates | Scripts/Stimulus/StimulusManager.cs:48-52 | adding keeps the vocabulary free of duplicates |
| StimulusRegistry.AddedAll | Scripts/Stimulus/StimulusManager.cs:48-52 | a sequence of additions keeps every earlier token at its position |
| StimulusRegistry.AddedAllUnique | Scripts/Stimulus/StimulusManager.cs:48-52 | after any sequence of additions the list has no duplicates, holds every added token and nothing else |
| StimulusRegistry.AddedIdempotent | Scripts/Stimulus/StimulusManager.cs:50 | adding the same token twice is adding it once |
| StimulusRegistry.StimulusManager.constructor | Scripts/Stimulus/StimulusManager.cs:17 | a new vocabulary is empty |
| StimulusRegistry.StimulusManager.AddStimulus | Scripts/Stimulus/StimulusManager.cs:48-52 | the list becomes `Added` of the old one, earlier tokens keep their positions, uniqueness is preserved; the empty token is not rejected |
| StimulusRegistry.StimulusManager.ValidStimulus | Scripts/Stimulus/StimulusManager.cs:61-64 | the answer is exactly list membership |
| StimulusRegistry.StimulusManager.Value | Scripts/Stimulus/StimulusManager.cs:25-28 | returns the token at the index, for an index within the list |
| StimulusRegistry.StimulusManager.Values | Scripts/Stimulus/StimulusManager.cs:33-41 | returns a copy with the same tokens in the same order; being a value, it cannot alter the registry |
| StimulusRegistry.AddThenValid | Scripts/Stimulus/StimulusManager.cs:48-64 | after `AddStimulus(s)`, `ValidStimulus(s)` holds and earlier tokens keep their positions |
| Activable.Spend | Scripts/Input/InputDirectConnection.cs:63 | one activation: the count rises by one and nothing else of the budget changes |
| Activable.Reset | Scripts/Systems/Activable.cs:50-53 | the count becomes 0 and the flag, unlimited flag and maximum are kept |
| Activable.WithActivated | Scripts/Systems/Activable.cs:39-43 | the setter changes only the activated flag |
| Activable.FreshNeverExhausts | Scripts/Systems/Activable.cs:20-33 | a fresh component (activated, unlimited, max 100, count 0) is ready after any number of activations |
| Activable.SpendNCount | Scripts/Systems/Activable.cs:33 | `n` activations raise the count by exactly `n` |
| Activable.BudgetMonotonicity | Scripts/Systems/Activable.cs:20-33 | a limited budget with maximum N accepts exactly N - count activations, then is exhausted; a reset makes it ready again when N > 0 |
| ComponentBudget.SetThenGet | Scripts/Systems/Activable.cs:39-43 | the getter returns the last value set, and the setter changes nothing but that flag of that component |
| ComponentBudget.ResetEffect | Scripts/Systems/Activable.cs:50-53 | a reset zeroes the count, keeps the other budget fields, and is idempotent |
| ComponentBudget.GetActivated | Scripts/Systems/Activable.cs:41 | returns the component's activated flag |
| ComponentBudget.SetActivated | Scripts/Systems/Activable.cs:42 | the new state is the setter's step function |
| ComponentBudget.ResetActivations | Scripts/Systems/Activable.cs:50-53 | the new state is the reset's step function |
| SystemNode.AddEntityAppends | Scripts/Systems/System.cs:48-51 | the entity goes at the end of the child list, even when already there, and the system ID is unchanged |
| SystemNode.EraseEntityRemovesFirst | Scripts/Systems/System.cs:57-60 | only the first occurrence is removed, other children keep their order, a non-child changes nothing |
| SystemNode.AddThenErase | Scripts/Systems/System.cs:48-60 | adding a non-child and erasing it restores the system |
| SystemNode.AddEntity | Scripts/Systems/System.cs:48-51 | the new state is the append step |
| SystemNode.EraseEntity | Scripts/Systems/System.cs:57-60 | the new state is the first-occurrence removal step |
| SystemNode.SystemId | Scripts/Systems/System.cs:25-31 | returns the system's ID |
| RootRegistry.MirrorsDistinctIds | Scripts/Systems/RootSystem.cs:120-136 | while the dictionary mirrors `allSystems`, no two registered systems share an ID |
| RootRegistry.MirrorsFrame | Scripts/Systems/RootSystem.cs:26-35 | the mirror invariant depends only on the registries and the registered systems' IDs |
| RootRegistry.AfterAddUnit | Scripts/Systems/RootSystem.cs:215-218 | the unit is appended to `allUnits` |
| RootRegistry.AfterEraseUnit | Scripts/Systems/RootSystem.cs:206-209 | the first occurrence of the unit leaves `allUnits` |
| RootRegistry.IsKeyUsed | Scripts/Systems/RootSystem.cs:144-148 | true exactly when the dictionary holds the key |
| RootRegistry.GetSystem | Scripts/Systems/RootSystem.cs:184-189 | null exactly for an unused key, otherwise the system registered under it |
| RootRegistry.AddSystemRegisters | Scripts/Systems/RootSystem.cs:225-229 | after `AddSystem` with an unused ID, the ID is in use and resolves to the system, which is appended to `allSystems`; units untouched |
| RootRegistry.AddSystemDuplicateKey | Scripts/Systems/RootSystem.cs:225-229 | with an ID already in use, `Dictionary.Add` throws after the append: the ID keeps resolving to the earlier system, the new one is listed anyway, and the mirror invariant is lost |
| RootRegistry.EraseSystemUnregisters | Scripts/Systems/RootSystem.cs:196-200 | after `EraseSystem` the ID is unused and `getSystem` answers null |
| RootRegistry.UnitRegistrationIsSeparate | Scripts/Systems/RootSystem.cs:206-218 | unit (de)registration leaves systems and dictionary alone; adding then erasing a new unit restores the registries |
| RootRegistry.AddSystemKeepsMirror | Scripts/Systems/RootSystem.cs:225-229 | with an unused ID (any, including "Smell"), adding keeps the dictionary an exact mirror of `allSystems` |
| RootRegistry.EraseSystemKeepsMirror | Scripts/Systems/RootSystem.cs:196-200 | erasing a registered system keeps the dictionary an exact mirror of `allSystems` |
| RootRegistry.BuildDictionaryExact | Scripts/Systems/RootSystem.cs:131-134 | with distinct IDs the rebuild runs to the end and the dictionary has one entry per system, each ID mapping to its own system |
| RootRegistry.RebuildStuck | Scripts/Systems/RootSystem.cs:133-134 | once a `Dictionary.Add` of the rebuild has thrown, the systems after it add nothing |
| RootRegistry.RebuildKeepsFirst | Scripts/Systems/RootSystem.cs:133-134 | at the first repeated ID the rebuild stops: that ID keeps the earlier system, only the `k` systems before the repeat are entered, and the rebuild is incomplete |
| RootRegistry.BuildDictionaryFresh | Scripts/Systems/RootSystem.cs:133-134 | with distinct IDs each `Dictionary.Add` of the rebuild meets a key not yet present |
| RootRegistry.RebuildMirrors | Scripts/Systems/RootSystem.cs:131-134 | a dictionary rebuilt from `allSystems` restores the mirror invariant |
| RootRegistry.RootAwakeMirrors | Scripts/Systems/RootSystem.cs:120-136 | with distinct system IDs, after `Awake` the ID is "Root", the instance is claimed unless another live root holds it, and the dictionary mirrors `allSystems` |
| RootRegistry.RootAwakeRepeatedId | Scripts/Systems/RootSystem.cs:120-136 | when `allSystems` repeats an ID first at position `k`, `Awake` leaves that ID resolving to the earlier system and a dictionary of only `k` entries |
| RootRegistry.AfterSetSmellSystem | Scripts/Systems/RootSystem.cs:65-71 | assigns the smell system only while none live is recorded, and changes nothing else |
| RootRegistry.SmellSystemWriteOnce | Scripts/Systems/RootSystem.cs:65-71 | once a live smell system is set, later assignments change nothing |
| RootRegistry.AddSystem | Scripts/Systems/RootSystem.cs:225-229 | answers whether the ID was unused (false when `Dictionary.Add` throws), and the new state is the registration step, append included in both cases |
| RootRegistry.EraseSystem | Scripts/Systems/RootSystem.cs:196-200 | the new state is the unregistration step |
| RootRegistry.AddUnit | Scripts/Systems/RootSystem.cs:215-218 | the new state is the unit registration step |
| RootRegistry.EraseUnit | Scripts/Systems/RootSystem.cs:206-209 | the new state is the unit unregistration step |
| RootRegistry.IsKeyUsedQuery | Scripts/Systems/RootSystem.cs:144-148 | answers dictionary membership |
| RootRegistry.GetSystemQuery | Scripts/Systems/RootSystem.cs:184-189 | answers null for an unknown ID, otherwise the registered system |
| RootRegistry.SetSmellSystem | Scripts/Systems/RootSystem.cs:65-71 | the new state is the write-once assignment |
| RootRegistry.RebuildDictionary | Scripts/Systems/RootSystem.cs:131-134 | the loop adds the systems of `allSystems` in order and stops at the first repeated ID, where `Dictionary.Add` throws; it answers the dictionary so far and whether it ran to the end |
| RootRegistry.RootAwake | Scripts/Systems/RootSystem.cs:120-136 | for any `allSystems`, repeated IDs included, reports a duplicate root, and the new state is the `Awake` step (rebuild stopped at the first repeat) |
| RootRegistry.UpdateInstance | Scripts/Systems/RootSystem.cs:104-112 | reports a duplicate root, and otherwise claims the empty instance slot |
| RootRegistry.UpdateInstanceClaims | Scripts/Systems/RootSystem.cs:104-112 | afterwards a live instance is recorded: the caller, named "Root", when the slot held none, the earlier one otherwise; a second call from any root changes nothing |
| RootRegistry.GetAllSystemsNameList | Scripts/Systems/RootSystem.cs:167-176 | the root's name followed by the name of each system of `allSystems`, in order |
| SmellRegistry.AddThenEraseParticle | Scripts/Systems/SmellSystem.cs:30-42 | adding then erasing an unlisted particle restores the smell system |
| SmellRegistry.EraseParticleEffect | Scripts/Systems/SmellSystem.cs:39-42 | erasing keeps every other particle listed and, without repeats, removes the particle entirely |
| SmellRegistry.AfterSmellAwake | Scripts/Systems/SmellSystem.cs:49-59 | `Awake` installs the smell system unless another live one exists, in which case nothing changes |
| SmellRegistry.SmellSingleton | Scripts/Systems/SmellSystem.cs:49-59 | once installed, other smell systems are duplicates and change nothing; a second `Awake` is a no-op |
| SmellRegistry.AddParticle | Scripts/Systems/SmellSystem.cs:30-33 | the new state is the append step |
| SmellRegistry.EraseParticle | Scripts/Systems/SmellSystem.cs:39-42 | the new state is the first-occurrence removal step |
| SmellRegistry.SmellAwake | Scripts/Systems/SmellSystem.cs:49-59 | reports a duplicate, and the new state is the `Awake` step |
| SmellParticle.InitParticleWriteOnce | Scripts/Stimulus/Particle.cs:93-101 | the first initialization sets author and token; any later one changes nothing |
| SmellParticle.SetDirectionKeepsIdentity | Scripts/Stimulus/Particle.cs:72-84 | setting the direction keeps author, token and the initialized flag |
| SmellParticle.ConsumeTwiceSameToken | Scripts/Stimulus/Particle.cs:108-112 | consuming yields the token and dooms the particle; a second consumption in the same frame sees the same token |
| SmellParticle.AfterParticleDestroy | Scripts/Stimulus/Particle.cs:139-142 | after destruction the particle is gone |
| SmellParticle.StartThenDestroy | Scripts/Stimulus/Particle.cs:119-142 | a particle started then destroyed leaves the smell system's list as it was |
| SmellParticle.InitParticle | Scripts/Stimulus/Particle.cs:93-101 | the new state is the write-once initialization |
| SmellParticle.GetAuthor | Scripts/Stimulus/Particle.cs:58-66 | returns the recorded author |
| SmellParticle.SetDirection | Scripts/Stimulus/Particle.cs:72-84 | the new state is the direction update |
| SmellParticle.ConsumeParticle | Scripts/Stimulus/Particle.cs:108-112 | returns the particle's token and dooms it |
| SmellParticle.ParticleStart | Scripts/Stimulus/Particle.cs:119-125 | registers the particle with a live smell system instance |
| SmellParticle.ParticleOnDestroy | Scripts/Stimulus/Particle.cs:139-142 | unregisters the particle, which is then gone |
| UnitNode.RegisterUnit | Scripts/Systems/Unit.cs:30-31 | the unit is registered, without creating a repeat, and nothing else changes |
| UnitNode.AdoptParent | Scripts/Systems/Unit.cs:24-29 | the parent is set and the unit is among its children; kinds and registries are kept |
| UnitNode.UnitAwakeEffect | Scripts/Systems/Unit.cs:21-33 | an already-live parent is kept with no child list changed and the unit is registered; with no live parent and an unknown key the world is unchanged, and a parent found by key is set, lists the unit, and the unit is registered once |
| UnitNode.UnitAwakeKeepsKinds | Scripts/Systems/Unit.cs:21-33 | `Awake` keeps every entity's kind and the dictionary |
| UnitNode.UnitAwakeIdempotent | Scripts/Systems/Unit.cs:21-33 | a second `Awake` changes nothing |
| UnitNode.UnitOnDestroyEffect | Scripts/Systems/Unit.cs:39-43 | a destroyed unit leaves its parent's children and `allUnits`; every other unit stays |
| UnitNode.UnitAwake | Scripts/Systems/Unit.cs:21-33 | the new state is the `Awake` step |
| UnitNode.UnitOnDestroy | Scripts/Systems/Unit.cs:39-43 | the new state is the `OnDestroy` step |
| EntityNode.InitEntityEffect | Scripts/Systems/Entity.cs:65-76 | a live parent becomes the parent with the entity appended to its children, and no other entity, component, trace entry or log line changes; otherwise only the warning is logged |
| EntityNode.InitEntityByUnknownKey | Scripts/Systems/Entity.cs:54-58 | an unregistered ID leaves the entity parentless and logs the warning |
| EntityNode.AfterEntityDestroyed | Scripts/Systems/Entity.cs:96-106 | a destroyed entity is gone |
| EntityNode.ParentEraseFrame | Scripts/Systems/Entity.cs:98-99 | leaving the parent's children changes no registry and no system ID |
| EntityNode.DestroySystemKeepsMirror | Scripts/Systems/Entity.cs:96-106 | destroying a registered system keeps the dictionary a mirror and removes the system from both |
| EntityNode.DestroyUnitUnregisters | Scripts/Systems/Entity.cs:96-106 | destroying a unit removes it from `allUnits` and touches no system registration |
| EntityNode.InitEntity | Scripts/Systems/Entity.cs:65-76 | the new state is the join step |
| EntityNode.InitEntityByKey | Scripts/Systems/Entity.cs:54-58 | the new state is the lookup-then-join step |
| EntityNode.EntityOnDestroy | Scripts/Systems/Entity.cs:96-106 | the new state is the destruction step for the entity's runtime type |
| Delivery.FrameTrans | Scripts/Output/OutputBroadcast.cs:60-74 | the delivery frame composes across successive sends |
| Delivery.SendDirect | Scripts/Systems/Entity.cs:85-89 | delivery only raises direct-input counts and appends to the trace |
| Delivery.EvaluateDirect | Scripts/Input/InputDirectConnection.cs:39-66 | evaluation only raises direct-input counts and appends to the trace |
| Delivery.Rebroadcast | Scripts/Input/InputDirectConnection.cs:47-51 | the rebroadcast only raises direct-input counts and appends to the trace |
| Delivery.Broadcast | Scripts/Output/OutputBroadcast.cs:60-74 | a broadcast only raises direct-input counts and appends to the trace |
| Delivery.SendAll | Scripts/Output/OutputBroadcast.cs:62-73 | a fan-out only raises direct-input counts and appends to the trace |
| Delivery.EvaluateDirectGate | Scripts/Input/InputDirectConnection.cs:41-46 | a deactivated, exhausted or non-listening input refuses with no effect; otherwise the answer is true iff the token's first index has a handler |
| Delivery.EvaluateDirectFires | Scripts/Input/InputDirectConnection.cs:53-60 | on success the token's handler-set is the last one fired and the count rose |
| Delivery.EvaluateDirectPlain | Scripts/Input/InputDirectConnection.cs:39-66 | without rebroadcast, success appends exactly one handler entry and counts exactly one; failure changes nothing; the maximum is respected |
| Delivery.RebroadcastBeforeHandler | Scripts/Input/InputDirectConnection.cs:47-58 | a listened token is rebroadcast even when the handler check then fails |
| Delivery.PendingRebroadcastSkipped | Scripts/Output/OutputBroadcast.cs:18-26 | a rebroadcast through a broadcast output whose `Awake` has not run changes nothing, so a ready input with a handled token fires and counts exactly once; the source throws here instead, as listed under Left out |
| Delivery.SendDirectWithoutInput | Scripts/Systems/Entity.cs:85-89 | an entity without a direct input answers false with no effect |
| Delivery.DirectInputStable | Scripts/Systems/Entity.cs:34-38 | delivery never changes which direct input an entity has |
| Delivery.SendAllAppend | Scripts/Output/OutputBroadcast.cs:62-68 | sending to `a + b` is sending to `a` then to `b`: each target once, in list order |
| Delivery.SendOneFiresAtMostOnce | Scripts/Systems/Entity.cs:85-89 | one send to a target whose input does not rebroadcast appends nothing or a single entry fired by that target's input |
| Delivery.SendAllFiresAtMostOncePerTarget | Scripts/Output/OutputBroadcast.cs:62-73 | without rebroadcasting targets, each direct input fires no more new handler-sets than the number of target occurrences it serves; the trace grows by at most the number of targets |
| Delivery.SendAllStep | Scripts/Output/OutputBroadcast.cs:64-67 | one more loop iteration sends to the next target |
| Delivery.BroadcastTargets | Scripts/Output/OutputBroadcast.cs:60-74 | no own gate or count change; inert does nothing; root mode sends to every registered system, system mode to each child |
| Delivery.BroadcastAwakeModes | Scripts/Output/OutputBroadcast.cs:36-53 | after `Awake` a unit-owned broadcast is inert (warned), a root-owned one targets all systems, any other one its owner's children |
| Delivery.BroadcastAwake | Scripts/Output/OutputBroadcast.cs:36-53 | the new state is the owner classification step |
| Delivery.SendDirectStimulus | Scripts/Systems/Entity.cs:85-89 | answer and new state are those of the delivery function |
| Delivery.EvaluateStimulus | Scripts/Input/InputDirectConnection.cs:39-66 | answer and new state are those of the evaluation function |
| Delivery.RebroadcastStep | Scripts/Input/InputDirectConnection.cs:47-51 | the new state is the rebroadcast step |
| Delivery.BroadcastStimulus | Scripts/Output/OutputBroadcast.cs:60-74 | the sending loop reaches the state of sending to every recipient in order |
| DirectOutput.SendStimulusPairs | Scripts/Output/OutputDirectConnection.cs:26-30 | a negative or out-of-range index or a null target answers false with no effect; otherwise the i-th token goes to the i-th target; the output itself never changes |
| DirectOutput.SendStimulus | Scripts/Output/OutputDirectConnection.cs:26-30 | answer and new state are those of `SendStimulusAt` |
| VisionInput.SeenOutput | Scripts/Input/InputVision.cs:47 | the output found on the other object is a single-token output |
| VisionInput.VisionUpdate | Scripts/Input/InputVision.cs:34-37 | the vision collider is enabled exactly while the input is activated |
| VisionInput.VisionEvaluateAnswer | Scripts/Input/InputVision.cs:68-78 | evaluation answers true exactly when a handler exists at the token's first index, and fires it |
| VisionInput.VisionExecuteCases | Scripts/Input/InputVision.cs:44-60 | not ready, no output or unlistened token change nothing; same entity or missing handler only log; otherwise fire and count one |
| VisionInput.VisionExecuteCountStep | Scripts/Input/InputVision.cs:44-60 | one execution raises the count by at most one, only from a ready budget, and changes nothing else of the input |
| VisionInput.StayTicks | Scripts/Input/InputVisionStay.cs:21-24 | repeated stay ticks keep the component a vision input |
| VisionInput.StayTicksBound | Scripts/Input/InputVisionStay.cs:21-24 | an overlap of `n` ticks consumes at most `n` activations and never takes a limited input past its maximum |
| VisionInput.VisionExitCases | Scripts/Input/InputVisionEnter.cs:34-68 | leaving never counts, is ignored when deactivated, is not budget-gated, and fires the exit handler at the token's index |
| VisionInput.VisionVariantCallbacks | Scripts/Input/InputVisionStay.cs:13-25 | the stay variant has no enter or exit callback, the enter variant no stay callback |
| VisionInput.ExecuteInput | Scripts/Input/InputVision.cs:44-60 | the new state is the execution step |
| VisionInput.EvaluateVision | Scripts/Input/InputVision.cs:68-78 | answer and new state are those of the evaluation function |
| VisionInput.EvaluateExit | Scripts/Input/InputVisionEnter.cs:57-68 | answer and new state are those of the exit evaluation |
| VisionInput.OnVisionExit | Scripts/Input/InputVisionEnter.cs:34-49 | the new state is the exit step |
| VisionInput.OnVisionContact | Scripts/Input/InputVisionEnter.cs:25-28 | the new state is the callback dispatch on variant and contact |
| VisionInput.UpdateVision | Scripts/Input/InputVision.cs:34-37 | the new state is the collider update |
| SmellInput.SmellEnterCases | Scripts/Input/InputSmell.cs:34-62 | smell never changes a component (never counts); refused contacts change nothing; accepted ones consume the particle, even for an unlistened token, and fire the token's handler |
| SmellInput.EvaluateSmell | Scripts/Input/InputSmell.cs:52-62 | answer and new state are those of the evaluation function |
| SmellInput.OnSmellEnter | Scripts/Input/InputSmell.cs:34-44 | the new state is the contact step |
| PeriodicInput.AfterPeriodicDisable | Scripts/Input/InputPeriodicActivation.cs:85-88 | `OnDisable` stops every loop |
| PeriodicInput.PeriodicStartLaunches | Scripts/Input/InputPeriodicActivation.cs:31-35 | `Start` records the flag and launches one loop exactly when activated |
| PeriodicInput.PeriodicUpdateEdge | Scripts/Input/InputPeriodicActivation.cs:40-51 | one loop starts exactly on a false-to-true change; a true-to-false change stops nothing; the recorded flag follows |
| PeriodicInput.PeriodicHeadExits | Scripts/Input/InputPeriodicActivation.cs:70-72 | a test finding the input deactivated or exhausted ends that loop and changes nothing else |
| PeriodicInput.PeriodicWakeCounts | Scripts/Input/InputPeriodicActivation.cs:74-76 | after a wait the count rises by exactly one and the handler fires, with no re-check |
| PeriodicInput.Cycle | Scripts/Input/InputPeriodicActivation.cs:70-76 | one full iteration keeps the loops, counts one and fires once |
| PeriodicInput.Cycles | Scripts/Input/InputPeriodicActivation.cs:70-76 | `n` iterations count exactly `n` and fire `n` times |
| PeriodicInput.PeriodicFiresUntilMax | Scripts/Input/InputPeriodicActivation.cs:70-76 | with the flag staying true, a loop starting at count c < max fires exactly max - c times and then ends |
| PeriodicInput.PeriodicStart | Scripts/Input/InputPeriodicActivation.cs:31-35 | the new state is the `Start` step |
| PeriodicInput.IniciarCorrutina | Scripts/Input/InputPeriodicActivation.cs:58-61 | the new state has one more loop, of the variant's kind |
| PeriodicInput.PeriodicUpdate | Scripts/Input/InputPeriodicActivation.cs:40-51 | the new state is the edge-detection step |
| PeriodicInput.PeriodicOnDisable | Scripts/Input/InputPeriodicActivation.cs:85-88 | the new state has no loops |
| PeriodicInput.PeriodicTest | Scripts/Input/InputPeriodicActivation.cs:70-72 | the new state is the loop test step |
| PeriodicInput.PeriodicWakeUp | Scripts/Input/InputPeriodicActivation.cs:73-76 | the new state is the wake step |
| RandomInput.CapAtOne | Scripts/Input/InputRandomActivation.cs:101 | `Mathf.Min(1, p)` is at most 1 and at most p, and is one of them |
| RandomInput.RunProbabilityMethods | Scripts/Input/InputRandomActivation.cs:91 | the probability-methods run (and set the probability) only when configured |
| RandomInput.RandomStartSnapshots | Scripts/Input/InputRandomActivation.cs:64-68 | `Start` snapshots the probability as the reset value and launches the plain periodic loop when activated |
| RandomInput.RandomUpdateStartsCheck | Scripts/Input/InputRandomActivation.cs:74-77 | a false-to-true change starts the probability loop |
| RandomInput.CheckWakeCases | Scripts/Input/InputRandomActivation.cs:90-102 | a hit counts one, resets the probability iff configured, fires and waits the cooldown; a miss counts nothing and raises the probability, capped at 1 |
| RandomInput.MissKeepsProbabilityBounded | Scripts/Input/InputRandomActivation.cs:101 | after a miss p <= 1, and p does not fall when the increment is non-negative |
| RandomInput.CertainActivation | Scripts/Input/InputRandomActivation.cs:92 | a probability of 1 or more makes every sample a hit |
| RandomInput.RaiseNClosedForm | Scripts/Input/InputRandomActivation.cs:101 | `n` misses in a row give min(1, p + n·inc) |
| RandomInput.MissesReachCertainty | Scripts/Input/InputRandomActivation.cs:101 | with a positive increment, enough misses make the probability 1 |
| RandomInput.RandomStart | Scripts/Input/InputRandomActivation.cs:64-68 | the new state is the snapshot-then-`Start` step |
| RandomInput.CheckHeadCases | Scripts/Input/InputRandomActivation.cs:86-89 | a deactivated or exhausted test ends that loop, a ready one starts its wait; budget, probability, trace and the other loops are unchanged |
| RandomInput.CheckTest | Scripts/Input/InputRandomActivation.cs:86-88 | the new state is the loop test step |
| RandomInput.ProbabilityMethodsStep | Scripts/Input/InputRandomActivation.cs:91 | the new state is the probability-methods step |
| RandomInput.DrawStep | Scripts/Input/InputRandomActivation.cs:92-102 | the new state is the draw step |
| RandomInput.CheckWakeUp | Scripts/Input/InputRandomActivation.cs:90-102 | the new state is the wake step |
| RandomInput.CooldownWake | Scripts/Input/InputRandomActivation.cs:97 | the end of the cooldown returns that loop to its test, keeping the number of loops, the probability, the budget and the trace |
| RandomInput.CooldownWakeUp | Scripts/Input/InputRandomActivation.cs:97 | the new state is the end of the cooldown |
| PresenceActivation.PresenceOn | Scripts/Output/OutputPresenceActivation.cs:47 | the component found is a presence output |
| PresenceActivation.PresenceActivationUpdate | Scripts/Output/OutputPresenceActivation.cs:31-34 | the collider is enabled exactly while the output is activated; nothing else changes |
| PresenceActivation.SpreadCases | Scripts/Output/OutputPresenceActivation.cs:44-52 | nothing happens at count >= max (even when unlimited) or with no acceptable target; otherwise the token is delivered and counted iff accepted |
| PresenceActivation.TargetMeaning | Scripts/Output/OutputPresenceActivation.cs:47-50 | a target is a different entity owning a presence output whose token is on the allow-list |
| PresenceActivation.SpreadFrame | Scripts/Output/OutputPresenceActivation.cs:44-52 | a spread changes only its own count (by at most one, from below max), direct-input counts and the trace |
| PresenceActivation.SpreadRespectsMax | Scripts/Output/OutputPresenceActivation.cs:46-51 | a count that starts at most max stays at most max |
| PresenceActivation.ContactGates | Scripts/Output/OutputPresenceActivationEnter.cs:19-22 | deactivated outputs ignore contacts; each variant ignores the other's callback and exits |
| PresenceActivation.SpreadStimulus | Scripts/Output/OutputPresenceActivation.cs:44-52 | the new state is the spread step |
| PresenceActivation.OnPresenceActivationContact | Scripts/Output/OutputPresenceActivationStay.cs:20-23 | the new state is the activated-gated callback dispatch |
| PresenceActivation.UpdatePresenceActivation | Scripts/Output/OutputPresenceActivation.cs:31-34 | the new state is the collider update |
| ColliderDisabling.Minimize | Scripts/Output/ColliderDisabler.cs:40-69 | minimizing never adds or removes colliders |
| ColliderDisabling.Chosen | Scripts/Output/ColliderDisabler.cs:76-92 | the collider restored is the first live saved reference in the order box, capsule, sphere, mesh |
| ColliderDisabling.Restore | Scripts/Output/ColliderDisabler.cs:74-94 | restoring never adds or removes colliders |
| ColliderDisabling.MinimizeRestoreRoundTrip | Scripts/Output/ColliderDisabler.cs:43-56 | box, capsule and mesh: minimize zeroes exactly that collider's dimensions, and restore gives every collider back |
| ColliderDisabling.SphereMinimizeFails | Scripts/Output/ColliderDisabler.cs:57-62 | as written, a sphere's radius is saved but no collider shrinks and the call does not complete when no capsule is saved |
| ColliderDisabling.MinimizeOtherShape | Scripts/Output/ColliderDisabler.cs:42-68 | minimizing any other collider type does nothing |
| ColliderDisabling.RestoreAtMostOne | Scripts/Output/ColliderDisabler.cs:76-92 | a restore changes at most the chosen collider, and no enabled flag |
| ColliderDisabling.RestoreWithNothingSaved | Scripts/Output/ColliderDisabler.cs:93-111 | after the clean-up nothing is saved, so a restore without a prior minimize changes nothing |
| PresenceOutput.AfterPresenceStart | Scripts/Output/OutputPresence.cs:36-39 | `Start` gives the output a clean disabler |
| PresenceOutput.TickFollowsActivated | Scripts/Output/OutputPresence.cs:65 | outside the shrink case, a tick only sets enabled to activated |
| PresenceOutput.TwoTickDisable | Scripts/Output/OutputPresence.cs:47-66 | deactivation disables a box, capsule or mesh collider in exactly two ticks (shrink, then restore and disable); later ticks change nothing |
| PresenceOutput.ReactivationEnables | Scripts/Output/OutputPresence.cs:65 | reactivation re-enables the collider in one tick without shrinking |
| PresenceOutput.ShrunkTick | Scripts/Output/OutputPresence.cs:49-65 | a shrunk collider is restored and disabled on the next deactivated tick; reactivated meanwhile, it stays enabled and minimized |
| PresenceOutput.SphereTick | Scripts/Output/OutputPresence.cs:49-56 | one tick of a deactivated sphere presence changes no collider and leaves it in the same state |
| PresenceOutput.SphereNeverDisabled | Scripts/Output/OutputPresence.cs:47-66 | as written, a sphere presence collider stays enabled at full size however many ticks pass |
| PresenceOutput.PresenceStart | Scripts/Output/OutputPresence.cs:36-39 | the new state is the `Start` step |
| PresenceOutput.PresenceFixedUpdate | Scripts/Output/OutputPresence.cs:47-66 | the new state is the tick step |
| EmitParticle.Startable | Scripts/Output/OutputEmitParticle.cs:77-79 | loops are started for at most as many indices as there are tokens and periods, and for all tokens when the counts match |
| EmitParticle.PairLoopsMeaning | Scripts/Output/OutputEmitParticle.cs:75-81 | exactly one loop per token index, pairing token i with period i |
| EmitParticle.AfterEmitDisable | Scripts/Output/OutputEmitParticle.cs:122-125 | `OnDisable` stops every loop |
| EmitParticle.EmitStartCases | Scripts/Output/OutputEmitParticle.cs:40-52 | when activated, a count mismatch logs an error and starts nothing; matching counts start one loop per token |
| EmitParticle.EmitUpdateEdge | Scripts/Output/OutputEmitParticle.cs:58-69 | loops restart exactly on a false-to-true change, without re-checking the counts |
| EmitParticle.EmitHeadExits | Scripts/Output/OutputEmitParticle.cs:94-96 | a test finding the output deactivated or exhausted ends the loop with no particle and no count |
| EmitParticle.EmitHeadEmits | Scripts/Output/OutputEmitParticle.cs:97-103 | one emission creates one particle with (owner entity, loop token), under the smell system, and counts exactly one |
| EmitParticle.OwnParticleIgnored | Scripts/Output/OutputEmitParticle.cs:99 | a particle just emitted names its emitter's entity as author, so a smell input of that entity ignores it and leaves it unconsumed, even when that entity is already destroyed |
| EmitParticle.EmitHeadWithoutSmellSystem | Scripts/Output/OutputEmitParticle.cs:97-100 | with no smell system instance the particle exists unparented, nothing is counted and the loop dies |
| EmitParticle.LoopsShareBudget | Scripts/Output/OutputEmitParticle.cs:96-102 | all loops share one count: with one activation left, the next loop after an emission ends without emitting |
| EmitParticle.EmitDisableStops | Scripts/Output/OutputEmitParticle.cs:122-125 | `OnDisable` stops the loops and changes neither budget nor particles |
| EmitParticle.StartAllParticlesEmitters | Scripts/Output/OutputEmitParticle.cs:75-81 | the loop adds one emission loop per index |
| EmitParticle.EmitStart | Scripts/Output/OutputEmitParticle.cs:40-52 | the new state is the `Start` step |
| EmitParticle.EmitUpdate | Scripts/Output/OutputEmitParticle.cs:58-69 | the new state is the edge-detection step |
| EmitParticle.EmitOnDisable | Scripts/Output/OutputEmitParticle.cs:122-125 | the new state has no loops |
| EmitParticle.Emission | Scripts/Output/OutputEmitParticle.cs:92-103 | the new state is one pass of the emission loop body |
| EmitParticle.SpawnParticle | Scripts/Output/OutputEmitParticle.cs:97-99 | the new state holds one new prefab instance, initialized with this output's entity and the loop's token |
| EmitParticle.SettleEmission | Scripts/Output/OutputEmitParticle.cs:100-103 | under a live smell system the particle is parented, one activation counted and the loop waits; otherwise the loop dies |
| EmitParticle.EmitWakeEffect | Scripts/Output/OutputEmitParticle.cs:103 | the end of a period returns that one loop, with its token and period, to its test; the other loops, the budget, the particles and the trace are unchanged |
| EmitParticle.EmitWakeUp | Scripts/Output/OutputEmitParticle.cs:103 | the new state is the end of the loop's wait |

## Left out

- Editor windows (entity, system and root editors, popups) are authoring tools and not part of this model. The empty-token filter of the vocabulary editor stays with its caller, and the ID filter of the system-creation dialog is not a precondition of `RootSystem.AddSystem`, which the root-creation command calls with "Smell".
- Handler bodies: `UnityEvent.Invoke` runs arbitrary user code. It is recorded as a trace entry and has no other effect. The probability-methods of the random input become a parameter: the probability they leave.
- Physics: overlap detection is not modelled. Enter, stay and exit are calls that name the other object, and `GetComponent` is the first matching component on it.
- Time and randomness are not modelled:
  - waits are separate wake events;
  - timer durations, `Random.Range` and spawn positions are not represented;
  - `Random.value` is a parameter.
- Coroutine scheduling: several loops of one component can be live at once, and their steps may interleave in any order. `StartCoroutine` runs a loop's first test at once; the model makes that test a separate step.
- Floating point: the probability is a `real`, so `Mathf.Min` and float rounding are exact. Collider dimensions and vectors are opaque values with a zero; particle movement and spawn positions are not modelled.
- Integer width: activation counts are unbounded integers; 32-bit overflow of `actualNumActivations` is not modelled.
- `Destroy` / `DestroyImmediate` of a duplicate root or smell system: destroying it is reported as a `duplicate` result and not carried out. A consumed particle is only marked as doomed. An entity's removal is the separate `OnDestroy` step.
- `RootSystem.Instance` is assumed present: the root registries are global fields of the world. A missing root instance, which would throw in `AddSystem` and the other static registrations, is not modelled.
- Unity's `==` on destroyed objects: a destroyed entity or collider is a handle missing from its map, and a reference to it reads as null wherever the source tests it against null. A particle's author keeps the emitter's entity handle even when that entity is already destroyed, so the comparison with a smell input's owner is by identity, as Unity compares two non-null references.
- Debug output: messages printed only when `debug` is on are not modelled, nor the informational log of `BroadcastStimulus`. Exceptions Unity logs are not logged in the model either: the sphere branch, and an emitter without a smell system.
- Entity bookkeeping lists: the per-type component lists an entity keeps for the editor (`outputsPresence`, `inputsVision`, …) are not modelled. Only the direct-input reference is kept.
- Particles: the collider radius, the lifetime and the gizmo drawing are not modelled. The particle prefab is a component field holding its direction.
- Delivery.Rebroadcast: a rebroadcast chain is cut once `hops` nested rebroadcasts have happened, where the source would recurse until its stack overflows. Because the count rises after the rebroadcast returns, a cut cycle back to the same limited input lets every level count, so its count can pass the maximum; the "never exceeds max" bound (`Delivery.EvaluateDirectPlain`) is stated only for inputs without rebroadcast.
- Delivery.Broadcast: a broadcast output whose `Awake` has not yet run (`Pending`) sends nothing. The source throws a `NullReferenceException` there, because `isSystem` starts true and `actualSystem` is still null.
- Delivery.EvaluateDirect: with rebroadcast and a broadcast output whose `Awake` has not run, the source throws out of `EvaluateStimulus`. The handler does not fire, the count does not rise, and any fan-out or send that led to this call stops with it. The model sends nothing, then fires the handler and counts, as `Delivery.PendingRebroadcastSkipped` states.
- Delivery.EvaluateStimulus: inherits the same gap from `Delivery.EvaluateDirect`, whose state and answer it reproduces.
- DirectOutput.SendStimulus: a negative index passes the source's length tests and throws at the list indexer; the model answers false with no effect, following the rule for throws before any write, and the throw itself is not modelled.
- StimulusRegistry.StimulusManager.Value: an out-of-range index throws at the list indexer in the source; the model requires the index to be in range and does not model the throw.
- ColliderDisabling.Minimize: the mesh branch zeroes the `transform.localScale` of the game object, which shrinks every collider and renderer on it; the model zeroes only the mesh collider it was given.
- ColliderDisabling.Minimize: the disabler is a value inside its presence output, not a separate heap object. Each presence output creates its own, so there is no aliasing to lose.
- PresenceOutput.PresenceTick: a `FixedUpdate` before `Start` would find no disabler and throw. Here the disabler always exists.
- PresenceActivation.Spread: only the source's count test gates the send. The stack overflow of a rebroadcast cycle is bounded by `hops`, as in `Delivery.Rebroadcast`.

/**
 * The root system's global registries: every unit (`allUnits`), every system
 * (`allSystems`), a dictionary from system ID to system that mirrors `allSystems`,
 * and a write-once slot for the smell system.
 */
module RootRegistry {
  import opened Wrappers
  import opened Lists
  import opened World
  import opened SystemNode

  /** The ID of a registered system. */
  function IdOf(w: World, s: Handle): string
    requires s in w.entities
  {
    w.entities[s].systemId
  }

  /** Every entry of `ss` is a live entity. */
  predicate AllLive(w: World, ss: seq<Handle>) {
    forall s :: s in ss ==> s in w.entities
  }

  /** No two entries of `ss` carry the same system ID. */
  predicate DistinctIds(w: World, ss: seq<Handle>)
    requires AllLive(w, ss)
  {
    forall i, j :: 0 <= i < j < |ss| ==> IdOf(w, ss[i]) != IdOf(w, ss[j])
  }

  /**
   * The registry invariant: `allSystems` holds live systems without repetition, and
   * the dictionary maps exactly their IDs, each ID to the system that carries it.
   */
  predicate Mirrors(w: World) {
    && AllLive(w, w.allSystems)
    && NoDuplicates(w.allSystems)
    && (forall s :: s in w.allSystems ==> IdOf(w, s) in w.systemDictionary && w.systemDictionary[IdOf(w, s)] == s)
    && (forall id :: id in w.systemDictionary ==> w.systemDictionary[id] in w.allSystems && IdOf(w, w.systemDictionary[id]) == id)
  }

  /** Under the mirror invariant no two registered systems share an ID. */
  lemma MirrorsDistinctIds(w: World)
    requires Mirrors(w)
    ensures DistinctIds(w, w.allSystems)
  {
    forall i, j | 0 <= i < j < |w.allSystems| ensures IdOf(w, w.allSystems[i]) != IdOf(w, w.allSystems[j]) {
      assert w.allSystems[i] != w.allSystems[j];
    }
  }

  /**
   * The mirror invariant only depends on the registries and on the IDs of the
   * registered systems: a change elsewhere (a child list, an unregistered entity)
   * keeps it.
   */
  lemma MirrorsFrame(w: World, w': World)
    requires Mirrors(w)
    requires w'.allSystems == w.allSystems && w'.systemDictionary == w.systemDictionary
    requires forall s :: s in w.allSystems ==> s in w'.entities && w'.entities[s].systemId == w.entities[s].systemId
    ensures Mirrors(w')
  {
    forall id | id in w'.systemDictionary
      ensures w'.systemDictionary[id] in w'.allSystems && IdOf(w', w'.systemDictionary[id]) == id
    {
      assert w.systemDictionary[id] in w.allSystems;
    }
  }

  /**
   * `AddSystem`: the system is appended to `allSystems`, then its ID is added to the
   * dictionary. `Dictionary.Add` throws on a key already in use; the append made
   * before it stays and the dictionary keeps its earlier entry.
   */
  function AfterAddSystem(w: World, s: Handle): World
    requires s in w.entities
  {
    if IdOf(w, s) in w.systemDictionary then w.(allSystems := w.allSystems + [s])
    else w.(allSystems := w.allSystems + [s], systemDictionary := w.systemDictionary[IdOf(w, s) := s])
  }

  function AfterEraseSystem(w: World, s: Handle): World
    requires s in w.entities
  {
    w.(allSystems := Remove(w.allSystems, s), systemDictionary := w.systemDictionary - {IdOf(w, s)})
  }

  function AfterAddUnit(w: World, u: Handle): World {
    w.(allUnits := w.allUnits + [u])
  }

  function AfterEraseUnit(w: World, u: Handle): World {
    w.(allUnits := Remove(w.allUnits, u))
  }

  /** `isKeyUsed`: whether the dictionary holds the key. */
  function IsKeyUsed(w: World, key: string): (used: bool)
    ensures used <==> exists k :: k in w.systemDictionary && k == key
  {
    key in w.systemDictionary
  }

  /** `getSystem`: the system registered under `key`, or null. */
  function GetSystem(w: World, key: string): (r: Option<Handle>)
    ensures r.None? <==> !IsKeyUsed(w, key)
    ensures r.Some? ==> key in w.systemDictionary && w.systemDictionary[key] == r.value
  {
    if key in w.systemDictionary then Some(w.systemDictionary[key]) else None
  }

  /** After `AddSystem(s)` the ID is in use and resolves to `s`; the unit list is untouched. */
  lemma AddSystemRegisters(w: World, s: Handle)
    requires s in w.entities && IdOf(w, s) !in w.systemDictionary
    ensures IsKeyUsed(AfterAddSystem(w, s), IdOf(w, s))
    ensures GetSystem(AfterAddSystem(w, s), IdOf(w, s)) == Some(s)
    ensures AfterAddSystem(w, s).allSystems == w.allSystems + [s]
    ensures AfterAddSystem(w, s).allUnits == w.allUnits
  {
  }

  /** After `EraseSystem(s)` its ID is no longer in use. */
  lemma EraseSystemUnregisters(w: World, s: Handle)
    requires s in w.entities
    ensures !IsKeyUsed(AfterEraseSystem(w, s), IdOf(w, s))
    ensures GetSystem(AfterEraseSystem(w, s), IdOf(w, s)) == None
    ensures AfterEraseSystem(w, s).allUnits == w.allUnits
  {
  }

  /** Unit registration leaves the system list and the dictionary alone. */
  lemma UnitRegistrationIsSeparate(w: World, u: Handle)
    ensures AfterAddUnit(w, u).allSystems == w.allSystems
    ensures AfterAddUnit(w, u).systemDictionary == w.systemDictionary
    ensures AfterEraseUnit(w, u).allSystems == w.allSystems
    ensures AfterEraseUnit(w, u).systemDictionary == w.systemDictionary
    ensures u !in w.allUnits ==> AfterEraseUnit(AfterAddUnit(w, u), u) == w
  {
    if u !in w.allUnits { RemoveAfterAppend(w.allUnits, u); }
  }

  /** With an unused ID, `AddSystem` keeps the dictionary an exact mirror of `allSystems`. */
  lemma AddSystemKeepsMirror(w: World, s: Handle)
    requires Mirrors(w) && s in w.entities && IdOf(w, s) !in w.systemDictionary
    ensures Mirrors(AfterAddSystem(w, s))
  {
    assert s !in w.allSystems;
    var w' := AfterAddSystem(w, s);
    assert IdOf(w', s) == IdOf(w, s);
    forall t | t in w.allSystems ensures IdOf(w, t) != IdOf(w, s) {
      assert IdOf(w, t) in w.systemDictionary;
    }
    assert NoDuplicates(w'.allSystems) by {
      forall i, j | 0 <= i < j < |w'.allSystems| ensures w'.allSystems[i] != w'.allSystems[j] {
        if j == |w.allSystems| { assert w'.allSystems[i] in w.allSystems; }
      }
    }
    forall id | id in w'.systemDictionary
      ensures w'.systemDictionary[id] in w'.allSystems && IdOf(w', w'.systemDictionary[id]) == id
    {
      if id != IdOf(w, s) { assert w'.systemDictionary[id] == w.systemDictionary[id]; }
    }
  }

  /**
   * `EraseSystem` keeps the dictionary an exact mirror of `allSystems`, provided the
   * erased system is registered or its ID is not in use by another system.
   */
  lemma EraseSystemKeepsMirror(w: World, s: Handle)
    requires Mirrors(w) && s in w.entities
    requires s in w.allSystems || IdOf(w, s) !in w.systemDictionary
    ensures Mirrors(AfterEraseSystem(w, s))
  {
    var w' := AfterEraseSystem(w, s);
    RemoveNoDuplicates(w.allSystems, s);
    forall t | t in w'.allSystems ensures t in w.allSystems && t != s {
      if t != s { RemoveMembership(w.allSystems, s, t); }
    }
    forall t | t in w'.allSystems ensures IdOf(w', t) in w'.systemDictionary && w'.systemDictionary[IdOf(w', t)] == t {
      assert w.systemDictionary[IdOf(w, t)] == t;
    }
    forall id | id in w'.systemDictionary ensures w'.systemDictionary[id] in w'.allSystems {
      var t := w.systemDictionary[id];
      assert IdOf(w, t) == id;
      RemoveMembership(w.allSystems, s, t);
    }
  }

  /** The outcome of the rebuild loop: the dictionary it leaves, and whether it ran to the end. */
  datatype Rebuilt = Rebuilt(dict: map<string, Handle>, complete: bool)

  /**
   * The dictionary `Awake` builds from the systems in `ss`, adding them in order
   * (`Dictionary.Add` for each). The first repeated ID throws: the entries added so
   * far stay, no later system is added, and the rebuild is not complete.
   */
  function Rebuild(w: World, ss: seq<Handle>): Rebuilt
    requires AllLive(w, ss)
  {
    if ss == [] then Rebuilt(map[], true)
    else
      var r := Rebuild(w, ss[..|ss| - 1]);
      var last := ss[|ss| - 1];
      if !r.complete || IdOf(w, last) in r.dict then Rebuilt(r.dict, false)
      else Rebuilt(r.dict[IdOf(w, last) := last], true)
  }

  /**
   * With distinct IDs the rebuild completes and has one entry per system: its keys are
   * exactly the systems' IDs and each ID maps to its own system.
   */
  lemma {:induction false} BuildDictionaryExact(w: World, ss: seq<Handle>)
    requires AllLive(w, ss) && DistinctIds(w, ss)
    ensures Rebuild(w, ss).complete
    ensures forall s :: s in ss ==> IdOf(w, s) in Rebuild(w, ss).dict && Rebuild(w, ss).dict[IdOf(w, s)] == s
    ensures forall id :: id in Rebuild(w, ss).dict ==> Rebuild(w, ss).dict[id] in ss && IdOf(w, Rebuild(w, ss).dict[id]) == id
    ensures |Rebuild(w, ss).dict| == |ss|
  {
    if ss != [] {
      var init := ss[..|ss| - 1];
      var last := ss[|ss| - 1];
      assert AllLive(w, init) && DistinctIds(w, init);
      BuildDictionaryExact(w, init);
      forall t | t in init ensures IdOf(w, t) != IdOf(w, last) {
        var i :| 0 <= i < |init| && init[i] == t;
        assert IdOf(w, ss[i]) != IdOf(w, ss[|ss| - 1]);
      }
      assert IdOf(w, last) !in Rebuild(w, init).dict;
      forall s | s in ss ensures IdOf(w, s) in Rebuild(w, ss).dict && Rebuild(w, ss).dict[IdOf(w, s)] == s {
        if s != last {
          assert s in init;
        }
      }
    }
  }

  /** Once the rebuild has thrown, the systems after that point change nothing. */
  lemma {:induction false} RebuildStuck(w: World, ss: seq<Handle>, k: nat)
    requires AllLive(w, ss) && k <= |ss| && AllLive(w, ss[..k])
    requires !Rebuild(w, ss[..k]).complete
    ensures Rebuild(w, ss) == Rebuild(w, ss[..k])
    decreases |ss|
  {
    if k < |ss| {
      var init := ss[..|ss| - 1];
      assert init[..k] == ss[..k];
      assert AllLive(w, init);
      RebuildStuck(w, init, k);
    } else {
      assert ss[..k] == ss;
    }
  }

  /**
   * At the first repeated ID the rebuild throws: the ID keeps the system added first,
   * and neither the repeating system nor any later one is added.
   */
  lemma RebuildKeepsFirst(w: World, ss: seq<Handle>, j: nat, k: nat)
    requires AllLive(w, ss) && j < k < |ss| && AllLive(w, ss[..k])
    requires DistinctIds(w, ss[..k]) && IdOf(w, ss[j]) == IdOf(w, ss[k])
    ensures !Rebuild(w, ss).complete
    ensures Rebuild(w, ss).dict == Rebuild(w, ss[..k]).dict
    ensures IdOf(w, ss[k]) in Rebuild(w, ss).dict && Rebuild(w, ss).dict[IdOf(w, ss[k])] == ss[j]
    ensures |Rebuild(w, ss).dict| == k
  {
    var prefix := ss[..k];
    var d := Rebuild(w, prefix).dict;
    BuildDictionaryExact(w, prefix);
    assert prefix[j] == ss[j];
    assert IdOf(w, ss[j]) in d && d[IdOf(w, ss[j])] == ss[j];
    var p := ss[..k + 1];
    assert p[..|p| - 1] == prefix && p[|p| - 1] == ss[k];
    assert AllLive(w, p);
    assert Rebuild(w, p) == Rebuilt(d, false);
    RebuildStuck(w, ss, k + 1);
  }


  /** With distinct IDs, the ID of the `k`-th system is absent from the dictionary built before it. */
  lemma BuildDictionaryFresh(w: World, ss: seq<Handle>, k: nat)
    requires AllLive(w, ss) && DistinctIds(w, ss) && k < |ss|
    ensures AllLive(w, ss[..k])
    ensures IdOf(w, ss[k]) !in Rebuild(w, ss[..k]).dict
  {
    var prefix := ss[..k];
    assert DistinctIds(w, prefix);
    BuildDictionaryExact(w, prefix);
    forall t | t in prefix ensures IdOf(w, t) != IdOf(w, ss[k]) {
      var j :| 0 <= j < k && prefix[j] == t;
      assert IdOf(w, ss[j]) != IdOf(w, ss[k]);
    }
  }

  /** A dictionary built from `allSystems` restores the mirror invariant. */
  lemma RebuildMirrors(w: World)
    requires AllLive(w, w.allSystems) && DistinctIds(w, w.allSystems)
    ensures Mirrors(w.(systemDictionary := Rebuild(w, w.allSystems).dict))
  {
    BuildDictionaryExact(w, w.allSystems);
  }

  /** The singleton instance is set and alive. */
  predicate InstanceAlive(w: World, r: Option<Handle>) {
    r.Some? && r.value in w.entities
  }

  /**
   * `Awake` of root `r`: its ID becomes "Root"; it becomes the instance unless a
   * different live instance exists (then `duplicate` holds and the object is due for
   * destruction); and an empty dictionary is rebuilt from `allSystems`, up to the first
   * repeated ID.
   */
  function AfterRootAwake(w: World, r: Handle): (w': World)
    requires r in w.entities && AllLive(w, w.allSystems)
  {
    var w1 := w.(entities := w.entities[r := w.entities[r].(systemId := "Root")]);
    var w2 := if InstanceAlive(w, w.rootInstance) && w.rootInstance.value != r then w1 else w1.(rootInstance := Some(r));
    if |w2.systemDictionary| == 0 then w2.(systemDictionary := Rebuild(w2, w2.allSystems).dict) else w2
  }

  /** Whether `Awake` of `r` finds another live root instance. */
  predicate RootDuplicate(w: World, r: Handle) {
    InstanceAlive(w, w.rootInstance) && w.rootInstance.value != r
  }

  /** After `Awake` with an empty dictionary and distinct IDs, the dictionary mirrors `allSystems`. */
  lemma RootAwakeMirrors(w: World, r: Handle)
    requires r in w.entities && r !in w.allSystems
    requires AllLive(w, w.allSystems) && NoDuplicates(w.allSystems) && DistinctIds(w, w.allSystems)
    requires |w.systemDictionary| == 0
    ensures Mirrors(AfterRootAwake(w, r))
    ensures AfterRootAwake(w, r).entities[r].systemId == "Root"
    ensures !RootDuplicate(w, r) ==> AfterRootAwake(w, r).rootInstance == Some(r)
    ensures RootDuplicate(w, r) ==> AfterRootAwake(w, r).rootInstance == w.rootInstance
  {
    var w1 := w.(entities := w.entities[r := w.entities[r].(systemId := "Root")]);
    forall s | s in w.allSystems ensures IdOf(w1, s) == IdOf(w, s) { }
    assert DistinctIds(w1, w1.allSystems);
    var w2 := if RootDuplicate(w, r) then w1 else w1.(rootInstance := Some(r));
    assert forall s :: s in w.allSystems ==> IdOf(w2, s) == IdOf(w, s);
    RebuildMirrors(w2);
  }

  /**
   * After `Awake` with an empty dictionary, when systems `j < k` are the first to share
   * an ID, that ID resolves to system `j` and only the `k` systems before the repeat
   * are in the dictionary.
   */
  lemma RootAwakeRepeatedId(w: World, r: Handle, j: nat, k: nat)
    requires r in w.entities && r !in w.allSystems && AllLive(w, w.allSystems)
    requires |w.systemDictionary| == 0 && j < k < |w.allSystems|
    requires AllLive(w, w.allSystems[..k]) && DistinctIds(w, w.allSystems[..k])
    requires IdOf(w, w.allSystems[j]) == IdOf(w, w.allSystems[k])
    ensures var w' := AfterRootAwake(w, r);
      && IdOf(w, w.allSystems[k]) in w'.systemDictionary
      && w'.systemDictionary[IdOf(w, w.allSystems[k])] == w.allSystems[j]
      && |w'.systemDictionary| == k
  {
    var ss := w.allSystems;
    var w1 := w.(entities := w.entities[r := w.entities[r].(systemId := "Root")]);
    var w2 := if RootDuplicate(w, r) then w1 else w1.(rootInstance := Some(r));
    assert forall s :: s in ss ==> IdOf(w2, s) == IdOf(w, s);
    assert forall s :: s in ss[..k] ==> s in ss;
    assert DistinctIds(w2, ss[..k]);
    RebuildKeepsFirst(w2, ss, j, k);
  }

  /** `UpdateInstance` (editor-time): claim the singleton slot if it is empty. */
  function AfterUpdateInstance(w: World, r: Handle): World
    requires r in w.entities
  {
    if !InstanceAlive(w, w.rootInstance)
    then w.(rootInstance := Some(r), entities := w.entities[r := w.entities[r].(systemId := "Root")])
    else w
  }

  /**
   * `UpdateInstance` leaves a live instance recorded: `r`, named "Root", when the slot
   * was empty or held a destroyed root, and the earlier one otherwise; a second call,
   * from any root, then changes nothing.
   */
  lemma UpdateInstanceClaims(w: World, r: Handle, r2: Handle)
    requires r in w.entities && r2 in w.entities
    ensures InstanceAlive(AfterUpdateInstance(w, r), AfterUpdateInstance(w, r).rootInstance)
    ensures !InstanceAlive(w, w.rootInstance) ==>
      AfterUpdateInstance(w, r).rootInstance == Some(r) && IdOf(AfterUpdateInstance(w, r), r) == "Root"
    ensures InstanceAlive(w, w.rootInstance) ==> AfterUpdateInstance(w, r) == w
    ensures AfterUpdateInstance(AfterUpdateInstance(w, r), r2) == AfterUpdateInstance(w, r)
  {
  }

  /** The `SmellSystem` setter: assigns only while no live smell system is recorded. */
  function AfterSetSmellSystem(w: World, s: Option<Handle>): (w': World)
    ensures Live(w, w.smellSystem) ==> w' == w
    ensures !Live(w, w.smellSystem) ==> w'.smellSystem == s
    ensures w'.(smellSystem := w.smellSystem) == w
  {
    if Live(w, w.smellSystem) then w else w.(smellSystem := s)
  }

  /**
   * With an ID already in use, `AddSystem` fails: the ID keeps resolving to the system
   * registered before, the system is listed anyway, and the mirror invariant is lost.
   */
  lemma AddSystemDuplicateKey(w: World, s: Handle)
    requires s in w.entities && IdOf(w, s) in w.systemDictionary
    ensures AfterAddSystem(w, s).systemDictionary == w.systemDictionary
    ensures GetSystem(AfterAddSystem(w, s), IdOf(w, s)) == GetSystem(w, IdOf(w, s))
    ensures AfterAddSystem(w, s).allSystems == w.allSystems + [s]
    ensures Mirrors(w) ==> !Mirrors(AfterAddSystem(w, s))
  {
    var w' := AfterAddSystem(w, s);
    if Mirrors(w) {
      var t := w.systemDictionary[IdOf(w, s)];
      if s in w.allSystems {
        var i := IndexOf(w.allSystems, s);
        assert w'.allSystems[i] == w'.allSystems[|w.allSystems|];
      } else {
        assert t in w.allSystems && t != s;
        assert s in w'.allSystems && w'.systemDictionary[IdOf(w', s)] != s;
      }
    }
  }

  /** The slot is write-once: a second assignment after a live one changes nothing. */
  lemma SmellSystemWriteOnce(w: World, s: Handle, t: Option<Handle>)
    requires s in w.entities && !Live(w, w.smellSystem)
    ensures AfterSetSmellSystem(AfterSetSmellSystem(w, Some(s)), t) == AfterSetSmellSystem(w, Some(s))
  {
  }

  /** `AddSystem`; `ok` is false when `Dictionary.Add` meets an ID already in use. */
  method AddSystem(e: Engine, s: Handle) returns (ok: bool)
    requires s in e.entities
    modifies e
    ensures ok <==> IdOf(old(e.State()), s) !in old(e.systemDictionary)
    ensures e.State() == AfterAddSystem(old(e.State()), s)
  {
    e.allSystems := e.allSystems + [s];
    ok := e.entities[s].systemId !in e.systemDictionary;
    if ok {
      e.systemDictionary := e.systemDictionary[e.entities[s].systemId := s];
    }
  }

  /** `EraseSystem`. */
  method EraseSystem(e: Engine, s: Handle)
    requires s in e.entities
    modifies e
    ensures e.State() == AfterEraseSystem(old(e.State()), s)
  {
    e.allSystems := Remove(e.allSystems, s);
    e.systemDictionary := e.systemDictionary - {e.entities[s].systemId};
  }

  /** `AddUnit`. */
  method AddUnit(e: Engine, u: Handle)
    modifies e
    ensures e.State() == AfterAddUnit(old(e.State()), u)
  {
    e.allUnits := e.allUnits + [u];
  }

  /** `EraseUnit`. */
  method EraseUnit(e: Engine, u: Handle)
    modifies e
    ensures e.State() == AfterEraseUnit(old(e.State()), u)
  {
    e.allUnits := Remove(e.allUnits, u);
  }

  /** `isKeyUsed`. */
  method IsKeyUsedQuery(e: Engine, key: string) returns (used: bool)
    ensures used <==> key in e.systemDictionary
  {
    used := key in e.systemDictionary;
  }

  /** `getSystem`: the registered system, or null for an unknown ID. */
  method GetSystemQuery(e: Engine, key: string) returns (r: Option<Handle>)
    ensures r.None? <==> key !in e.systemDictionary
    ensures r.Some? ==> e.systemDictionary[key] == r.value
  {
    if key in e.systemDictionary {
      r := Some(e.systemDictionary[key]);
    } else {
      r := None;
    }
  }

  /** The `SmellSystem` setter. */
  method SetSmellSystem(e: Engine, s: Option<Handle>)
    modifies e
    ensures e.State() == AfterSetSmellSystem(old(e.State()), s)
  {
    if !(e.smellSystem.Some? && e.smellSystem.value in e.entities) {
      e.smellSystem := s;
    }
  }

  /**
   * The rebuild loop of `Awake`: `Dictionary.Add` of every system of `allSystems` in
   * turn, stopping at the first repeated ID, where `Add` throws.
   */
  method RebuildDictionary(w: World) returns (d: map<string, Handle>, complete: bool)
    requires AllLive(w, w.allSystems)
    ensures Rebuilt(d, complete) == Rebuild(w, w.allSystems)
  {
    var ss := w.allSystems;
    d := map[];
    complete := true;
    var i := 0;
    while i < |ss| && complete
      invariant 0 <= i <= |ss|
      invariant AllLive(w, ss[..i])
      invariant Rebuilt(d, complete) == Rebuild(w, ss[..i])
      invariant !complete ==> Rebuild(w, ss) == Rebuild(w, ss[..i])
    {
      var s := ss[i];
      assert ss[..i + 1][..i] == ss[..i];
      assert AllLive(w, ss[..i + 1]);
      if IdOf(w, s) in d {
        complete := false;
        RebuildStuck(w, ss, i + 1);
      } else {
        d := d[IdOf(w, s) := s];
      }
      i := i + 1;
    }
    if complete {
      assert ss[..i] == ss;
    }
  }

  /**
   * `Awake` of root `r`, with the dictionary rebuild loop. `duplicate` reports that a
   * different live root is already the instance, so this one is due for destruction.
   */
  method RootAwake(e: Engine, r: Handle) returns (duplicate: bool)
    requires r in e.entities && r !in e.allSystems
    requires AllLive(e.State(), e.allSystems)
    modifies e
    ensures duplicate == RootDuplicate(old(e.State()), r)
    ensures e.State() == AfterRootAwake(old(e.State()), r)
  {
    e.entities := e.entities[r := e.entities[r].(systemId := "Root")];
    duplicate := e.rootInstance.Some? && e.rootInstance.value in e.entities && e.rootInstance.value != r;
    if !duplicate {
      e.rootInstance := Some(r);
    }
    if |e.systemDictionary| == 0 {
      var d, _ := RebuildDictionary(e.State());
      e.systemDictionary := d;
    }
  }

  /** `UpdateInstance`; `duplicate` reports that this object is due for immediate destruction. */
  method UpdateInstance(e: Engine, r: Handle) returns (duplicate: bool)
    requires r in e.entities
    modifies e
    ensures duplicate == RootDuplicate(old(e.State()), r)
    ensures e.State() == AfterUpdateInstance(old(e.State()), r)
  {
    duplicate := false;
    if !(e.rootInstance.Some? && e.rootInstance.value in e.entities) {
      e.rootInstance := Some(r);
      e.entities := e.entities[r := e.entities[r].(systemId := "Root")];
    } else if e.rootInstance.value != r {
      duplicate := true;
    }
  }

  /**
   * `GetAllSystemsNameList`: the root's name followed by the names of the systems in
   * `allSystems`, in order.
   */
  method GetAllSystemsNameList(e: Engine, r: Handle) returns (names: seq<string>)
    requires r in e.entities && AllLive(e.State(), e.allSystems)
    ensures |names| == 1 + |e.allSystems|
    ensures names[0] == e.entities[r].name
    ensures forall i :: 0 <= i < |e.allSystems| ==> names[i + 1] == e.entities[e.allSystems[i]].name
  {
    names := [e.entities[r].name];
    for i := 0 to |e.allSystems|
      invariant |names| == 1 + i
      invariant names[0] == e.entities[r].name
      invariant forall k :: 0 <= k < i ==> names[k + 1] == e.entities[e.allSystems[k]].name
    {
      names := names + [e.entities[e.allSystems[i]].name];
    }
  }
}

/**
 * A unit: a leaf entity. On `Awake` it finds its parent system by key when none is
 * set, joins that system's children, and registers with the root; on `OnDestroy` it
 * leaves its parent's children and the root's unit list.
 */
module UnitNode {
  import opened Wrappers
  import opened Lists
  import opened World
  import opened SystemNode
  import opened RootRegistry

  /** The entity's parent, when live, is a system (the field's declared type). */
  predicate ParentIsSystem(w: World, x: Handle) {
    x in w.entities && (Live(w, w.entities[x].parent) ==> w.entities[w.entities[x].parent.value].IsSystem())
  }

  /** Every live system the dictionary names is a system (the dictionary's declared type). */
  predicate DictionaryTyped(w: World) {
    forall id :: id in w.systemDictionary && w.systemDictionary[id] in w.entities ==> w.entities[w.systemDictionary[id]].IsSystem()
  }

  /** A live unit whose typed fields hold systems. */
  predicate AwakeReady(w: World, u: Handle) {
    u in w.entities && w.entities[u].kind == UnitKind && ParentIsSystem(w, u) && DictionaryTyped(w)
  }

  /** Register `u` in the root's unit list unless it is already there. */
  function RegisterUnit(w: World, u: Handle): (w': World)
    ensures u in w'.allUnits
    ensures (NoDuplicates(w.allUnits) ==> NoDuplicates(w'.allUnits))
    ensures w'.entities == w.entities && w'.systemDictionary == w.systemDictionary
  {
    if u in w.allUnits then w else AfterAddUnit(w, u)
  }

  /** The parent `Awake` would look up by key, when the unit has no live parent yet. */
  function KeyedParent(w: World, u: Handle): Option<Handle>
    requires u in w.entities
  {
    GetSystem(w, w.entities[u].parentSystemKey)
  }

  /**
   * `Awake`: with no live parent, resolve the key (an unresolved key ends the call with
   * nothing changed), set the parent and join its children unless already there; then
   * register with the root unless already registered.
   */
  function AfterUnitAwake(w: World, u: Handle): World
    requires AwakeReady(w, u)
  {
    var ent := w.entities[u];
    if Live(w, ent.parent) then RegisterUnit(w, u)
    else
      var p := KeyedParent(w, u);
      if !Live(w, p) then w
      else
        RegisterUnit(AdoptParent(w, u, p.value), u)
  }

  /** Set `p` as the parent of `u` and join its children unless already there. */
  function AdoptParent(w: World, u: Handle, p: Handle): (w': World)
    requires u in w.entities && p in w.entities && p != u && w.entities[p].IsSystem()
    ensures w'.entities.Keys == w.entities.Keys
    ensures forall x :: x in w.entities ==> w'.entities[x].kind == w.entities[x].kind
    ensures w'.entities[u].parent == Some(p) && u in w'.entities[p].children
    ensures w'.systemDictionary == w.systemDictionary && w'.allUnits == w.allUnits && w'.allSystems == w.allSystems
  {
    var w1 := w.(entities := w.entities[u := w.entities[u].(parent := Some(p))]);
    if u in w1.entities[p].children then w1
    else
      AddEntityAppends(w1, p, u);
      AfterAddEntity(w1, p, u)
  }

  /**
   * After `Awake` either the key did not resolve and nothing changed, or the unit has a
   * live parent and the root lists the unit (once, when the list had no repeats). A
   * parent already set is kept and no child list changes; a parent found by key is set
   * and lists the unit among its children.
   */
  lemma UnitAwakeEffect(w: World, u: Handle)
    requires AwakeReady(w, u)
    ensures var w' := AfterUnitAwake(w, u);
      || (w' == w && !Live(w, w.entities[u].parent) && !Live(w, KeyedParent(w, u)))
      || (&& u in w'.entities && Live(w', w'.entities[u].parent)
          && u in w'.allUnits
          && (NoDuplicates(w.allUnits) ==> NoDuplicates(w'.allUnits))
          && w'.entities.Keys == w.entities.Keys)
    ensures !Live(w, w.entities[u].parent) && Live(w, KeyedParent(w, u)) ==>
      var p := KeyedParent(w, u).value;
      AfterUnitAwake(w, u).entities[u].parent == Some(p) && u in AfterUnitAwake(w, u).entities[p].children
    ensures Live(w, w.entities[u].parent) ==>
      AfterUnitAwake(w, u).entities == w.entities && u in AfterUnitAwake(w, u).allUnits
    ensures !Live(w, w.entities[u].parent) && !Live(w, KeyedParent(w, u)) ==> AfterUnitAwake(w, u) == w
  {
  }

  /** `Awake` keeps every entity's kind and the dictionary, so the typing facts survive it. */
  lemma UnitAwakeKeepsKinds(w: World, u: Handle)
    requires AwakeReady(w, u)
    ensures AfterUnitAwake(w, u).entities.Keys == w.entities.Keys
    ensures forall x :: x in w.entities ==> AfterUnitAwake(w, u).entities[x].kind == w.entities[x].kind
    ensures AfterUnitAwake(w, u).systemDictionary == w.systemDictionary
  {
  }

  /** `Awake` is idempotent: a second run finds the parent set and the unit registered. */
  lemma UnitAwakeIdempotent(w: World, u: Handle)
    requires AwakeReady(w, u)
    ensures AwakeReady(AfterUnitAwake(w, u), u)
    ensures AfterUnitAwake(AfterUnitAwake(w, u), u) == AfterUnitAwake(w, u)
  {
    var w' := AfterUnitAwake(w, u);
    UnitAwakeEffect(w, u);
    UnitAwakeKeepsKinds(w, u);
    if w' != w {
      var p := w'.entities[u].parent.value;
      assert w'.entities[p].IsSystem() by {
        if Live(w, w.entities[u].parent) {
          assert w'.entities[u].parent == w.entities[u].parent;
        } else {
          assert Live(w, KeyedParent(w, u));
        }
      }
    }
  }

  /** `OnDestroy` of a unit: leave the parent's children, then the root's unit list. */
  function AfterUnitOnDestroy(w: World, u: Handle): World
    requires ParentIsSystem(w, u)
  {
    var parent := w.entities[u].parent;
    var w1 := if Live(w, parent) then AfterEraseEntity(w, parent.value, u) else w;
    AfterEraseUnit(w1, u)
  }

  /**
   * A unit that was listed once is no longer a child of its parent nor a registered
   * unit after `OnDestroy`; everybody else stays where they were.
   */
  lemma UnitOnDestroyEffect(w: World, u: Handle, v: Handle)
    requires ParentIsSystem(w, u) && NoDuplicates(w.allUnits) && v != u
    ensures u !in AfterUnitOnDestroy(w, u).allUnits
    ensures v in AfterUnitOnDestroy(w, u).allUnits <==> v in w.allUnits
    ensures Live(w, w.entities[u].parent) && NoDuplicates(w.entities[w.entities[u].parent.value].children) ==>
      u !in AfterUnitOnDestroy(w, u).entities[w.entities[u].parent.value].children
    ensures AfterUnitOnDestroy(w, u).allSystems == w.allSystems
  {
    RemoveNoDuplicates(w.allUnits, u);
    RemoveMembership(w.allUnits, u, v);
    var parent := w.entities[u].parent;
    if Live(w, parent) && NoDuplicates(w.entities[parent.value].children) {
      RemoveNoDuplicates(w.entities[parent.value].children, u);
    }
  }

  /** `Awake`. */
  method UnitAwake(e: Engine, u: Handle)
    requires AwakeReady(e.State(), u)
    modifies e
    ensures e.State() == AfterUnitAwake(old(e.State()), u)
  {
    var ent := e.entities[u];
    if !(ent.parent.Some? && ent.parent.value in e.entities) {
      var p := GetSystemQuery(e, ent.parentSystemKey);
      if !(p.Some? && p.value in e.entities) {
        return;
      }
      e.entities := e.entities[u := ent.(parent := p)];
      if u !in e.entities[p.value].children {
        AddEntity(e, p.value, u);
      }
      assert e.State() == AdoptParent(old(e.State()), u, p.value);
    }
    if u !in e.allUnits {
      AddUnit(e, u);
    }
  }

  /** `OnDestroy` of a unit. */
  method UnitOnDestroy(e: Engine, u: Handle)
    requires ParentIsSystem(e.State(), u)
    modifies e
    ensures e.State() == AfterUnitOnDestroy(old(e.State()), u)
  {
    var parent := e.entities[u].parent;
    if parent.Some? && parent.value in e.entities {
      EraseEntity(e, parent.value, u);
    }
    EraseUnit(e, u);
  }
}

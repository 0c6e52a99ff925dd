/**
 * What every entity does: join a parent system on request (by reference or by system
 * ID), and on destruction leave its parent and the root's registries according to its
 * exact runtime type.
 */
module EntityNode {
  import opened Wrappers
  import opened Lists
  import opened World
  import opened SystemNode
  import opened RootRegistry
  import opened UnitNode

  /** `InitEntity(parent)`: join a live parent, or log that the system does not exist. */
  function AfterInitEntity(w: World, x: Handle, parent: Option<Handle>): World
    requires x in w.entities
    requires Live(w, parent) ==> w.entities[parent.value].IsSystem()
  {
    if Live(w, parent) then
      AfterAddEntity(w.(entities := w.entities[x := w.entities[x].(parent := parent)]), parent.value, x)
    else Warn(w, NoSuchParent(x))
  }

  /** `InitEntity(systemKey)`: look the parent up in the root's dictionary, then as above. */
  function AfterInitEntityByKey(w: World, x: Handle, key: string): World
    requires x in w.entities && DictionaryTyped(w)
  {
    AfterInitEntity(w, x, GetSystem(w, key))
  }

  /**
   * A live parent ends up as `x`'s parent with `x` appended to its children, and no
   * other entity, component, trace entry or log line changes; otherwise only the
   * warning is logged. The root's registries are untouched either way.
   */
  lemma InitEntityEffect(w: World, x: Handle, parent: Option<Handle>)
    requires x in w.entities
    requires Live(w, parent) ==> w.entities[parent.value].IsSystem()
    ensures var w' := AfterInitEntity(w, x, parent);
      && w'.allUnits == w.allUnits && w'.allSystems == w.allSystems && w'.systemDictionary == w.systemDictionary
      && w'.entities.Keys == w.entities.Keys
    ensures Live(w, parent) ==>
      var p := parent.value;
      && AfterInitEntity(w, x, parent).entities[x].parent == parent
      && AfterInitEntity(w, x, parent).entities[p].children ==
           (if p == x then w.entities[x].children else w.entities[p].children) + [x]
    ensures Live(w, parent) ==>
      var w' := AfterInitEntity(w, x, parent);
      && w'.components == w.components && w'.log == w.log && w'.trace == w.trace
      && forall y :: y in w.entities && y != x && y != parent.value ==> w'.entities[y] == w.entities[y]
    ensures !Live(w, parent) ==> AfterInitEntity(w, x, parent) == w.(log := w.log + [NoSuchParent(x)])
  {
    if Live(w, parent) {
      var w1 := w.(entities := w.entities[x := w.entities[x].(parent := parent)]);
      AddEntityAppends(w1, parent.value, x);
    }
  }

  /** An ID nobody registered leaves the entity parentless and logs the warning. */
  lemma InitEntityByUnknownKey(w: World, x: Handle, key: string)
    requires x in w.entities && DictionaryTyped(w) && !IsKeyUsed(w, key)
    ensures AfterInitEntityByKey(w, x, key) == w.(log := w.log + [NoSuchParent(x)])
  {
  }

  /** The common `OnDestroy` of entities: leave the parent's children, then unregister by runtime type. */
  function EntityUnregister(w: World, x: Handle): World
    requires ParentIsSystem(w, x) && w.entities[x].kind != UnitKind
  {
    var parent := w.entities[x].parent;
    var w1 := if Live(w, parent) then AfterEraseEntity(w, parent.value, x) else w;
    match w.entities[x].kind
    case SystemKind => AfterEraseSystem(w1, x)
    case SmellKind => AfterEraseSystem(w1, x)
    case RootKind => w1
  }

  /**
   * Destruction of entity `x`: a unit runs its own `OnDestroy` (which hides the
   * entity one), any other entity the common one; then the entity is gone.
   */
  function AfterEntityDestroyed(w: World, x: Handle): (w': World)
    requires ParentIsSystem(w, x)
    ensures x !in w'.entities
  {
    var w1 := if w.entities[x].kind == UnitKind then AfterUnitOnDestroy(w, x) else EntityUnregister(w, x);
    w1.(entities := w1.entities - {x})
  }

  /** The parent's child-list edit changes no registry and no system ID. */
  lemma ParentEraseFrame(w: World, x: Handle)
    requires ParentIsSystem(w, x)
    ensures var parent := w.entities[x].parent;
      var w1 := if Live(w, parent) then AfterEraseEntity(w, parent.value, x) else w;
      && w1.allSystems == w.allSystems && w1.systemDictionary == w.systemDictionary && w1.allUnits == w.allUnits
      && w1.entities.Keys == w.entities.Keys
      && forall s :: s in w.entities ==> w1.entities[s].systemId == w.entities[s].systemId && w1.entities[s].kind == w.entities[s].kind
  {
  }

  /**
   * Destroying a registered system (or smell system) keeps the dictionary an exact
   * mirror of the system list and removes the system from both.
   */
  lemma DestroySystemKeepsMirror(w: World, x: Handle)
    requires ParentIsSystem(w, x) && Mirrors(w) && x in w.allSystems
    requires w.entities[x].kind == SystemKind || w.entities[x].kind == SmellKind
    ensures Mirrors(AfterEntityDestroyed(w, x))
    ensures x !in AfterEntityDestroyed(w, x).allSystems
    ensures IdOf(w, x) !in AfterEntityDestroyed(w, x).systemDictionary
  {
    var parent := w.entities[x].parent;
    var w1 := if Live(w, parent) then AfterEraseEntity(w, parent.value, x) else w;
    ParentEraseFrame(w, x);
    assert Mirrors(w1) by { MirrorsFrame(w, w1); }
    assert IdOf(w1, x) == IdOf(w, x);
    var w2 := AfterEraseSystem(w1, x);
    assert Mirrors(w2) by { EraseSystemKeepsMirror(w1, x); }
    assert x !in w2.allSystems by { RemoveNoDuplicates(w.allSystems, x); }
    assert EntityUnregister(w, x) == w2;
    var w3 := w2.(entities := w2.entities - {x});
    assert AfterEntityDestroyed(w, x) == w3;
    MirrorsFrame(w2, w3);
  }

  /** Destroying a unit registered once removes it from the unit list and changes no system registration. */
  lemma DestroyUnitUnregisters(w: World, x: Handle)
    requires ParentIsSystem(w, x) && w.entities[x].kind == UnitKind && NoDuplicates(w.allUnits)
    ensures x !in AfterEntityDestroyed(w, x).allUnits
    ensures AfterEntityDestroyed(w, x).allSystems == w.allSystems
    ensures AfterEntityDestroyed(w, x).systemDictionary == w.systemDictionary
  {
    UnitOnDestroyEffect(w, x, x + 1);
  }

  method InitEntity(e: Engine, x: Handle, parent: Option<Handle>)
    requires x in e.entities
    requires Live(e.State(), parent) ==> e.entities[parent.value].IsSystem()
    modifies e
    ensures e.State() == AfterInitEntity(old(e.State()), x, parent)
  {
    if parent.Some? && parent.value in e.entities {
      e.entities := e.entities[x := e.entities[x].(parent := parent)];
      AddEntity(e, parent.value, x);
    } else {
      e.log := e.log + [NoSuchParent(x)];
    }
  }

  method InitEntityByKey(e: Engine, x: Handle, key: string)
    requires x in e.entities && DictionaryTyped(e.State())
    modifies e
    ensures e.State() == AfterInitEntityByKey(old(e.State()), x, key)
  {
    var parent := GetSystemQuery(e, key);
    InitEntity(e, x, parent);
  }

  /** Destruction of entity `x`, dispatched on its runtime type. */
  method EntityOnDestroy(e: Engine, x: Handle)
    requires ParentIsSystem(e.State(), x)
    modifies e
    ensures e.State() == AfterEntityDestroyed(old(e.State()), x)
  {
    var kind := e.entities[x].kind;
    if kind == UnitKind {
      UnitOnDestroy(e, x);
    } else {
      var parent := e.entities[x].parent;
      if parent.Some? && parent.value in e.entities {
        EraseEntity(e, parent.value, x);
      }
      if kind == SystemKind || kind == SmellKind {
        EraseSystem(e, x);
      }
    }
    e.entities := e.entities - {x};
  }
}

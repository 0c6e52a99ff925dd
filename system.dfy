/**
 * A system's list of child entities. `AddEntity` appends without checking for
 * duplicates; `EraseEntity` removes the first occurrence. Neither touches the system's
 * ID, which has no setter.
 */
module SystemNode {
  import opened Wrappers
  import opened Lists
  import opened World

  /** `s` denotes a live entity whose runtime type is a system (plain, root or smell). */
  predicate IsSystemEntity(w: World, s: Handle) {
    s in w.entities && w.entities[s].IsSystem()
  }

  /** Replace the child list of system `s`. */
  function WithChildren(w: World, s: Handle, children: seq<Handle>): World
    requires s in w.entities
  {
    w.(entities := w.entities[s := w.entities[s].(children := children)])
  }

  function AfterAddEntity(w: World, s: Handle, x: Handle): World
    requires IsSystemEntity(w, s)
  {
    WithChildren(w, s, w.entities[s].children + [x])
  }

  function AfterEraseEntity(w: World, s: Handle, x: Handle): World
    requires IsSystemEntity(w, s)
  {
    WithChildren(w, s, Remove(w.entities[s].children, x))
  }

  /** Adding puts `x` at the end, even when it is already a child, and leaves the system ID alone. */
  lemma AddEntityAppends(w: World, s: Handle, x: Handle)
    requires IsSystemEntity(w, s)
    ensures AfterAddEntity(w, s, x).entities[s].children == w.entities[s].children + [x]
    ensures AfterAddEntity(w, s, x).entities[s].systemId == w.entities[s].systemId
    ensures AfterAddEntity(w, s, x).entities.Keys == w.entities.Keys
  {
  }

  /**
   * Erasing removes only the first occurrence and keeps the other children in order;
   * it is a no-op for a non-child and leaves the system ID alone.
   */
  lemma EraseEntityRemovesFirst(w: World, s: Handle, x: Handle)
    requires IsSystemEntity(w, s)
    ensures x !in w.entities[s].children ==> AfterEraseEntity(w, s, x) == w
    ensures x in w.entities[s].children ==>
      var cs := w.entities[s].children;
      var k := IndexOf(cs, x);
      AfterEraseEntity(w, s, x).entities[s].children == cs[..k] + cs[k + 1..]
    ensures AfterEraseEntity(w, s, x).entities[s].systemId == w.entities[s].systemId
  {
    var cs := w.entities[s].children;
    if x !in cs {
      assert Remove(cs, x) == cs;
      assert w.entities[s].(children := cs) == w.entities[s];
      assert w.entities[s := w.entities[s]] == w.entities;
    }
  }

  /** Adding an entity that is not a child and erasing it again restores the system. */
  lemma AddThenErase(w: World, s: Handle, x: Handle)
    requires IsSystemEntity(w, s) && x !in w.entities[s].children
    ensures AfterEraseEntity(AfterAddEntity(w, s, x), s, x) == w
  {
    RemoveAfterAppend(w.entities[s].children, x);
  }

  /** `AddEntity`. */
  method AddEntity(e: Engine, s: Handle, x: Handle)
    requires IsSystemEntity(e.State(), s)
    modifies e
    ensures e.State() == AfterAddEntity(old(e.State()), s, x)
  {
    var sys := e.entities[s];
    e.entities := e.entities[s := sys.(children := sys.children + [x])];
  }

  /** `EraseEntity`. */
  method EraseEntity(e: Engine, s: Handle, x: Handle)
    requires IsSystemEntity(e.State(), s)
    modifies e
    ensures e.State() == AfterEraseEntity(old(e.State()), s, x)
  {
    var sys := e.entities[s];
    e.entities := e.entities[s := sys.(children := Remove(sys.children, x))];
  }

  /** The `SystemID` getter. */
  method SystemId(e: Engine, s: Handle) returns (id: string)
    requires IsSystemEntity(e.State(), s)
    ensures id == e.entities[s].systemId
  {
    id := e.entities[s].systemId;
  }
}

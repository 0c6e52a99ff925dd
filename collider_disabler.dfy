/**
 * The collider disabler a presence output uses to shrink its collider to nothing for
 * one physics tick before disabling it, so that the other side sees the contact end.
 *
 * The disabler is a value: the references it saves (`auxBox`, `auxCapsule`,
 * `auxSphere`, `auxMesh`) are collider handles and the dimensions it saves are reals
 * and vectors. Operations work on the collider map and return the new disabler.
 */
module ColliderDisabling {
  import opened Wrappers
  import opened World

  /** The outcome of `MinimizeCollider`: the colliders, the disabler, and whether it ran to the end. */
  datatype Minimized = Minimized(colliders: map<Handle, Collider>, disabler: Disabler, completed: bool)

  /** A saved reference that is not null: set, and to a collider that still exists. */
  predicate Alive(cols: map<Handle, Collider>, r: Option<Handle>) {
    r.Some? && r.value in cols
  }

  /** The shapes whose minimization and restoration match up. */
  predicate Shrinkable(s: Shape) {
    s.Box? || s.Capsule? || s.Mesh?
  }

  /** The shape with every dimension the disabler zeroes set to zero. */
  function Zeroed(s: Shape): (r: Shape)
    ensures r.Box? == s.Box? && r.Capsule? == s.Capsule? && r.Sphere? == s.Sphere? && r.Mesh? == s.Mesh?
  {
    match s
    case Box(_) => Box(Zero3)
    case Capsule(_, _) => Capsule(0.0, 0.0)
    case Sphere(_) => Sphere(0.0)
    case Mesh(_) => Mesh(Zero3)
    case OtherShape => OtherShape
  }

  /** The capsule write of the sphere branch: zero the radius of whatever capsule the reference holds. */
  function ZeroCapsuleRadius(s: Shape): Shape {
    if s.Capsule? then Capsule(0.0, s.height) else s
  }

  /** Replace the shape of collider `h`, keeping its enabled flag. */
  function Reshape(cols: map<Handle, Collider>, h: Handle, s: Shape): (r: map<Handle, Collider>)
    requires h in cols
    ensures r.Keys == cols.Keys && r[h] == Collider(cols[h].enabled, s)
    ensures forall g :: g in cols && g != h ==> r[g] == cols[g]
  {
    cols[h := Collider(cols[h].enabled, s)]
  }

  /**
   * `MinimizeCollider`: save the dimensions of the collider and zero them, by shape.
   * The sphere branch saves the sphere but zeroes the radius through the capsule
   * reference, so it fails when no capsule is recorded.
   */
  function Minimize(cols: map<Handle, Collider>, d: Disabler, col: Handle): (m: Minimized)
    requires col in cols
    ensures m.colliders.Keys == cols.Keys
  {
    match cols[col].shape
    case Box(size) => Minimized(Reshape(cols, col, Box(Zero3)), d.(auxBox := Some(col), boxSize := size), true)
    case Capsule(radius, height) =>
      Minimized(Reshape(cols, col, Capsule(0.0, 0.0)), d.(auxCapsule := Some(col), capsuleRadius := radius, capsuleHeight := height), true)
    case Sphere(radius) =>
      var d1 := d.(auxSphere := Some(col), sphereRadius := radius);
      if Alive(cols, d.auxCapsule) then
        Minimized(Reshape(cols, d.auxCapsule.value, ZeroCapsuleRadius(cols[d.auxCapsule.value].shape)), d1, true)
      else Minimized(cols, d1, false)
    case Mesh(scale) => Minimized(Reshape(cols, col, Mesh(Zero3)), d.(auxMesh := Some(col), meshScale := scale), true)
    case OtherShape => Minimized(cols, d, true)
  }

  /** The reference `RestoreColliderSize` restores: the first live one, in the order box, capsule, sphere, mesh. */
  function Chosen(cols: map<Handle, Collider>, d: Disabler): (r: Option<Handle>)
    ensures r.Some? ==> r.value in cols
    ensures r == None <==> !Alive(cols, d.auxBox) && !Alive(cols, d.auxCapsule) && !Alive(cols, d.auxSphere) && !Alive(cols, d.auxMesh)
    ensures Alive(cols, d.auxBox) ==> r == d.auxBox
    ensures !Alive(cols, d.auxBox) && Alive(cols, d.auxCapsule) ==> r == d.auxCapsule
    ensures !Alive(cols, d.auxBox) && !Alive(cols, d.auxCapsule) && Alive(cols, d.auxSphere) ==> r == d.auxSphere
  {
    if Alive(cols, d.auxBox) then d.auxBox
    else if Alive(cols, d.auxCapsule) then d.auxCapsule
    else if Alive(cols, d.auxSphere) then d.auxSphere
    else if Alive(cols, d.auxMesh) then d.auxMesh
    else None
  }

  /**
   * `RestoreColliderSize`: put back the saved dimensions through the first live
   * reference only. The disabler is then cleared (`CleanVariables`), which is
   * `CleanDisabler`.
   */
  function Restore(cols: map<Handle, Collider>, d: Disabler): (r: map<Handle, Collider>)
    ensures r.Keys == cols.Keys
  {
    if Alive(cols, d.auxBox) then Reshape(cols, d.auxBox.value, Box(d.boxSize))
    else if Alive(cols, d.auxCapsule) then Reshape(cols, d.auxCapsule.value, Capsule(d.capsuleRadius, d.capsuleHeight))
    else if Alive(cols, d.auxSphere) then Reshape(cols, d.auxSphere.value, Sphere(d.sphereRadius))
    else if Alive(cols, d.auxMesh) then Reshape(cols, d.auxMesh.value, Mesh(d.meshScale))
    else cols
  }

  /**
   * Box, capsule and mesh colliders round-trip: from a clean disabler, minimizing
   * completes, zeroes exactly that collider's dimensions (keeping its enabled flag)
   * and restoring afterwards gives back every collider as it was.
   */
  lemma MinimizeRestoreRoundTrip(cols: map<Handle, Collider>, col: Handle)
    requires col in cols && Shrinkable(cols[col].shape)
    ensures var m := Minimize(cols, CleanDisabler, col);
      && m.completed
      && m.colliders == cols[col := Collider(cols[col].enabled, Zeroed(cols[col].shape))]
      && Restore(m.colliders, m.disabler) == cols
  {
    var m := Minimize(cols, CleanDisabler, col);
    assert Restore(m.colliders, m.disabler) == cols[col := cols[col]];
  }

  /**
   * The sphere branch as written: with no capsule recorded, minimizing a sphere saves
   * its radius, changes no collider and does not complete, so the sphere is never
   * shrunk.
   */
  lemma SphereMinimizeFails(cols: map<Handle, Collider>, d: Disabler, col: Handle)
    requires col in cols && cols[col].shape.Sphere? && !Alive(cols, d.auxCapsule)
    ensures var m := Minimize(cols, d, col);
      && !m.completed
      && m.colliders == cols
      && m.disabler.auxSphere == Some(col)
      && m.disabler.sphereRadius == cols[col].shape.radius
  {
  }

  /** Minimizing any other kind of collider does nothing. */
  lemma MinimizeOtherShape(cols: map<Handle, Collider>, d: Disabler, col: Handle)
    requires col in cols && cols[col].shape.OtherShape?
    ensures Minimize(cols, d, col) == Minimized(cols, d, true)
  {
  }

  /**
   * `RestoreColliderSize` changes at most one collider, the chosen one, and only its
   * shape; no enabled flag changes.
   */
  lemma RestoreAtMostOne(cols: map<Handle, Collider>, d: Disabler)
    ensures forall h :: h in cols && Chosen(cols, d) != Some(h) ==> Restore(cols, d)[h] == cols[h]
    ensures forall h :: h in cols ==> Restore(cols, d)[h].enabled == cols[h].enabled
    ensures Chosen(cols, d) == None ==> Restore(cols, d) == cols
  {
  }

  /** After a restore nothing is saved, so a second restore (or one with no prior minimize) changes nothing. */
  lemma RestoreWithNothingSaved(cols: map<Handle, Collider>)
    ensures Restore(cols, CleanDisabler) == cols
  {
  }
}

/** An object's placement (Transform): position, rotation in degrees and scale, with
    the model matrix cached and recomputed only after a setter has marked it dirty.
    The matrix itself is the symbolic term Gl.Model(position, rotation, scale). */
module Transforms {
  import opened Gl

  const Origin := Vec3(0.0, 0.0, 0.0)
  const Unit := Vec3(1.0, 1.0, 1.0)

  class Transform {
    var position: Vec3
    var rotation: Vec3
    var scale: Vec3
    /** m_dirty: the cached matrix may be stale. */
    var dirty: bool
    /** m_cachedMatrix */
    var cachedMatrix: Mat4
    /** How many times getModelMatrix has composed the matrix. */
    ghost var recomputations: nat

    /** A clean cache holds the composition of the current fields. */
    ghost predicate Valid()
      reads this
    {
      !dirty ==> cachedMatrix == Model(position, rotation, scale)
    }

    /** The matrix getModelMatrix hands back in the current state. */
    ghost function ModelMatrix(): Mat4
      reads this
    {
      if dirty then Model(position, rotation, scale) else cachedMatrix
    }

    /** Transform::Transform: at the origin, unrotated, unit scale, with the identity
        in a cache that is marked dirty. */
    constructor ()
      ensures Valid()
      ensures position == Origin && rotation == Origin && scale == Unit
      ensures dirty && cachedMatrix == Identity && recomputations == 0
    {
      position, rotation, scale := Origin, Origin, Unit;
      dirty := true;
      cachedMatrix := Identity;
      recomputations := 0;
    }

    /** The copy constructor: every field, the cache and its flag included. */
    constructor CopyOf(other: Transform)
      ensures position == other.position && rotation == other.rotation && scale == other.scale
      ensures dirty == other.dirty && cachedMatrix == other.cachedMatrix
      ensures other.Valid() ==> Valid()
    {
      position, rotation, scale := other.position, other.rotation, other.scale;
      dirty, cachedMatrix := other.dirty, other.cachedMatrix;
      recomputations := 0;
    }

    function GetPosition(): (p: Vec3)
      reads this
      ensures p == position
    {
      position
    }

    function GetRotation(): (r: Vec3)
      reads this
      ensures r == rotation
    {
      rotation
    }

    function GetScale(): (s: Vec3)
      reads this
      ensures s == scale
    {
      scale
    }

    method SetPosition(p: Vec3)
      requires Valid()
      modifies this
      ensures Valid() && dirty
      ensures position == p && rotation == old(rotation) && scale == old(scale)
      ensures cachedMatrix == old(cachedMatrix) && recomputations == old(recomputations)
    {
      position := p;
      dirty := true;
    }

    method SetRotation(r: Vec3)
      requires Valid()
      modifies this
      ensures Valid() && dirty
      ensures rotation == r && position == old(position) && scale == old(scale)
      ensures cachedMatrix == old(cachedMatrix) && recomputations == old(recomputations)
    {
      rotation := r;
      dirty := true;
    }

    method SetScale(s: Vec3)
      requires Valid()
      modifies this
      ensures Valid() && dirty
      ensures scale == s && position == old(position) && rotation == old(rotation)
      ensures cachedMatrix == old(cachedMatrix) && recomputations == old(recomputations)
    {
      scale := s;
      dirty := true;
    }

    /** Transform::getModelMatrix: a dirty cache is recomputed from the fields and
        marked clean; a clean cache is returned as it is. Either way the result is
        the composition of the current fields. */
    method GetModelMatrix() returns (m: Mat4)
      requires Valid()
      modifies this
      ensures Valid() && !dirty
      ensures m == Model(position, rotation, scale) && m == cachedMatrix
      ensures position == old(position) && rotation == old(rotation) && scale == old(scale)
      ensures old(dirty) ==> recomputations == old(recomputations) + 1
      ensures !old(dirty) ==> recomputations == old(recomputations) && cachedMatrix == old(cachedMatrix)
    {
      if dirty {
        var model := Model(position, rotation, scale);
        cachedMatrix := model;
        dirty := false;
        recomputations := recomputations + 1;
      }
      m := cachedMatrix;
    }

    /** In a valid state the matrix getModelMatrix would return is the composition
        of the current fields, whether or not the cache is clean. */
    lemma CacheCoherent()
      requires Valid()
      ensures ModelMatrix() == Model(position, rotation, scale)
    {
    }
  }

  /** Two getModelMatrix calls with no setter between them give the same matrix and
      compose it only once; after a setter the next call composes again and reflects
      the new value. */
  method CachedMatrixScenario(p: Vec3)
  {
    var t := new Transform();
    var first := t.GetModelMatrix();
    var second := t.GetModelMatrix();
    assert first == second == Model(Origin, Origin, Unit);
    assert t.recomputations == 1;
    t.SetPosition(p);
    assert t.GetPosition() == p;
    var third := t.GetModelMatrix();
    assert third == Model(p, Origin, Unit);
    assert t.recomputations == 2;
  }
}

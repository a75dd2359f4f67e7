/** An element of the world (a mesh, the camera, a light): position,
    rotation angles, scale and the model matrix built from them. */
module Actors {
  import opened Geometry

  class Actor {
    var modelMatrix: Mat
    var pos: Vec3
    var rot: Vec3
    var sc: Vec3

    /** Placed at the origin, not rotated, unit scale. */
    constructor()
      ensures pos == Vec3(0.0, 0.0, 0.0) && rot == Vec3(0.0, 0.0, 0.0) && sc == Vec3(1.0, 1.0, 1.0)
      ensures modelMatrix == Identity
    {
      modelMatrix := Identity;
      pos := Vec3(0.0, 0.0, 0.0);
      rot := Vec3(0.0, 0.0, 0.0);
      sc := Vec3(1.0, 1.0, 1.0);
    }

    /** Rebuilds the model matrix from the current scale, rotation and position. */
    method Update()
      modifies this
      ensures modelMatrix == Model(pos, rot, sc)
      ensures pos == old(pos) && rot == old(rot) && sc == old(sc)
    {
      modelMatrix := Model(pos, rot, sc);
    }

    function GetPosition(): Vec3
      reads this
    {
      pos
    }

    function GetRotation(): Vec3
      reads this
    {
      rot
    }

    function GetScale(): Vec3
      reads this
    {
      sc
    }

    method SetRotation(x: real, y: real, z: real)
      modifies this
      ensures rot == Vec3(x, y, z)
      ensures pos == old(pos) && sc == old(sc) && modelMatrix == old(modelMatrix)
    {
      rot := rot.(x := x);
      rot := rot.(y := y);
      rot := rot.(z := z);
    }

    method SetPosition(x: real, y: real, z: real)
      modifies this
      ensures pos == Vec3(x, y, z)
      ensures rot == old(rot) && sc == old(sc) && modelMatrix == old(modelMatrix)
    {
      pos := pos.(x := x);
      pos := pos.(y := y);
      pos := pos.(z := z);
    }

    method SetScale(x: real, y: real, z: real)
      modifies this
      ensures sc == Vec3(x, y, z)
      ensures pos == old(pos) && rot == old(rot) && modelMatrix == old(modelMatrix)
    {
      sc := sc.(x := x);
      sc := sc.(y := y);
      sc := sc.(z := z);
    }

    /** The one-value overload: the same scale on the three axes. */
    method SetUniformScale(value: real)
      modifies this
      ensures sc == Vec3(value, value, value)
      ensures pos == old(pos) && rot == old(rot) && modelMatrix == old(modelMatrix)
    {
      sc := sc.(x := value);
      sc := sc.(y := value);
      sc := sc.(z := value);
    }

    method SetRotationVector(newRot: Vec3)
      modifies this
      ensures rot == newRot
      ensures pos == old(pos) && sc == old(sc) && modelMatrix == old(modelMatrix)
    {
      rot := rot.(x := newRot.x);
      rot := rot.(y := newRot.y);
      rot := rot.(z := newRot.z);
    }

    method SetPositionVector(newPos: Vec3)
      modifies this
      ensures pos == newPos
      ensures rot == old(rot) && sc == old(sc) && modelMatrix == old(modelMatrix)
    {
      pos := pos.(x := newPos.x);
      pos := pos.(y := newPos.y);
      pos := pos.(z := newPos.z);
    }

    method SetScaleVector(newScale: Vec3)
      modifies this
      ensures sc == newScale
      ensures pos == old(pos) && rot == old(rot) && modelMatrix == old(modelMatrix)
    {
      sc := sc.(x := newScale.x);
      sc := sc.(y := newScale.y);
      sc := sc.(z := newScale.z);
    }

    method Move(x: real, y: real, z: real)
      modifies this
      ensures pos == Add(old(pos), Vec3(x, y, z))
      ensures rot == old(rot) && sc == old(sc) && modelMatrix == old(modelMatrix)
    {
      pos := pos.(x := pos.x + x);
      pos := pos.(y := pos.y + y);
      pos := pos.(z := pos.z + z);
    }

    method Rotate(x: real, y: real, z: real)
      modifies this
      ensures rot == Add(old(rot), Vec3(x, y, z))
      ensures pos == old(pos) && sc == old(sc) && modelMatrix == old(modelMatrix)
    {
      rot := rot.(x := rot.x + x);
      rot := rot.(y := rot.y + y);
      rot := rot.(z := rot.z + z);
    }

    /** The one-value overload: adds the same amount on the three axes. */
    method SumUniformScale(value: real)
      modifies this
      ensures sc == Add(old(sc), Vec3(value, value, value))
      ensures pos == old(pos) && rot == old(rot) && modelMatrix == old(modelMatrix)
    {
      sc := sc.(x := sc.x + value);
      sc := sc.(y := sc.y + value);
      sc := sc.(z := sc.z + value);
    }

    method SumScale(x: real, y: real, z: real)
      modifies this
      ensures sc == Add(old(sc), Vec3(x, y, z))
      ensures pos == old(pos) && rot == old(rot) && modelMatrix == old(modelMatrix)
    {
      sc := sc.(x := sc.x + x);
      sc := sc.(y := sc.y + y);
      sc := sc.(z := sc.z + z);
    }

    method MoveVector(offset: Vec3)
      modifies this
      ensures pos == Add(old(pos), offset)
      ensures rot == old(rot) && sc == old(sc) && modelMatrix == old(modelMatrix)
    {
      pos := pos.(x := pos.x + offset.x);
      pos := pos.(y := pos.y + offset.y);
      pos := pos.(z := pos.z + offset.z);
    }

    method RotateVector(offset: Vec3)
      modifies this
      ensures rot == Add(old(rot), offset)
      ensures pos == old(pos) && sc == old(sc) && modelMatrix == old(modelMatrix)
    {
      rot := rot.(x := rot.x + offset.x);
      rot := rot.(y := rot.y + offset.y);
      rot := rot.(z := rot.z + offset.z);
    }

    method SumScaleVector(offset: Vec3)
      modifies this
      ensures sc == Add(old(sc), offset)
      ensures pos == old(pos) && rot == old(rot) && modelMatrix == old(modelMatrix)
    {
      sc := sc.(x := sc.x + offset.x);
      sc := sc.(y := sc.y + offset.y);
      sc := sc.(z := sc.z + offset.z);
    }
  }
}

/** The camera: an actor with a field of view, fixed near and far planes
    and the screen size its projection is computed for. */
module Cameras {
  import opened Geometry
  import opened Actors

  class Camera {
    /** The camera's position, rotation and scale; its model matrix is the view matrix. */
    const actor: Actor
    var fieldOfView: real
    /** No member assigns the planes after construction. */
    const nearPlane: real := 0.1
    const farPlane: real := 1000.0
    var screenWidth: int
    var screenHeight: int

    /** A 45 degree field of view; the screen size is left at 0 until
        `SetScreenSize` is called. */
    constructor()
      ensures fresh(actor)
      ensures actor.pos == Vec3(0.0, 0.0, 0.0) && actor.rot == Vec3(0.0, 0.0, 0.0)
      ensures actor.sc == Vec3(1.0, 1.0, 1.0) && actor.modelMatrix == Identity
      ensures fieldOfView == 45.0 && GetNear() == 0.1 && GetFar() == 1000.0
      ensures screenWidth == 0 && screenHeight == 0
    {
      actor := new Actor();
      fieldOfView := 45.0;
      screenWidth := 0;
      screenHeight := 0;
    }

    method Update()
      modifies actor
      ensures actor.modelMatrix == Model(actor.pos, actor.rot, actor.sc)
      ensures actor.pos == old(actor.pos) && actor.rot == old(actor.rot) && actor.sc == old(actor.sc)
    {
      actor.Update();
    }

    /** Accepts a field of view strictly between 0 and 180 degrees and
        silently ignores any other value. */
    method SetFoV(fov: real)
      modifies this
      ensures fieldOfView == (if 0.0 < fov < 180.0 then fov else old(fieldOfView))
      ensures screenWidth == old(screenWidth) && screenHeight == old(screenHeight)
    {
      if fov > 0.0 && fov < 180.0 {
        fieldOfView := fov;
      }
    }

    method SetScreenSize(width: int, height: int)
      modifies this
      ensures screenWidth == width && screenHeight == height
      ensures fieldOfView == old(fieldOfView)
    {
      screenWidth := width;
      screenHeight := height;
    }

    /** The projection for the current field of view, aspect and planes. */
    function GetProjectionMatrix(): Mat
      reads this`fieldOfView, this`screenWidth, this`screenHeight
    {
      Perspective(fieldOfView, screenWidth, screenHeight, nearPlane, farPlane)
    }

    /** The near plane: always 0.1, in front of the far plane. */
    function GetNear(): (near: real)
      ensures near == 0.1 && near < farPlane
    {
      nearPlane
    }

    /** The far plane: always 1000, behind the near plane. */
    function GetFar(): (far: real)
      ensures far == 1000.0 && nearPlane < far
    {
      farPlane
    }
  }
}

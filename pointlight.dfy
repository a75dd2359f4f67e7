/** Point lights, with an on/off switch that remembers the intensity, and
    the flat buffer the lights are packed into for the mesh shaders. */
module Lights {
  import opened Geometry
  import opened Actors

  /** The capacity the lighting buffer declares; nothing enforces it. */
  const MAX_LIGHT_NUMBER: int := 8

  /** Flat per-light data as the shaders read it: three floats of position
      and of colour and one float of intensity per light. */
  class LightingBuffer {
    var numberOfLights: int
    var positionBuffer: array<real>
    var colorBuffer: array<real>
    var intensityBuffer: array<real>

    /** Empty buffers; the count is set by the view. */
    constructor()
      ensures numberOfLights == 0
      ensures positionBuffer.Length == 0 && colorBuffer.Length == 0 && intensityBuffer.Length == 0
    {
      numberOfLights := 0;
      positionBuffer := new real[0];
      colorBuffer := new real[0];
      intensityBuffer := new real[0];
    }

    /** Three lights in three separate buffers of 9, 9 and 3 floats. */
    ghost predicate Sized()
      reads this
    {
      numberOfLights == 3 &&
      positionBuffer.Length == 9 && colorBuffer.Length == 9 && intensityBuffer.Length == 3 &&
      positionBuffer != colorBuffer && positionBuffer != intensityBuffer && colorBuffer != intensityBuffer
    }
  }

  /** The part of a light the switch acts on. */
  datatype SwitchState = SwitchState(intensity: real, prevIntensity: real, isEnabled: bool)

  /** An enabled light shines with the remembered intensity; a disabled one with none. */
  predicate Consistent(s: SwitchState)
  {
    (s.isEnabled ==> s.intensity == s.prevIntensity) && (!s.isEnabled ==> s.intensity == 0.0)
  }

  /** What `Switch` does to a light: an enabled light goes dark, a disabled
      one comes back at the remembered intensity. */
  function Switched(s: SwitchState): SwitchState
  {
    if s.isEnabled then SwitchState(0.0, s.prevIntensity, false)
    else SwitchState(s.prevIntensity, s.prevIntensity, true)
  }

  /** Switching keeps the on/off invariant and flips the enabled flag. */
  lemma SwitchKeepsConsistent(s: SwitchState)
    requires Consistent(s)
    ensures Consistent(Switched(s)) && Switched(s).isEnabled == !s.isEnabled
    ensures Switched(s).prevIntensity == s.prevIntensity
  {
  }

  /** Switching twice gives back exactly the state the light started in. */
  lemma SwitchTwiceRestores(s: SwitchState)
    requires Consistent(s)
    ensures Switched(Switched(s)) == s
  {
  }

  /** What `SetIntensity(w)` does to a light: `w` is remembered, and shines
      at once only if the light is on. */
  function Intensified(s: SwitchState, w: real): SwitchState
  {
    SwitchState(if s.isEnabled then w else s.intensity, w, s.isEnabled)
  }

  /** Setting the intensity keeps the on/off invariant and the enabled flag. */
  lemma IntensifiedKeepsConsistent(s: SwitchState, w: real)
    requires Consistent(s)
    ensures Consistent(Intensified(s, w)) && Intensified(s, w).isEnabled == s.isEnabled
    ensures Intensified(s, w).prevIntensity == w
  {
  }

  class PointLight {
    /** The light's position, rotation and scale. */
    const actor: Actor
    var color: Vec3
    var intensity: real
    var prevIntensity: real
    var isEnabled: bool

    function State(): SwitchState
      reads this`intensity, this`prevIntensity, this`isEnabled
    {
      SwitchState(intensity, prevIntensity, isEnabled)
    }

    ghost predicate Valid()
      reads this`intensity, this`prevIntensity, this`isEnabled
    {
      Consistent(State())
    }

    /** A black light, switched on at intensity 60. */
    constructor()
      ensures Valid()
      ensures intensity == 60.0 && prevIntensity == 60.0 && isEnabled
      ensures color == Vec3(0.0, 0.0, 0.0)
      ensures fresh(actor) && actor.pos == Vec3(0.0, 0.0, 0.0) && actor.rot == Vec3(0.0, 0.0, 0.0)
      ensures actor.sc == Vec3(1.0, 1.0, 1.0) && actor.modelMatrix == Identity
    {
      actor := new Actor();
      color := Vec3(0.0, 0.0, 0.0);
      intensity := 60.0;
      isEnabled := true;
      prevIntensity := intensity;
    }

    method Update()
      modifies actor
      ensures actor.modelMatrix == Model(actor.pos, actor.rot, actor.sc)
      ensures actor.pos == old(actor.pos) && actor.rot == old(actor.rot) && actor.sc == old(actor.sc)
    {
      actor.Update();
    }

    method SetColor(r: real, g: real, b: real)
      modifies this
      ensures color == Vec3(r, g, b)
      ensures State() == old(State())
    {
      color := color.(x := r);
      color := color.(y := g);
      color := color.(z := b);
    }

    /** The vector overload: the same colour as `SetColor(c.x, c.y, c.z)`. */
    method SetColorVector(c: Vec3)
      modifies this
      ensures color == c
      ensures State() == old(State())
    {
      color := c;
    }

    /** Remembers `w`; a light that is on also shines with it at once, a
        light that is off keeps shining with nothing. */
    method SetIntensity(w: real)
      requires Valid()
      modifies this
      ensures Valid()
      ensures prevIntensity == w && isEnabled == old(isEnabled)
      ensures intensity == (if old(isEnabled) then w else 0.0)
      ensures State() == Intensified(old(State()), w)
      ensures color == old(color)
    {
      prevIntensity := w;
      if isEnabled {
        intensity := w;
      }
    }

    method TurnOn()
      modifies this
      ensures Valid()
      ensures isEnabled && intensity == prevIntensity && prevIntensity == old(prevIntensity)
      ensures color == old(color)
    {
      intensity := prevIntensity;
      isEnabled := true;
    }

    method TurnOff()
      modifies this
      ensures Valid()
      ensures !isEnabled && intensity == 0.0 && prevIntensity == old(prevIntensity)
      ensures color == old(color)
    {
      intensity := 0.0;
      isEnabled := false;
    }

    /** Turns an enabled light off and a disabled one on. */
    method Switch()
      requires Valid()
      modifies this
      ensures Valid()
      ensures State() == Switched(old(State()))
      ensures color == old(color)
    {
      if isEnabled {
        TurnOff();
      } else {
        TurnOn();
      }
    }
  }
}

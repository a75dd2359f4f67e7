/** The scene: four meshes, two point lights and their lighting buffer, the
    camera, and three post-processing effects of which at most one is
    active. Each frame the view updates the scene, then draws it, either
    straight to the screen or into the active effect's framebuffer, which
    the effect then composites onto the screen. */
module Views {
  import opened Geometry
  import opened Gl
  import opened Actors
  import opened Cameras
  import opened Lights
  import opened Meshes
  import PP = PostProcessing

  /** The active effect, numbered 0 .. 4 as the program numbers them. */
  datatype Effect = None | Reflection | MotionBlur | Blur | Dizzy

  /** The shader sources of the three effects. */
  const MOTION_BLUR_VERTEX := "../../assets/shaders/motionBlurVertex.glsl"
  const MOTION_BLUR_FRAGMENT := "../../assets/shaders/motionBlurFragment.glsl"
  const BLUR_VERTEX := "../../assets/shaders/blurVertex.glsl"
  const BLUR_FRAGMENT := "../../assets/shaders/blurFragment.glsl"
  const DIZZY_VERTEX := "../../assets/shaders/dizzyVertex.glsl"
  const DIZZY_FRAGMENT := "../../assets/shaders/dizzyFragment.glsl"

  /** The keys the view polls each frame. */
  datatype Key =
    | I | K | J | L | W | S | A | D | F | R
    | Left | Right | Up | Down | Space
    | Num0 | Num1 | Num2 | Num3 | Num4

  /** The keys that switch the effect. */
  predicate IsEffectKey(k: Key)
  {
    k.Num0? || k.Num1? || k.Num2? || k.Num3? || k.Num4?
  }

  /** The effect each effect key selects. */
  function KeyEffect(k: Key): Effect
    requires IsEffectKey(k)
  {
    match k
    case Num0 => None
    case Num1 => MotionBlur
    case Num2 => Reflection
    case Num3 => Blur
    case Num4 => Dizzy
  }

  /** The order in which the effect keys are checked. */
  function KeyOrder(k: Key): nat
    requires IsEffectKey(k)
  {
    match k
    case Num0 => 0
    case Num1 => 1
    case Num2 => 2
    case Num3 => 3
    case Num4 => 4
  }

  /** The effect after a frame's key check: the key checked last among the
      pressed ones decides; with none pressed the effect stays. */
  function SelectEffect(current: Effect, pressed: set<Key>): Effect
  {
    if Num4 in pressed then Dizzy
    else if Num3 in pressed then Blur
    else if Num2 in pressed then Reflection
    else if Num1 in pressed then MotionBlur
    else if Num0 in pressed then None
    else current
  }

  /** With no effect key pressed the effect is unchanged; otherwise it is
      the effect of a pressed effect key that no other pressed effect key
      follows in the checking order. */
  lemma SelectEffectLastKeyWins(current: Effect, pressed: set<Key>)
    ensures (forall k :: k in pressed ==> !IsEffectKey(k)) ==> SelectEffect(current, pressed) == current
    ensures (exists k :: k in pressed && IsEffectKey(k)) ==>
      exists k :: k in pressed && IsEffectKey(k) && SelectEffect(current, pressed) == KeyEffect(k) &&
        forall other :: other in pressed && IsEffectKey(other) ==> KeyOrder(other) <= KeyOrder(k)
  {
    if exists k :: k in pressed && IsEffectKey(k) {
      var some :| some in pressed && IsEffectKey(some);
      var k := if Num4 in pressed then Num4 else if Num3 in pressed then Num3 else if Num2 in pressed then Num2
        else if Num1 in pressed then Num1 else Num0;
      assert k in pressed;
      assert forall other :: other in pressed && IsEffectKey(other) ==> KeyOrder(other) <= KeyOrder(k);
    }
  }

  /** A key held down frame after frame keeps its effect selected. */
  lemma SelectEffectIdempotent(current: Effect, pressed: set<Key>)
    ensures SelectEffect(SelectEffect(current, pressed), pressed) == SelectEffect(current, pressed)
  {
  }

  /** The movement along one axis from a pair of opposite keys: `step`
      backwards for one, forwards for the other, nothing for both or neither. */
  function Axis(pressed: set<Key>, minus: Key, plus: Key, step: real): (offset: real)
    ensures (minus in pressed <==> plus in pressed) ==> offset == 0.0
    ensures plus in pressed && minus !in pressed ==> offset == step
    ensures minus in pressed && plus !in pressed ==> offset == -step
  {
    (if minus in pressed then -step else 0.0) + (if plus in pressed then step else 0.0)
  }

  /** I/K tilt the camera about x, J/L turn it about y. */
  function CameraTurn(pressed: set<Key>, step: real): Vec3
  {
    Vec3(Axis(pressed, I, K, step), Axis(pressed, J, L, step), 0.0)
  }

  /** D/A move the camera along x, R/F along y, S/W along z. */
  function CameraStep(pressed: set<Key>, step: real): Vec3
  {
    Vec3(Axis(pressed, D, A, step), Axis(pressed, R, F, step), Axis(pressed, S, W, step))
  }

  /** The arrow keys Left/Right turn the bat about y. */
  function BatTurn(pressed: set<Key>, step: real): Vec3
  {
    Vec3(0.0, Axis(pressed, Left, Right, step), 0.0)
  }

  /** One pair of movement keys: `plus` moves `a` by `offset`, then
      `minus` moves it back by the same amount. */
  method MoveOnKeys(a: Actor, pressed: set<Key>, minus: Key, plus: Key, offset: Vec3)
    modifies a
    ensures a.pos == Add(old(a.pos), Vec3(Axis(pressed, minus, plus, offset.x), Axis(pressed, minus, plus, offset.y),
                                          Axis(pressed, minus, plus, offset.z)))
    ensures a.rot == old(a.rot) && a.sc == old(a.sc) && a.modelMatrix == old(a.modelMatrix)
  {
    if plus in pressed {
      a.Move(offset.x, offset.y, offset.z);
    }
    if minus in pressed {
      a.Move(-offset.x, -offset.y, -offset.z);
    }
  }

  /** A speed per second over a frame of `deltaTime` seconds. */
  function Scaled(speed: real, deltaTime: real): real
  {
    speed * deltaTime
  }

  /** The keys that move the camera or turn the camera or the bat. */
  predicate IsMovementKey(k: Key)
  {
    k.I? || k.K? || k.J? || k.L? || k.W? || k.S? || k.A? || k.D? || k.F? || k.R? || k.Left? || k.Right?
  }

  /** With no movement key pressed the camera and the bat stay where they are. */
  lemma IdleKeysKeepPlace(pressed: set<Key>, turn: real, step: real, v: Vec3)
    requires forall k :: k in pressed ==> !IsMovementKey(k)
    ensures Add(v, CameraTurn(pressed, turn)) == v
    ensures Add(v, CameraStep(pressed, step)) == v
    ensures Add(v, BatTurn(pressed, turn)) == v
  {
  }

  /** The light keys: Up raises and Down lowers the white light's intensity
      by 100 from what it shines with, Space switches it. */
  function LightKeys(s: SwitchState, pressed: set<Key>): SwitchState
  {
    var raised := if Up in pressed then Intensified(s, s.intensity + 100.0) else s;
    var lowered := if Down in pressed then Intensified(raised, raised.intensity - 100.0) else raised;
    if Space in pressed then Switched(lowered) else lowered
  }

  /** The light keys keep the light's on/off invariant. */
  lemma {:induction false} LightKeysKeepConsistent(s: SwitchState, pressed: set<Key>)
    requires Consistent(s)
    ensures Consistent(LightKeys(s, pressed))
  {
    var raised := if Up in pressed then Intensified(s, s.intensity + 100.0) else s;
    IntensifiedKeepsConsistent(s, s.intensity + 100.0);
    var lowered := if Down in pressed then Intensified(raised, raised.intensity - 100.0) else raised;
    IntensifiedKeepsConsistent(raised, raised.intensity - 100.0);
    SwitchKeepsConsistent(lowered);
  }

  /** On a light that is on, Up and Down together cancel out. */
  lemma LightKeysUpDownCancel(s: SwitchState, pressed: set<Key>)
    requires Consistent(s) && s.isEnabled
    requires Up in pressed && Down in pressed && Space !in pressed
    ensures LightKeys(s, pressed) == s
  {
  }

  /** A light that is off shines with 0, so Up while it is off replaces the
      remembered intensity with 100 instead of raising it. */
  lemma LightKeysWhileOff(s: SwitchState, pressed: set<Key>)
    requires Consistent(s) && !s.isEnabled
    requires Up in pressed && Down !in pressed && Space !in pressed
    ensures LightKeys(s, pressed) == SwitchState(0.0, 100.0, false)
  {
  }

  /** The scale of a mesh mirrored in the floor plane. */
  function Mirror(scale: Vec3): (mirrored: Vec3)
    ensures mirrored.x == scale.x && mirrored.y == -scale.y && mirrored.z == scale.z
  {
    Vec3(scale.x, -scale.y, scale.z)
  }

  /** Mirroring twice gives the scale back. */
  lemma MirrorTwice(scale: Vec3)
    ensures Mirror(Mirror(scale)) == scale
  {
  }

  /** A reflected draw sets each pixel it covers to 1 in the stencil
      buffer, and does not write depth. */
  function ReflectiveSetup(): seq<Call>
  {
    [Enable(StencilTest), StencilFunc(Always, 1, 0xFF), StencilOp(Keep, Keep, Replace), StencilMask(0xFF),
     DepthMask(false), Clear(false, false, true)]
  }

  /** Reflections are drawn only where the stencil is 1, without writing
      it, with depth writes and alpha blending on. */
  function ReflectionSetup(): seq<Call>
  {
    [StencilFunc(Equal, 1, 0xFF), StencilMask(0x00), DepthMask(true), Enable(Blend), BlendAlpha]
  }

  /** Blending and the stencil test off again. */
  function EndReflectionCalls(): seq<Call>
  {
    [Disable(Blend), Disable(StencilTest)]
  }

  /** The raster state for marking the mirror: the stencil test on, always
      passing and writing 1 under every drawn fragment, depth not written. */
  function Marking(r: Raster): Raster
  {
    r.(capabilities := r.capabilities + {StencilTest}, depthWrite := false,
       stencil := Stencil(Always, 1, 0xFF, Keep, Keep, Replace, 0xFF))
  }

  /** The raster state for drawing a reflection: fragments pass only where
      the stencil is 1, the stencil is not written, depth is written and
      alpha blending is on; the stencil operations stay as they were. */
  function Masked(r: Raster): Raster
  {
    r.(capabilities := r.capabilities + {Blend}, depthWrite := true, blendAlpha := true,
       stencil := r.stencil.(func := Equal, ref := 1, readMask := 0xFF, writeMask := 0))
  }

  /** The raster state with blending and the stencil test off. */
  function Unmasked(r: Raster): Raster
  {
    r.(capabilities := r.capabilities - {Blend} - {StencilTest})
  }

  /** After the reflective setup the stencil test is on, always passes,
      writes 1 where a fragment is drawn, and depth is not written;
      nothing else changes. */
  lemma ReflectiveSetupEffect(s: GlState)
    ensures Run(s, ReflectiveSetup()).raster == Marking(s.raster)
    ensures Run(s, ReflectiveSetup()).draws == s.draws && Run(s, ReflectiveSetup()).program == s.program
  {
    var first := [Enable(StencilTest), StencilFunc(Always, 1, 0xFF), StencilOp(Keep, Keep, Replace)];
    var last := [StencilMask(0xFF), DepthMask(false), Clear(false, false, true)];
    assert ReflectiveSetup() == first + last;
    RunAppend(s, first, last);
    StencilWriteOn(s);
    DepthWriteOff(Run(s, first));
  }

  /** The first half of the reflective setup: stencil test on, always passing, replacing on pass. */
  lemma StencilWriteOn(s: GlState)
    ensures Run(s, [Enable(StencilTest), StencilFunc(Always, 1, 0xFF), StencilOp(Keep, Keep, Replace)])
      == s.(raster := s.raster.(capabilities := s.raster.capabilities + {StencilTest},
              stencil := s.raster.stencil.(func := Always, ref := 1, readMask := 0xFF, onStencilFail := Keep, onDepthFail := Keep, onPass := Replace)))
  {
    RunThree(s, Enable(StencilTest), StencilFunc(Always, 1, 0xFF), StencilOp(Keep, Keep, Replace));
    var s1 := Apply(s, Enable(StencilTest));
    var s2 := Apply(s1, StencilFunc(Always, 1, 0xFF));
    CapabilityOnStep(s, StencilTest);
    StencilFuncStep(s1, Always, 1, 0xFF);
    StencilOpStep(s2, Keep, Keep, Replace);
  }

  /** The second half: every stencil bit writable, depth writes off; the clear leaves the state alone. */
  lemma DepthWriteOff(s: GlState)
    ensures Run(s, [StencilMask(0xFF), DepthMask(false), Clear(false, false, true)])
      == s.(raster := s.raster.(depthWrite := false, stencil := s.raster.stencil.(writeMask := 0xFF)))
  {
    RunThree(s, StencilMask(0xFF), DepthMask(false), Clear(false, false, true));
    var s1 := Apply(s, StencilMask(0xFF));
    StencilMaskStep(s, 0xFF);
    DepthMaskStep(s1, false);
    ClearStep(Apply(s1, DepthMask(false)), false, false, true);
  }

  /** One call at a time: each changes the raster state only. */
  lemma CapabilityOnStep(s: GlState, cap: Capability)
    ensures Apply(s, Enable(cap)) == s.(raster := s.raster.(capabilities := s.raster.capabilities + {cap}))
  {
  }

  lemma StencilFuncStep(s: GlState, f: Comparison, ref: int, mask: int)
    ensures Apply(s, StencilFunc(f, ref, mask)) == s.(raster := s.raster.(stencil := s.raster.stencil.(func := f, ref := ref, readMask := mask)))
  {
  }

  lemma StencilOpStep(s: GlState, a: StencilAction, b: StencilAction, c: StencilAction)
    ensures Apply(s, StencilOp(a, b, c)) == s.(raster := s.raster.(stencil := s.raster.stencil.(onStencilFail := a, onDepthFail := b, onPass := c)))
  {
  }

  lemma StencilMaskStep(s: GlState, mask: int)
    ensures Apply(s, StencilMask(mask)) == s.(raster := s.raster.(stencil := s.raster.stencil.(writeMask := mask)))
  {
  }

  lemma BlendAlphaStep(s: GlState)
    ensures Apply(s, BlendAlpha) == s.(raster := s.raster.(blendAlpha := true))
  {
  }

  lemma ClearStep(s: GlState, color: bool, depth: bool, stencil: bool)
    ensures Apply(s, Clear(color, depth, stencil)) == s
  {
  }

  lemma DepthMaskStep(s: GlState, write: bool)
    ensures Apply(s, DepthMask(write)) == s.(raster := s.raster.(depthWrite := write))
  {
  }

  /** After the reflection setup fragments pass only where the stencil is
      1, the stencil is not written, depth is written and blending is on;
      the stencil operations are left as they were. */
  lemma ReflectionSetupEffect(s: GlState)
    ensures Run(s, ReflectionSetup()).raster == Masked(s.raster)
    ensures Run(s, ReflectionSetup()).draws == s.draws && Run(s, ReflectionSetup()).program == s.program
  {
    var first := [StencilFunc(Equal, 1, 0xFF), StencilMask(0x00), DepthMask(true)];
    var last := [Enable(Blend), BlendAlpha];
    assert ReflectionSetup() == first + last;
    RunAppend(s, first, last);
    StencilReadOnly(s);
    BlendOn(Run(s, first));
  }

  /** The first half of the reflection setup: pass where the stencil is 1, stencil bits read-only, depth writes on. */
  lemma StencilReadOnly(s: GlState)
    ensures Run(s, [StencilFunc(Equal, 1, 0xFF), StencilMask(0x00), DepthMask(true)])
      == s.(raster := s.raster.(depthWrite := true, stencil := s.raster.stencil.(func := Equal, ref := 1, readMask := 0xFF, writeMask := 0)))
  {
    RunThree(s, StencilFunc(Equal, 1, 0xFF), StencilMask(0x00), DepthMask(true));
    var s1 := Apply(s, StencilFunc(Equal, 1, 0xFF));
    StencilFuncStep(s, Equal, 1, 0xFF);
    StencilMaskStep(s1, 0x00);
    DepthMaskStep(Apply(s1, StencilMask(0x00)), true);
  }

  /** The second half: blending on, with the alpha blend function. */
  lemma BlendOn(s: GlState)
    ensures Run(s, [Enable(Blend), BlendAlpha])
      == s.(raster := s.raster.(capabilities := s.raster.capabilities + {Blend}, blendAlpha := true))
  {
    RunSnoc(s, [Enable(Blend)], BlendAlpha);
    assert [Enable(Blend)] + [BlendAlpha] == [Enable(Blend), BlendAlpha];
    RunOne(s, Enable(Blend));
    CapabilityOnStep(s, Blend);
    BlendAlphaStep(Apply(s, Enable(Blend)));
  }

  /** Ending the reflection turns blending and the stencil test off. */
  lemma EndReflectionEffect(s: GlState)
    ensures Run(s, EndReflectionCalls()).raster == Unmasked(s.raster)
    ensures Run(s, EndReflectionCalls()).draws == s.draws
  {
    RunAppend(s, [Disable(Blend)], [Disable(StencilTest)]);
    RunOne(s, Disable(Blend));
    RunOne(Run(s, [Disable(Blend)]), Disable(StencilTest));
  }

  /** After the whole reflection sequence, with raster-preserving draws in
      between, the stencil test and blending are off and the depth buffer
      is written again: only the stencil function and masks differ from
      before. */
  lemma {:induction false} ReflectionRestoresRaster(s: GlState)
    requires DepthTest in s.raster.capabilities && StencilTest !in s.raster.capabilities && Blend !in s.raster.capabilities
    ensures var r1 := Run(s, ReflectiveSetup()).raster;
      var r2 := Run(s.(raster := r1), ReflectionSetup()).raster;
      var r3 := Run(s.(raster := r2), EndReflectionCalls()).raster;
      r3.capabilities == s.raster.capabilities && r3.depthWrite && r3.framebuffer == s.raster.framebuffer &&
      r3.stencil == Stencil(Equal, 1, 0xFF, Keep, Keep, Replace, 0)
  {
    ReflectiveSetupEffect(s);
    var r1 := Run(s, ReflectiveSetup()).raster;
    ReflectionSetupEffect(s.(raster := r1));
    var r2 := Run(s.(raster := r1), ReflectionSetup()).raster;
    EndReflectionEffect(s.(raster := r2));
    assert s.raster.capabilities + {StencilTest} + {Blend} - {Blend} - {StencilTest} == s.raster.capabilities;
  }

  /** `std::vector::resize(n)` on a vector of floats: the first entries are
      kept, new ones are zero. */
  function Grown(v: seq<real>, n: nat): (r: seq<real>)
    ensures |r| == n
    ensures forall i :: 0 <= i < n ==> r[i] == if i < |v| then v[i] else 0.0
  {
    if n == 0 then [] else Grown(v, n - 1) + [if n - 1 < |v| then v[n - 1] else 0.0]
  }

  /** Resizing an array as `std::vector::resize` does, into a new array. */
  method Resized(a: array<real>, n: nat) returns (b: array<real>)
    ensures fresh(b) && b[..] == Grown(a[..], n)
  {
    b := new real[n];
    var i := 0;
    while i < n
      invariant 0 <= i <= n
      invariant b[..i] == Grown(a[..], i)
    {
      b[i] := if i < a.Length then a[i] else 0.0;
      assert b[..i + 1] == b[..i] + [b[i]];
      i := i + 1;
    }
    assert b[..] == b[..n];
  }

  /** The actor's model matrix is built from its current position, rotation and scale. */
  ghost predicate Current(a: Actor)
    reads a
  {
    a.modelMatrix == Model(a.pos, a.rot, a.sc)
  }

  /** The model matrices, or the previous frame's MVP matrices, of the four meshes. */
  datatype SceneMats = SceneMats(bat: Mat, floor: Mat, walls: Mat, columns: Mat)

  /** The calls an effect's `Draw` issues to composite its image. */
  function Composited(p: PP.Postprocess): seq<Call>
    reads p
  {
    PP.CompositeCalls(p.program, PP.RenderTexturesCalls(p.kind, p.textureColor, p.postProcessTextureID, p.speedTexture, p.speedTextureID),
      p.UniformUploads(), p.attributeCounter, p.vboQuad)
  }

  /** The calls an effect's `Initialize` issues. */
  function Initialized(p: PP.Postprocess, vertexPath: string, fragmentPath: string, width: int, height: int): seq<Call>
    reads p`vaoQuad, p`vboQuad, p`program, p`attPosition, p`frameBuffer, p`textureColor, p`speedTexture,
      p`renderDepthStencilBuffer
  {
    p.BaseInitCalls(vertexPath, fragmentPath, width, height) + PP.ExtraQueries(p.kind, p.program)
  }

  /** Two stretches of calls issued one after the other. */
  lemma CallsChained(log0: seq<Call>, first: seq<Call>, log1: seq<Call>, a: seq<Call>, b: seq<Call>, c: seq<Call>, log2: seq<Call>)
    requires log1 == log0 + first && log2 == log1 + a + b + c
    ensures log2 == log0 + first + a + b + c
  {
  }

  /** The calls an effect's `Resize` issues. */
  function Resizing(p: PP.Postprocess, width: int, height: int): seq<Call>
    reads p`textureColor, p`renderDepthStencilBuffer, p`speedTexture
  {
    PP.ResizeCalls(p.kind, p.textureColor, p.renderDepthStencilBuffer, p.speedTexture, width, height)
  }

  /** Two vectors as six consecutive floats, as the light buffers hold them. */
  function Flatten(first: Vec3, second: Vec3): (r: seq<real>)
    ensures |r| == 6
  {
    [first.x, first.y, first.z, second.x, second.y, second.z]
  }

  /** The look of each of the four meshes. */
  datatype SceneLooks = SceneLooks(bat: DrawableLook, floor: DrawableLook, walls: DrawableLook, columns: DrawableLook)

  /** One step of drawing a frame: a mesh drawn with a model matrix and a
      previous MVP, or a fixed run of state changes. */
  datatype Step = MeshDraw(look: DrawableLook, model: Mat, previous: Mat) | Fixed(calls: seq<Call>)

  /** The calls of one step, with the frame's projection and view matrices
      and lights. */
  function StepCalls(step: Step, projection: Mat, view: Mat, lights: LightValues): seq<Call>
  {
    match step
    case MeshDraw(look, model, previous) => Drawn(look, projection, view, lights, model, previous)
    case Fixed(calls) => calls
  }

  /** A run of steps, first to last. */
  datatype Steps = Done | Then(first: Step, rest: Steps)

  /** The calls of the steps, one after the other. */
  function StepsCalls(steps: Steps, projection: Mat, view: Mat, lights: LightValues): seq<Call>
  {
    match steps
    case Done => []
    case Then(first, rest) => StepCalls(first, projection, view, lights) + StepsCalls(rest, projection, view, lights)
  }

  /** The steps of `a`, then those of `b`. */
  function Concat(a: Steps, b: Steps): Steps
  {
    match a
    case Done => b
    case Then(first, rest) => Then(first, Concat(rest, b))
  }

  /** `NormalDraw`: bat, floor, walls, columns. */
  function NormalDrawSteps(looks: SceneLooks, models: SceneMats, previous: SceneMats): Steps
  {
    Then(MeshDraw(looks.bat, models.bat, previous.bat), Then(MeshDraw(looks.floor, models.floor, previous.floor),
    Then(MeshDraw(looks.walls, models.walls, previous.walls), Then(MeshDraw(looks.columns, models.columns, previous.columns), Done))))
  }

  /** The first part of `ReflectionDraw`: bat, walls and columns drawn as usual. */
  function UnmirroredSteps(looks: SceneLooks, models: SceneMats, previous: SceneMats): Steps
  {
    Then(MeshDraw(looks.bat, models.bat, previous.bat), Then(MeshDraw(looks.walls, models.walls, previous.walls),
    Then(MeshDraw(looks.columns, models.columns, previous.columns), Done)))
  }

  /** The mirror: the floor marks the stencil without writing depth. */
  function MirrorSteps(floor: DrawableLook, model: Mat, previous: Mat): Steps
  {
    Then(Fixed(ReflectiveSetup()), Then(MeshDraw(floor, model, previous), Done))
  }

  /** The reflection: the bat, with model matrix `mirrored`, drawn blended
      where the stencil is marked; then blending and the stencil test off. */
  function MirroredSteps(bat: DrawableLook, mirrored: Mat, previous: Mat): Steps
  {
    Then(Fixed(ReflectionSetup()), Then(MeshDraw(bat, mirrored, previous), Then(Fixed(EndReflectionCalls()), Done)))
  }

  /** `ReflectionDraw`: bat, walls, columns, then the floor as the mirror
      and the bat mirrored with model matrix `mirrored`; the mirrored bat's
      previous MVP is `batMvp`, the one its first draw just stored. */
  function ReflectionDrawSteps(looks: SceneLooks, models: SceneMats, previous: SceneMats, mirrored: Mat, batMvp: Mat): Steps
  {
    Concat(Concat(UnmirroredSteps(looks, models, previous), MirrorSteps(looks.floor, models.floor, previous.floor)),
      MirroredSteps(looks.bat, mirrored, batMvp))
  }

  /** The scene for effect `e`: the reflection draw for REFLECTION, the
      normal draw otherwise. */
  function SceneSteps(e: Effect, projection: Mat, view: Mat, looks: SceneLooks, models: SceneMats, previous: SceneMats,
                      mirrored: Mat): Steps
  {
    if e == Reflection then ReflectionDrawSteps(looks, models, previous, mirrored, Product(Product(projection, view), models.bat))
    else NormalDrawSteps(looks, models, previous)
  }

  /** Two steps issue the calls of the first, then those of the second. */
  lemma StepsCallsTwo(a: Step, b: Step, projection: Mat, view: Mat, lights: LightValues)
    ensures StepsCalls(Then(a, Then(b, Done)), projection, view, lights)
         == StepCalls(a, projection, view, lights) + StepCalls(b, projection, view, lights)
  {
    var calls := StepCalls(b, projection, view, lights);
    assert StepsCalls(Then(b, Done), projection, view, lights) == calls + [] == calls;
  }

  /** Three steps issue their calls in order. */
  lemma StepsCallsThree(a: Step, b: Step, c: Step, projection: Mat, view: Mat, lights: LightValues)
    ensures StepsCalls(Then(a, Then(b, Then(c, Done))), projection, view, lights)
         == StepCalls(a, projection, view, lights) + StepCalls(b, projection, view, lights) + StepCalls(c, projection, view, lights)
  {
    StepsCallsTwo(b, c, projection, view, lights);
    AppendAssociative(StepCalls(a, projection, view, lights), StepCalls(b, projection, view, lights), StepCalls(c, projection, view, lights));
  }

  /** Four steps issue their calls in order. */
  lemma StepsCallsFour(a: Step, b: Step, c: Step, d: Step, projection: Mat, view: Mat, lights: LightValues)
    ensures StepsCalls(Then(a, Then(b, Then(c, Then(d, Done)))), projection, view, lights)
         == StepCalls(a, projection, view, lights) + StepCalls(b, projection, view, lights)
          + StepCalls(c, projection, view, lights) + StepCalls(d, projection, view, lights)
  {
    StepsCallsThree(b, c, d, projection, view, lights);
    var first := StepCalls(a, projection, view, lights);
    var second := StepCalls(b, projection, view, lights);
    var third := StepCalls(c, projection, view, lights);
    var fourth := StepCalls(d, projection, view, lights);
    AppendAssociative(first, second + third, fourth);
    AppendAssociative(first, second, third);
  }

  /** Drawing two runs of steps one after the other issues the calls of
      both. */
  lemma {:induction false} StepsCallsConcat(first: Steps, second: Steps, projection: Mat, view: Mat, lights: LightValues)
    ensures StepsCalls(Concat(first, second), projection, view, lights)
         == StepsCalls(first, projection, view, lights) + StepsCalls(second, projection, view, lights)
  {
    match first
    case Done =>
      var calls := StepsCalls(second, projection, view, lights);
      assert [] + calls == calls;
    case Then(step, rest) =>
      StepsCallsConcat(rest, second, projection, view, lights);
      AppendAssociative(StepCalls(step, projection, view, lights), StepsCalls(rest, projection, view, lights),
        StepsCalls(second, projection, view, lights));
  }

  /** Four appends one after the other are one append of the four parts. */
  lemma ChainFour(l0: seq<Call>, l1: seq<Call>, l2: seq<Call>, l3: seq<Call>, l4: seq<Call>,
                  d1: seq<Call>, d2: seq<Call>, d3: seq<Call>, d4: seq<Call>)
    requires l1 == l0 + d1 && l2 == l1 + d2 && l3 == l2 + d3 && l4 == l3 + d4
    ensures l4 == l0 + (d1 + d2 + d3 + d4)
  {
  }

  /** Three appends one after the other are one append of the three parts. */
  lemma ChainThree(l0: seq<Call>, l1: seq<Call>, l2: seq<Call>, l3: seq<Call>,
                   d1: seq<Call>, d2: seq<Call>, d3: seq<Call>)
    requires l1 == l0 + d1 && l2 == l1 + d2 && l3 == l2 + d3
    ensures l3 == l0 + (d1 + d2 + d3)
  {
  }

  /** A draw of a mesh that looks like `look`: its program and its index
      count, rasterised with `r`. */
  predicate Drew(d: DrawRecord, look: DrawableLook, r: Raster)
  {
    d.program == look.program && d.vertices == look.indexCount && d.raster == r
  }

  /** Drawing one mesh adds one draw of that mesh, rasterised with the
      raster state as it was, and keeps the raster state. */
  lemma MeshDrawRecord(s: GlState, look: DrawableLook, model: Mat, previous: Mat, projection: Mat, view: Mat,
                       lights: LightValues)
    ensures var t := Run(s, StepCalls(MeshDraw(look, model, previous), projection, view, lights));
      |t.draws| == |s.draws| + 1 && t.draws[..|s.draws|] == s.draws && Drew(t.draws[|s.draws|], look, s.raster) &&
      t.raster == s.raster
  {
    DrawCallsEffect(s, look.program, look.ids, lights, view, model, Product(Product(projection, view), model), previous,
      look.textures, look.textureIDs, look.buffers, look.indexCount);
  }

  /** Two mesh draws in a row add two draws, of those meshes in that
      order, with the raster state as it was, which they keep. */
  lemma TwoDrawRecords(s: GlState, a: DrawableLook, ma: Mat, pa: Mat, b: DrawableLook, mb: Mat, pb: Mat,
                       projection: Mat, view: Mat, lights: LightValues)
    ensures var t := Run(s, StepsCalls(Then(MeshDraw(a, ma, pa), Then(MeshDraw(b, mb, pb), Done)), projection, view, lights));
      var n := |s.draws|;
      |t.draws| == n + 2 && t.draws[..n] == s.draws && t.raster == s.raster &&
      Drew(t.draws[n], a, s.raster) && Drew(t.draws[n + 1], b, s.raster)
  {
    var ca := StepCalls(MeshDraw(a, ma, pa), projection, view, lights);
    var cb := StepCalls(MeshDraw(b, mb, pb), projection, view, lights);
    StepsCallsTwo(MeshDraw(a, ma, pa), MeshDraw(b, mb, pb), projection, view, lights);
    RunAppend(s, ca, cb);
    MeshDrawRecord(s, a, ma, pa, projection, view, lights);
    MeshDrawRecord(Run(s, ca), b, mb, pb, projection, view, lights);
  }

  /** Three mesh draws in a row add three draws, of those meshes in that
      order, with the raster state as it was, which they keep. */
  lemma ThreeDrawRecords(s: GlState, a: DrawableLook, ma: Mat, pa: Mat, b: DrawableLook, mb: Mat, pb: Mat,
                         c: DrawableLook, mc: Mat, pc: Mat, projection: Mat, view: Mat, lights: LightValues)
    ensures var t := Run(s, StepsCalls(Then(MeshDraw(a, ma, pa), Then(MeshDraw(b, mb, pb), Then(MeshDraw(c, mc, pc), Done))),
                                       projection, view, lights));
      var n := |s.draws|;
      |t.draws| == n + 3 && t.draws[..n] == s.draws && t.raster == s.raster &&
      Drew(t.draws[n], a, s.raster) && Drew(t.draws[n + 1], b, s.raster) && Drew(t.draws[n + 2], c, s.raster)
  {
    var ca := StepCalls(MeshDraw(a, ma, pa), projection, view, lights);
    var rest := Then(MeshDraw(b, mb, pb), Then(MeshDraw(c, mc, pc), Done));
    RunAppend(s, ca, StepsCalls(rest, projection, view, lights));
    MeshDrawRecord(s, a, ma, pa, projection, view, lights);
    TwoDrawRecords(Run(s, ca), b, mb, pb, c, mc, pc, projection, view, lights);
  }

  /** The normal draw adds four draws, of the bat, the floor, the walls and
      the columns in that order, all with the raster state the frame
      started with, which it keeps. */
  lemma NormalDrawRecords(s: GlState, looks: SceneLooks, models: SceneMats, previous: SceneMats,
                          projection: Mat, view: Mat, lights: LightValues)
    ensures var t := Run(s, StepsCalls(NormalDrawSteps(looks, models, previous), projection, view, lights));
      var n := |s.draws|;
      |t.draws| == n + 4 && t.draws[..n] == s.draws && t.raster == s.raster &&
      Drew(t.draws[n], looks.bat, s.raster) && Drew(t.draws[n + 1], looks.floor, s.raster) &&
      Drew(t.draws[n + 2], looks.walls, s.raster) && Drew(t.draws[n + 3], looks.columns, s.raster)
  {
    var first := StepCalls(MeshDraw(looks.bat, models.bat, previous.bat), projection, view, lights);
    var rest := Then(MeshDraw(looks.floor, models.floor, previous.floor), Then(MeshDraw(looks.walls, models.walls, previous.walls),
      Then(MeshDraw(looks.columns, models.columns, previous.columns), Done)));
    RunAppend(s, first, StepsCalls(rest, projection, view, lights));
    MeshDrawRecord(s, looks.bat, models.bat, previous.bat, projection, view, lights);
    ThreeDrawRecords(Run(s, first), looks.floor, models.floor, previous.floor, looks.walls, models.walls, previous.walls,
      looks.columns, models.columns, previous.columns, projection, view, lights);
  }

  /** The unmirrored part of the reflection draw adds three draws, of the
      bat, the walls and the columns, with the raster state as it was. */
  lemma UnmirroredRecords(s: GlState, looks: SceneLooks, models: SceneMats, previous: SceneMats,
                          projection: Mat, view: Mat, lights: LightValues)
    ensures var t := Run(s, StepsCalls(UnmirroredSteps(looks, models, previous), projection, view, lights));
      var n := |s.draws|;
      |t.draws| == n + 3 && t.draws[..n] == s.draws && t.raster == s.raster &&
      Drew(t.draws[n], looks.bat, s.raster) && Drew(t.draws[n + 1], looks.walls, s.raster) &&
      Drew(t.draws[n + 2], looks.columns, s.raster)
  {
    ThreeDrawRecords(s, looks.bat, models.bat, previous.bat, looks.walls, models.walls, previous.walls,
      looks.columns, models.columns, previous.columns, projection, view, lights);
  }

  /** The mirror adds one draw of the floor, rasterised to mark the
      stencil without writing depth, and leaves that raster state on. */
  lemma MirrorRecords(s: GlState, floor: DrawableLook, model: Mat, previous: Mat,
                      projection: Mat, view: Mat, lights: LightValues)
    ensures var t := Run(s, StepsCalls(MirrorSteps(floor, model, previous), projection, view, lights));
      var n := |s.draws|;
      |t.draws| == n + 1 && t.draws[..n] == s.draws && t.raster == Marking(s.raster) &&
      Drew(t.draws[n], floor, Marking(s.raster))
  {
    var a := Fixed(ReflectiveSetup());
    var b := MeshDraw(floor, model, previous);
    StepsCallsTwo(a, b, projection, view, lights);
    RunAppend(s, ReflectiveSetup(), StepCalls(b, projection, view, lights));
    ReflectiveSetupEffect(s);
    MeshDrawRecord(Run(s, ReflectiveSetup()), floor, model, previous, projection, view, lights);
  }

  /** The reflection adds one draw of the bat, rasterised masked by the
      stencil and blended, then turns blending and the stencil test off. */
  lemma MirroredRecords(s: GlState, bat: DrawableLook, mirrored: Mat, previous: Mat,
                        projection: Mat, view: Mat, lights: LightValues)
    ensures var t := Run(s, StepsCalls(MirroredSteps(bat, mirrored, previous), projection, view, lights));
      var n := |s.draws|;
      |t.draws| == n + 1 && t.draws[..n] == s.draws && t.raster == Unmasked(Masked(s.raster)) &&
      Drew(t.draws[n], bat, Masked(s.raster))
  {
    var a := Fixed(ReflectionSetup());
    var b := MeshDraw(bat, mirrored, previous);
    var c := Fixed(EndReflectionCalls());
    var cb := StepCalls(b, projection, view, lights);
    StepsCallsThree(a, b, c, projection, view, lights);
    RunAppend(s, ReflectionSetup() + cb, EndReflectionCalls());
    RunAppend(s, ReflectionSetup(), cb);
    ReflectionSetupEffect(s);
    var s1 := Run(s, ReflectionSetup());
    MeshDrawRecord(s1, bat, mirrored, previous, projection, view, lights);
    EndReflectionEffect(Run(s1, cb));
  }

  /** The mirror and the reflection add two draws: the floor marking the
      stencil, then the mirrored bat where the floor marked it. */
  lemma ReflectedRecords(s: GlState, floor: DrawableLook, model: Mat, previous: Mat, bat: DrawableLook, mirrored: Mat,
                         batMvp: Mat, projection: Mat, view: Mat, lights: LightValues)
    ensures var t := Run(s, StepsCalls(Concat(MirrorSteps(floor, model, previous), MirroredSteps(bat, mirrored, batMvp)),
                                       projection, view, lights));
      var n := |s.draws|;
      var marking := Marking(s.raster);
      |t.draws| == n + 2 && t.draws[..n] == s.draws && t.raster == Unmasked(Masked(marking)) &&
      Drew(t.draws[n], floor, marking) && Drew(t.draws[n + 1], bat, Masked(marking))
  {
    var first := MirrorSteps(floor, model, previous);
    var second := MirroredSteps(bat, mirrored, batMvp);
    var c1 := StepsCalls(first, projection, view, lights);
    StepsCallsConcat(first, second, projection, view, lights);
    RunAppend(s, c1, StepsCalls(second, projection, view, lights));
    MirrorRecords(s, floor, model, previous, projection, view, lights);
    MirroredRecords(Run(s, c1), bat, mirrored, batMvp, projection, view, lights);
  }

  /** The reflection draw adds five draws: the bat, the walls and the
      columns with the frame's raster state, the floor marking the stencil,
      and the mirrored bat where the floor marked it; blending and the
      stencil test are off again at the end. */
  lemma ReflectionDrawRecords(s: GlState, looks: SceneLooks, models: SceneMats, previous: SceneMats, mirrored: Mat,
                              batMvp: Mat, projection: Mat, view: Mat, lights: LightValues)
    ensures var t := Run(s, StepsCalls(ReflectionDrawSteps(looks, models, previous, mirrored, batMvp), projection, view, lights));
      var n := |s.draws|;
      var marking := Marking(s.raster);
      |t.draws| == n + 5 && t.draws[..n] == s.draws && t.raster == Unmasked(Masked(marking)) &&
      Drew(t.draws[n], looks.bat, s.raster) && Drew(t.draws[n + 1], looks.walls, s.raster) &&
      Drew(t.draws[n + 2], looks.columns, s.raster) && Drew(t.draws[n + 3], looks.floor, marking) &&
      Drew(t.draws[n + 4], looks.bat, Masked(marking))
  {
    var first := UnmirroredSteps(looks, models, previous);
    var second := MirrorSteps(looks.floor, models.floor, previous.floor);
    var third := MirroredSteps(looks.bat, mirrored, batMvp);
    var c1 := StepsCalls(first, projection, view, lights);
    ConcatAssociative(first, second, third);
    StepsCallsConcat(first, Concat(second, third), projection, view, lights);
    RunAppend(s, c1, StepsCalls(Concat(second, third), projection, view, lights));
    UnmirroredRecords(s, looks, models, previous, projection, view, lights);
    ReflectedRecords(Run(s, c1), looks.floor, models.floor, previous.floor, looks.bat, mirrored, batMvp, projection, view, lights);
  }

  /** Concatenating runs of steps is associative. */
  lemma {:induction false} ConcatAssociative(a: Steps, b: Steps, c: Steps)
    ensures Concat(Concat(a, b), c) == Concat(a, Concat(b, c))
  {
    match a
    case Done =>
    case Then(_, rest) => ConcatAssociative(rest, b, c);
  }

  /** Draws with raster state `r` go to framebuffer `fb` with depth testing on. */
  predicate Lands(r: Raster, fb: Handle)
  {
    r.framebuffer == fb && DepthTest in r.capabilities
  }

  /** The normal draw's draws all land where the frame's raster state does. */
  lemma NormalLands(pre: GlState, looks: SceneLooks, models: SceneMats, previous: SceneMats,
                    projection: Mat, view: Mat, lights: LightValues, fb: Handle)
    requires Lands(pre.raster, fb)
    ensures var t := Run(pre, StepsCalls(NormalDrawSteps(looks, models, previous), projection, view, lights));
      var n := |pre.draws|;
      |t.draws| == n + 4 && t.draws[..n] == pre.draws && forall i :: n <= i < |t.draws| ==> Lands(t.draws[i].raster, fb)
  {
    NormalDrawRecords(pre, looks, models, previous, projection, view, lights);
    var t := Run(pre, StepsCalls(NormalDrawSteps(looks, models, previous), projection, view, lights));
    var n := |pre.draws|;
    forall i | n <= i < |t.draws|
      ensures Lands(t.draws[i].raster, fb)
    {
      assert i == n || i == n + 1 || i == n + 2 || i == n + 3;
    }
  }

  /** The reflection draw's draws, the mirror and the reflection included,
      all land where the frame's raster state does. */
  lemma ReflectionLands(pre: GlState, looks: SceneLooks, models: SceneMats, previous: SceneMats, mirrored: Mat,
                        batMvp: Mat, projection: Mat, view: Mat, lights: LightValues, fb: Handle)
    requires Lands(pre.raster, fb)
    ensures var t := Run(pre, StepsCalls(ReflectionDrawSteps(looks, models, previous, mirrored, batMvp), projection, view, lights));
      var n := |pre.draws|;
      |t.draws| == n + 5 && t.draws[..n] == pre.draws && forall i :: n <= i < |t.draws| ==> Lands(t.draws[i].raster, fb)
  {
    ReflectionDrawRecords(pre, looks, models, previous, mirrored, batMvp, projection, view, lights);
    var t := Run(pre, StepsCalls(ReflectionDrawSteps(looks, models, previous, mirrored, batMvp), projection, view, lights));
    var n := |pre.draws|;
    forall i | n <= i < |t.draws|
      ensures Lands(t.draws[i].raster, fb)
    {
      assert i == n || i == n + 1 || i == n + 2 || i == n + 3 || i == n + 4;
    }
  }

  /** Whichever scene the effect selects, its draws land where the frame's
      raster state does. */
  lemma SceneLands(pre: GlState, e: Effect, projection: Mat, view: Mat, looks: SceneLooks, models: SceneMats,
                   previous: SceneMats, mirrored: Mat, lights: LightValues, fb: Handle)
    requires Lands(pre.raster, fb)
    ensures var t := Run(pre, StepsCalls(SceneSteps(e, projection, view, looks, models, previous, mirrored), projection, view, lights));
      var n := |pre.draws|;
      |t.draws| == n + (if e == Reflection then 5 else 4) && t.draws[..n] == pre.draws &&
      forall i :: n <= i < |t.draws| ==> Lands(t.draws[i].raster, fb)
  {
    if e == Reflection {
      ReflectionLands(pre, looks, models, previous, mirrored, Product(Product(projection, view), models.bat), projection, view, lights, fb);
    } else {
      NormalLands(pre, looks, models, previous, projection, view, lights, fb);
    }
  }

  /** An effect's colour texture (and the motion blur's speed texture) and
      its depth-stencil renderbuffer have size `size`. */
  predicate ResizedTo(o: Objects, kind: PP.EffectKind, color: Handle, renderbuffer: Handle, speed: Handle, size: (int, int))
  {
    color in o.textureSize && o.textureSize[color] == size &&
    renderbuffer in o.renderbufferSize && o.renderbufferSize[renderbuffer] == size &&
    (kind == PP.MotionBlur ==> speed in o.textureSize && o.textureSize[speed] == size)
  }

  /** Resizing an effect sizes its targets, and leaves every other effect
      already at that size at it; the raster state, draws and attachments
      are untouched. */
  lemma ResizeSizes(s: GlState, kind: PP.EffectKind, color: Handle, renderbuffer: Handle, speed: Handle,
                    width: int, height: int, other: PP.EffectKind, otherColor: Handle, otherRenderbuffer: Handle, otherSpeed: Handle)
    requires renderbuffer != 0
    ensures var t := Run(s, PP.ResizeCalls(kind, color, renderbuffer, speed, width, height));
      ResizedTo(t.objects, kind, color, renderbuffer, speed, (width, height)) &&
      (ResizedTo(s.objects, other, otherColor, otherRenderbuffer, otherSpeed, (width, height)) ==>
       ResizedTo(t.objects, other, otherColor, otherRenderbuffer, otherSpeed, (width, height))) &&
      t.raster == s.raster && t.draws == s.draws && t.objects.attachments == s.objects.attachments
  {
    PP.ResizeEffect(s, kind, color, renderbuffer, speed, width, height);
  }

  /** The viewport is not part of the modelled state. */
  lemma ViewportStep(s: GlState, width: int, height: int)
    ensures Apply(s, Viewport(width, height)) == s
  {
  }

  /** The viewport and the two blurs' resizes leave both blurs' textures
      and renderbuffers at the new size. */
  lemma ResizeBlursSized(s: GlState, width: int, height: int, c1: Handle, rb1: Handle, sp1: Handle,
                         c2: Handle, rb2: Handle, sp2: Handle)
    requires rb1 != 0 && rb2 != 0
    ensures var t := Run(s, [Viewport(width, height)] + PP.ResizeCalls(PP.MotionBlur, c1, rb1, sp1, width, height)
                            + PP.ResizeCalls(PP.Plain, c2, rb2, sp2, width, height));
      ResizedTo(t.objects, PP.MotionBlur, c1, rb1, sp1, (width, height)) && ResizedTo(t.objects, PP.Plain, c2, rb2, sp2, (width, height)) &&
      t.raster == s.raster && t.draws == s.draws && t.objects.attachments == s.objects.attachments
  {
    var v := [Viewport(width, height)];
    var r1 := PP.ResizeCalls(PP.MotionBlur, c1, rb1, sp1, width, height);
    RunAppend(s, v + r1, PP.ResizeCalls(PP.Plain, c2, rb2, sp2, width, height));
    RunAppend(s, v, r1);
    RunOne(s, Viewport(width, height));
    ViewportStep(s, width, height);
    ResizeSizes(s, PP.MotionBlur, c1, rb1, sp1, width, height, PP.MotionBlur, c1, rb1, sp1);
    ResizeSizes(Run(s, v + r1), PP.Plain, c2, rb2, sp2, width, height, PP.MotionBlur, c1, rb1, sp1);
  }

  /** The viewport and the three effects' resizes leave all three effects'
      textures and renderbuffers at the new size. */
  lemma ResizeThreeSized(s: GlState, width: int, height: int, c1: Handle, rb1: Handle, sp1: Handle,
                         c2: Handle, rb2: Handle, sp2: Handle, c3: Handle, rb3: Handle, sp3: Handle)
    requires rb1 != 0 && rb2 != 0 && rb3 != 0
    ensures var t := Run(s, [Viewport(width, height)] + PP.ResizeCalls(PP.MotionBlur, c1, rb1, sp1, width, height)
                            + PP.ResizeCalls(PP.Plain, c2, rb2, sp2, width, height) + PP.ResizeCalls(PP.Dizzy, c3, rb3, sp3, width, height));
      var size := (width, height);
      ResizedTo(t.objects, PP.MotionBlur, c1, rb1, sp1, size) && ResizedTo(t.objects, PP.Plain, c2, rb2, sp2, size) &&
      ResizedTo(t.objects, PP.Dizzy, c3, rb3, sp3, size) &&
      t.raster == s.raster && t.draws == s.draws && t.objects.attachments == s.objects.attachments
  {
    var blurs := [Viewport(width, height)] + PP.ResizeCalls(PP.MotionBlur, c1, rb1, sp1, width, height)
      + PP.ResizeCalls(PP.Plain, c2, rb2, sp2, width, height);
    RunAppend(s, blurs, PP.ResizeCalls(PP.Dizzy, c3, rb3, sp3, width, height));
    ResizeBlursSized(s, width, height, c1, rb1, sp1, c2, rb2, sp2);
    ResizeSizes(Run(s, blurs), PP.Dizzy, c3, rb3, sp3, width, height, PP.MotionBlur, c1, rb1, sp1);
    ResizeSizes(Run(s, blurs), PP.Dizzy, c3, rb3, sp3, width, height, PP.Plain, c2, rb2, sp2);
  }

  /** Writes two vectors into the first six floats of `a`. */
  method StorePair(a: array<real>, first: Vec3, second: Vec3)
    requires 6 <= a.Length
    modifies a
    ensures a[..] == Flatten(first, second) + old(a[..])[6..]
  {
    a[0] := first.x;
    a[1] := first.y;
    a[2] := first.z;
    a[3] := second.x;
    a[4] := second.y;
    a[5] := second.z;
    assert a[..] == Flatten(first, second) + old(a[..])[6..];
  }

  class View {
    const gl: Context
    const bat: Mesh
    const floor: Mesh
    const walls: Mesh
    const columns: Mesh
    const lightBuffer: LightingBuffer
    const whiteLight: PointLight
    const redLight: PointLight
    const cam: Camera
    /** The motion blur, the plain (blur) and the dizzy effect. */
    const blur: PP.Postprocess
    const normalBlur: PP.Postprocess
    const dizzy: PP.Postprocess
    var actualEffect: Effect
    var totalTime: real
    var camMovementSpeed: real
    var camRotationSpeed: real
    var screenWidth: int
    var screenHeight: int

    /** The seven actors of the scene are seven different objects. */
    predicate ActorsDistinct()
    {
      bat.actor != floor.actor && bat.actor != walls.actor && bat.actor != columns.actor &&
      bat.actor != cam.actor && bat.actor != whiteLight.actor && bat.actor != redLight.actor &&
      floor.actor != walls.actor && floor.actor != columns.actor && floor.actor != cam.actor &&
      floor.actor != whiteLight.actor && floor.actor != redLight.actor &&
      walls.actor != columns.actor && walls.actor != cam.actor && walls.actor != whiteLight.actor &&
      walls.actor != redLight.actor &&
      columns.actor != cam.actor && columns.actor != whiteLight.actor && columns.actor != redLight.actor &&
      cam.actor != whiteLight.actor && cam.actor != redLight.actor &&
      whiteLight.actor != redLight.actor
    }

    /** Four different meshes, all on the view's context. */
    predicate MeshesWired()
    {
      bat.gl == gl && floor.gl == gl && walls.gl == gl && columns.gl == gl &&
      bat != floor && bat != walls && bat != columns && floor != walls && floor != columns && walls != columns
    }

    /** Three effects on the view's context, one of each kind. */
    predicate EffectsWired()
    {
      blur.gl == gl && normalBlur.gl == gl && dizzy.gl == gl &&
      blur.kind == PP.MotionBlur && normalBlur.kind == PP.Plain && dizzy.kind == PP.Dizzy
    }

    /** The fixed wiring of the scene: the meshes, seven different actors,
        two different lights and the three effects. */
    predicate Shape()
    {
      MeshesWired() && ActorsDistinct() && whiteLight != redLight && EffectsWired()
    }

    /** Every mesh has one uniform location per texture. */
    ghost predicate TexturesPaired()
      reads bat`textures, bat`textureIDs,
        floor`textures, floor`textureIDs,
        walls`textures, walls`textureIDs,
        columns`textures, columns`textureIDs
    {
      |bat.textures| == |bat.textureIDs| && |floor.textures| == |floor.textureIDs| &&
      |walls.textures| == |walls.textureIDs| && |columns.textures| == |columns.textureIDs|
    }

    /** The meshes can be drawn: the context hands out names and every mesh
        has one uniform location per texture. */
    ghost predicate MeshesReady()
      reads gl, bat`textures, bat`textureIDs, floor`textures, floor`textureIDs,
        walls`textures, walls`textureIDs, columns`textures, columns`textureIDs
    {
      gl.Valid() && TexturesPaired()
    }

    /** Three lights in three separate buffers of 9, 9 and 3 floats. */
    ghost predicate LightsSized()
      reads lightBuffer
    {
      lightBuffer.Sized()
    }

    /** Both lights keep their on/off invariant. */
    ghost predicate LightsReady()
      reads whiteLight`intensity, whiteLight`prevIntensity, whiteLight`isEnabled,
        redLight`intensity, redLight`prevIntensity, redLight`isEnabled
    {
      whiteLight.Valid() && redLight.Valid()
    }

    /** Every effect has been initialised: its framebuffer and its
        depth-stencil renderbuffer are real objects. */
    ghost predicate EffectsReady()
      reads blur`frameBuffer, blur`renderDepthStencilBuffer, normalBlur`frameBuffer, normalBlur`renderDepthStencilBuffer,
        dizzy`frameBuffer, dizzy`renderDepthStencilBuffer
    {
      blur.frameBuffer != 0 && blur.renderDepthStencilBuffer != 0 &&
      normalBlur.frameBuffer != 0 && normalBlur.renderDepthStencilBuffer != 0 &&
      dizzy.frameBuffer != 0 && dizzy.renderDepthStencilBuffer != 0
    }

    /** The view as its constructor leaves it and every frame keeps it. */
    ghost predicate Valid()
      reads gl, bat`textures, bat`textureIDs, floor`textures, floor`textureIDs,
        walls`textures, walls`textureIDs, columns`textures, columns`textureIDs, lightBuffer, lightBuffer.positionBuffer, lightBuffer.colorBuffer, lightBuffer.intensityBuffer,
        whiteLight`intensity, whiteLight`prevIntensity, whiteLight`isEnabled,
        redLight`intensity, redLight`prevIntensity, redLight`isEnabled,
        blur`frameBuffer, blur`renderDepthStencilBuffer, normalBlur`frameBuffer, normalBlur`renderDepthStencilBuffer,
        dizzy`frameBuffer, dizzy`renderDepthStencilBuffer
    {
      Shape() && MeshesReady() && LightsSized() && LightsReady() && EffectsReady()
    }

    /** The effect object that processes the scene for `e`, if any. */
    function EffectObject(e: Effect): (p: PP.Option<PP.Postprocess>)
      ensures p.Some? <==> e == MotionBlur || e == Blur || e == Dizzy
      ensures e == MotionBlur ==> p == PP.Some(blur)
      ensures e == Blur ==> p == PP.Some(normalBlur)
      ensures e == Dizzy ==> p == PP.Some(dizzy)
    {
      match e
      case MotionBlur => PP.Some(blur)
      case Blur => PP.Some(normalBlur)
      case Dizzy => PP.Some(dizzy)
      case _ => PP.None
    }

    /** Where the scene is drawn for effect `e`: the effect's framebuffer,
        or the screen. */
    function Target(e: Effect): Handle
      reads blur`frameBuffer, normalBlur`frameBuffer, dizzy`frameBuffer
    {
      match EffectObject(e)
      case Some(p) => p.frameBuffer
      case None => 0
    }

    /** The calls before the scene: the effect's `PreProcess`, or the
        default framebuffer with depth testing on. */
    function PreStageCalls(e: Effect): seq<Call>
      reads blur`frameBuffer, blur`drawingBuffers, normalBlur`frameBuffer, normalBlur`drawingBuffers,
        dizzy`frameBuffer, dizzy`drawingBuffers
    {
      match EffectObject(e)
      case Some(p) => PP.PreProcessCalls(p.frameBuffer, p.drawingBuffers)
      case None => [BindFramebuffer(0), Enable(DepthTest)]
    }

    /** The calls after the scene: the effect's `Draw`, or nothing. */
    function PostStageCalls(e: Effect): seq<Call>
      reads blur, normalBlur, dizzy
    {
      match EffectObject(e)
      case Some(p) => Composited(p)
      case None => []
    }

    /** What a draw of each mesh depends on. */
    function Looks(): SceneLooks
      requires TexturesPaired()
      reads bat`program, bat`uniformIds, bat`textures, bat`textureIDs, bat`buffers, bat`indices,
        floor`program, floor`uniformIds, floor`textures, floor`textureIDs, floor`buffers, floor`indices,
        walls`program, walls`uniformIds, walls`textures, walls`textureIDs, walls`buffers, walls`indices,
        columns`program, columns`uniformIds, columns`textures, columns`textureIDs, columns`buffers, columns`indices
    {
      SceneLooks(bat.Look(), floor.Look(), walls.Look(), columns.Look())
    }

    /** The meshes' model matrices. */
    function Models(): SceneMats
      reads bat.actor`modelMatrix, floor.actor`modelMatrix, walls.actor`modelMatrix, columns.actor`modelMatrix
    {
      SceneMats(bat.actor.modelMatrix, floor.actor.modelMatrix, walls.actor.modelMatrix, columns.actor.modelMatrix)
    }

    /** The MVP matrices each mesh remembers from its last draw. */
    function Previous(): SceneMats
      reads bat`oldMvp, floor`oldMvp, walls`oldMvp, columns`oldMvp
    {
      SceneMats(bat.oldMvp, floor.oldMvp, walls.oldMvp, columns.oldMvp)
    }

    /** The bat's model matrix with its scale mirrored in the floor plane. */
    function MirroredModel(): Mat
      reads bat.actor`pos, bat.actor`rot, bat.actor`sc
    {
      Model(bat.actor.pos, bat.actor.rot, Mirror(bat.actor.sc))
    }

    /** The calls of `Resize`: the viewport, then each effect's resize. */
    function ResizeAllCalls(width: int, height: int): seq<Call>
      reads blur`textureColor, blur`renderDepthStencilBuffer, blur`speedTexture,
        normalBlur`textureColor, normalBlur`renderDepthStencilBuffer, normalBlur`speedTexture,
        dizzy`textureColor, dizzy`renderDepthStencilBuffer, dizzy`speedTexture
    {
      [Viewport(width, height)] + Resizing(blur, width, height) + Resizing(normalBlur, width, height)
      + Resizing(dizzy, width, height)
    }

    /** The three lights the shaders receive once the buffer is filled: the
        white light, the red light, and a third whose slots keep what the
        buffer already held (zeros since `LightsInitialization`, so black
        and dark). */
    function SceneLights(): LightValues
      requires LightsSized()
      reads whiteLight.actor`pos, whiteLight`color, whiteLight`intensity, redLight.actor`pos, redLight`color, redLight`intensity,
        lightBuffer, lightBuffer.positionBuffer, lightBuffer.colorBuffer, lightBuffer.intensityBuffer
    {
      LightValues(3, Flatten(whiteLight.actor.pos, redLight.actor.pos) + lightBuffer.positionBuffer[6..],
        Flatten(whiteLight.color, redLight.color) + lightBuffer.colorBuffer[6..],
        [whiteLight.intensity, redLight.intensity] + lightBuffer.intensityBuffer[2..])
    }

    /** Before the scene the target framebuffer is bound and depth testing
        is on; draws, the program and the attributes are left alone. */
    lemma PreStageTargets(s: GlState, e: Effect)
      requires EffectsReady()
      ensures var t := Run(s, PreStageCalls(e));
        t.raster == s.raster.(framebuffer := Target(e), capabilities := s.raster.capabilities + {DepthTest}) &&
        t.draws == s.draws && t.program == s.program && t.attribs == s.attribs
    {
      match EffectObject(e)
      case Some(p) =>
        PP.PreProcessEffect(s, p.frameBuffer, p.drawingBuffers);
      case None =>
        RunAppend(s, [BindFramebuffer(0)], [Enable(DepthTest)]);
        RunOne(s, BindFramebuffer(0));
        RunOne(Apply(s, BindFramebuffer(0)), Enable(DepthTest));
        assert [BindFramebuffer(0)] + [Enable(DepthTest)] == [BindFramebuffer(0), Enable(DepthTest)];
    }

    /** A frame's scene lands where the active effect takes it: every draw
        after the pre-stage and the clear goes to `Target(e)` with depth
        testing on; there are five draws with the reflection, four without. */
    lemma SceneTargeted(s: GlState, e: Effect, projection: Mat, view: Mat, looks: SceneLooks, models: SceneMats,
                        previous: SceneMats, mirrored: Mat, lights: LightValues)
      requires EffectsReady()
      ensures var pre := Run(s, PreStageCalls(e) + [Clear(true, true, false)]);
        var t := Run(pre, StepsCalls(SceneSteps(e, projection, view, looks, models, previous, mirrored), projection, view, lights));
        var n := |s.draws|;
        |t.draws| == n + (if e == Reflection then 5 else 4) && t.draws[..n] == s.draws &&
        forall i :: n <= i < |t.draws| ==> Lands(t.draws[i].raster, Target(e))
    {
      var calls := PreStageCalls(e);
      PreStageTargets(s, e);
      RunSnoc(s, calls, Clear(true, true, false));
      ClearStep(Run(s, calls), true, true, false);
      SceneLands(Run(s, calls + [Clear(true, true, false)]), e, projection, view, looks, models, previous, mirrored, lights, Target(e));
    }

    /** After `Resize` every effect's colour texture (and the motion blur's
        speed texture) and every effect's depth-stencil renderbuffer has the
        new size; the raster state, draws and attachments are untouched. */
    lemma ResizeAllSized(s: GlState, width: int, height: int)
      requires EffectsWired() && EffectsReady()
      ensures var t := Run(s, ResizeAllCalls(width, height));
        var size := (width, height);
        ResizedTo(t.objects, blur.kind, blur.textureColor, blur.renderDepthStencilBuffer, blur.speedTexture, size) &&
        ResizedTo(t.objects, normalBlur.kind, normalBlur.textureColor, normalBlur.renderDepthStencilBuffer, normalBlur.speedTexture, size) &&
        ResizedTo(t.objects, dizzy.kind, dizzy.textureColor, dizzy.renderDepthStencilBuffer, dizzy.speedTexture, size) &&
        t.raster == s.raster && t.draws == s.draws && t.objects.attachments == s.objects.attachments
    {
      ResizeThreeSized(s, width, height, blur.textureColor, blur.renderDepthStencilBuffer, blur.speedTexture,
        normalBlur.textureColor, normalBlur.renderDepthStencilBuffer, normalBlur.speedTexture,
        dizzy.textureColor, dizzy.renderDepthStencilBuffer, dizzy.speedTexture);
    }

    /** The lighting buffer holds the white light, then the red light; the
        third light's slots are left as they are, and `numberOfLights` (3)
        lights are uploaded from the front of the buffers. */
    method CalculateLightingBuffer()
      requires LightsSized()
      modifies lightBuffer.positionBuffer, lightBuffer.colorBuffer, lightBuffer.intensityBuffer
      ensures LightsSized()
      ensures lightBuffer.positionBuffer[..] == Flatten(whiteLight.actor.pos, redLight.actor.pos) + old(lightBuffer.positionBuffer[..])[6..]
      ensures lightBuffer.colorBuffer[..] == Flatten(whiteLight.color, redLight.color) + old(lightBuffer.colorBuffer[..])[6..]
      ensures lightBuffer.intensityBuffer[..] == [whiteLight.intensity, redLight.intensity] + old(lightBuffer.intensityBuffer[..])[2..]
      ensures LightUpload(lightBuffer) == old(SceneLights())
    {
      StorePair(lightBuffer.positionBuffer, whiteLight.actor.pos, redLight.actor.pos);
      StorePair(lightBuffer.colorBuffer, whiteLight.color, redLight.color);
      var intensities := lightBuffer.intensityBuffer;
      intensities[0] := whiteLight.intensity;
      intensities[1] := redLight.intensity;
      assert intensities[..] == [whiteLight.intensity, redLight.intensity] + old(intensities[..])[2..];
    }

    /** Three lights with buffers grown to 9, 9 and 3 floats; the white
        light at (300, 200, 50) with intensity 10000, the red one at
        (-300, 200, 50), coloured (1, 0.4, 0.4), with intensity 100000. */
    method LightsInitialization()
      requires whiteLight != redLight && whiteLight.actor != redLight.actor
      requires LightsReady()
      modifies lightBuffer, whiteLight, redLight, whiteLight.actor, redLight.actor
      ensures LightsReady()
      ensures lightBuffer.numberOfLights == 3
      ensures fresh(lightBuffer.positionBuffer) && fresh(lightBuffer.colorBuffer) && fresh(lightBuffer.intensityBuffer)
      ensures lightBuffer.positionBuffer != lightBuffer.colorBuffer && lightBuffer.positionBuffer != lightBuffer.intensityBuffer
      ensures lightBuffer.colorBuffer != lightBuffer.intensityBuffer
      ensures lightBuffer.positionBuffer[..] == Grown(old(lightBuffer.positionBuffer[..]), 9)
      ensures lightBuffer.colorBuffer[..] == Grown(old(lightBuffer.colorBuffer[..]), 9)
      ensures lightBuffer.intensityBuffer[..] == Grown(old(lightBuffer.intensityBuffer[..]), 3)
      ensures whiteLight.actor.pos == Vec3(300.0, 200.0, 50.0) && whiteLight.color == Vec3(1.0, 1.0, 1.0)
      ensures whiteLight.State() == Intensified(old(whiteLight.State()), 10000.0)
      ensures redLight.actor.pos == Vec3(-300.0, 200.0, 50.0) && redLight.color == Vec3(1.0, 0.4, 0.4)
      ensures redLight.State() == Intensified(old(redLight.State()), 100000.0)
    {
      lightBuffer.numberOfLights := 3;
      var positions := Resized(lightBuffer.positionBuffer, lightBuffer.numberOfLights * 3);
      var colors := Resized(lightBuffer.colorBuffer, lightBuffer.numberOfLights * 3);
      var intensities := Resized(lightBuffer.intensityBuffer, lightBuffer.numberOfLights);
      lightBuffer.positionBuffer := positions;
      lightBuffer.colorBuffer := colors;
      lightBuffer.intensityBuffer := intensities;

      whiteLight.actor.SetPosition(300.0, 200.0, 50.0);
      whiteLight.SetColor(1.0, 1.0, 1.0);
      whiteLight.SetIntensity(10000.0);

      redLight.actor.SetPosition(-300.0, 200.0, 50.0);
      redLight.SetColor(1.0, 0.4, 0.4);
      redLight.SetIntensity(100000.0);
    }

    /** The camera sized to the screen, at (-60, -160, -230), rotated by
        (20, -10, 0), with a 45 degree field of view; movement speed 100
        and rotation speed 200 per second. */
    method CameraInitialization()
      modifies cam, cam.actor, this`camMovementSpeed, this`camRotationSpeed
      ensures cam.screenWidth == screenWidth && cam.screenHeight == screenHeight && cam.fieldOfView == 45.0
      ensures cam.actor.pos == Vec3(-60.0, -160.0, -230.0) && cam.actor.rot == Vec3(20.0, -10.0, 0.0)
      ensures cam.actor.sc == old(cam.actor.sc)
      ensures camMovementSpeed == 100.0 && camRotationSpeed == 200.0
    {
      cam.SetScreenSize(screenWidth, screenHeight);
      cam.actor.SetPosition(-60.0, -160.0, -230.0);
      cam.actor.SetRotation(20.0, -10.0, 0.0);
      cam.SetFoV(45.0);
      camMovementSpeed := 100.0;
      camRotationSpeed := 200.0;
    }

    /** The effect keys, checked Num0 .. Num4 in that order. */
    method SwitchEffect(pressed: set<Key>)
      modifies this`actualEffect
      ensures actualEffect == SelectEffect(old(actualEffect), pressed)
    {
      if Num0 in pressed {
        actualEffect := None;
      }
      if Num1 in pressed {
        actualEffect := MotionBlur;
      }
      if Num2 in pressed {
        actualEffect := Reflection;
      }
      if Num3 in pressed {
        actualEffect := Blur;
      }
      if Num4 in pressed {
        actualEffect := Dizzy;
      }
    }

    /** Camera rotation: I/K about x, J/L about y. */
    method TurnCamera(pressed: set<Key>, step: real)
      modifies cam.actor
      ensures cam.actor.rot == Add(old(cam.actor.rot), CameraTurn(pressed, step))
      ensures cam.actor.pos == old(cam.actor.pos) && cam.actor.sc == old(cam.actor.sc)
      ensures cam.actor.modelMatrix == old(cam.actor.modelMatrix)
    {
      if I in pressed {
        cam.actor.Rotate(-step, 0.0, 0.0);
      }
      if K in pressed {
        cam.actor.Rotate(step, 0.0, 0.0);
      }
      if J in pressed {
        cam.actor.Rotate(0.0, -step, 0.0);
      }
      if L in pressed {
        cam.actor.Rotate(0.0, step, 0.0);
      }
    }

    /** Camera movement: W/S along z, A/D along x, F/R along y. */
    method MoveCamera(pressed: set<Key>, step: real)
      modifies cam.actor
      ensures cam.actor.pos == Add(old(cam.actor.pos), CameraStep(pressed, step))
      ensures cam.actor.rot == old(cam.actor.rot) && cam.actor.sc == old(cam.actor.sc)
      ensures cam.actor.modelMatrix == old(cam.actor.modelMatrix)
    {
      MoveOnKeys(cam.actor, pressed, S, W, Vec3(0.0, 0.0, step));
      MoveOnKeys(cam.actor, pressed, D, A, Vec3(step, 0.0, 0.0));
      MoveOnKeys(cam.actor, pressed, R, F, Vec3(0.0, step, 0.0));
    }

    /** The bat turns about y with Left/Right. */
    method TurnBat(pressed: set<Key>, step: real)
      modifies bat.actor
      ensures bat.actor.rot == Add(old(bat.actor.rot), BatTurn(pressed, step))
      ensures bat.actor.pos == old(bat.actor.pos) && bat.actor.sc == old(bat.actor.sc)
      ensures bat.actor.modelMatrix == old(bat.actor.modelMatrix)
    {
      if Left in pressed {
        bat.actor.Rotate(0.0, -step, 0.0);
      }
      if Right in pressed {
        bat.actor.Rotate(0.0, step, 0.0);
      }
    }

    /** The white light's keys: Up, Down, then Space. */
    method LightControls(pressed: set<Key>)
      requires whiteLight.Valid()
      modifies whiteLight
      ensures whiteLight.Valid()
      ensures whiteLight.State() == LightKeys(old(whiteLight.State()), pressed)
      ensures whiteLight.color == old(whiteLight.color)
    {
      if Up in pressed {
        whiteLight.SetIntensity(whiteLight.intensity + 100.0);
      }
      if Down in pressed {
        whiteLight.SetIntensity(whiteLight.intensity - 100.0);
      }
      if Space in pressed {
        whiteLight.Switch();
      }
    }

    /** One frame's keyboard handling, with `pressed` the keys held down:
        the camera turns and moves, the bat turns, the white light reacts
        to its keys and the effect keys select the effect. */
    method Inputs(deltaTime: real, pressed: set<Key>)
      requires cam.actor != bat.actor && whiteLight.Valid()
      modifies this`actualEffect, cam.actor, bat.actor, whiteLight
      ensures whiteLight.Valid()
      ensures actualEffect == SelectEffect(old(actualEffect), pressed)
      ensures cam.actor.rot == Add(old(cam.actor.rot), CameraTurn(pressed, Scaled(camRotationSpeed, deltaTime)))
      ensures cam.actor.pos == Add(old(cam.actor.pos), CameraStep(pressed, Scaled(camMovementSpeed, deltaTime)))
      ensures bat.actor.rot == Add(old(bat.actor.rot), BatTurn(pressed, Scaled(camRotationSpeed, deltaTime)))
      ensures bat.actor.pos == old(bat.actor.pos) && bat.actor.sc == old(bat.actor.sc)
      ensures whiteLight.State() == LightKeys(old(whiteLight.State()), pressed)
      ensures whiteLight.color == old(whiteLight.color)
    {
      TurnCamera(pressed, Scaled(camRotationSpeed, deltaTime));
      MoveCamera(pressed, Scaled(camMovementSpeed, deltaTime));
      TurnBat(pressed, Scaled(camRotationSpeed, deltaTime));
      LightControls(pressed);
      SwitchEffect(pressed);
    }

    /** The dizzy effect's clock runs only while it is the active effect. */
    method DizzyClock(deltaTime: real)
      requires dizzy.kind == PP.Dizzy
      modifies dizzy`deltaTime
      ensures dizzy.deltaTime == if actualEffect == Dizzy then old(dizzy.deltaTime) + deltaTime else old(dizzy.deltaTime)
    {
      if actualEffect == Dizzy {
        dizzy.Update(deltaTime);
      }
    }

    /** Every actor's model matrix is rebuilt from its position, rotation
        and scale. */
    method UpdateActors()
      requires ActorsDistinct()
      modifies bat.actor, floor.actor, walls.actor, columns.actor, cam.actor, whiteLight.actor, redLight.actor
      ensures Current(bat.actor) && Current(floor.actor) && Current(walls.actor) && Current(columns.actor)
      ensures Current(cam.actor) && Current(whiteLight.actor) && Current(redLight.actor)
      ensures bat.actor.pos == old(bat.actor.pos) && bat.actor.rot == old(bat.actor.rot) && bat.actor.sc == old(bat.actor.sc)
      ensures cam.actor.pos == old(cam.actor.pos) && cam.actor.rot == old(cam.actor.rot)
      ensures whiteLight.actor.pos == old(whiteLight.actor.pos)
    {
      bat.Update();
      floor.Update();
      walls.Update();
      columns.Update();
      cam.Update();
      whiteLight.Update();
      redLight.Update();
    }

    /** The white light is placed opposite the camera (mirrored through
        the origin), the red light's intensity pulses between 0 and 200000
        with `wave`, the sine of the total time, and every actor's model
        matrix is rebuilt. */
    method PlaceLightsAndActors(wave: real)
      requires ActorsDistinct() && redLight.Valid()
      modifies whiteLight.actor, redLight,
        bat.actor, floor.actor, walls.actor, columns.actor, cam.actor, redLight.actor
      ensures redLight.Valid()
      ensures whiteLight.actor.pos == Neg(cam.actor.pos)
      ensures redLight.State() == Intensified(old(redLight.State()), (1.0 + wave) * 100000.0)
      ensures Current(bat.actor) && Current(floor.actor) && Current(walls.actor) && Current(columns.actor)
      ensures Current(cam.actor) && Current(whiteLight.actor) && Current(redLight.actor)
      ensures bat.actor.pos == old(bat.actor.pos) && bat.actor.rot == old(bat.actor.rot) && bat.actor.sc == old(bat.actor.sc)
      ensures cam.actor.pos == old(cam.actor.pos) && cam.actor.rot == old(cam.actor.rot)
    {
      whiteLight.actor.SetPositionVector(Neg(cam.actor.pos));
      redLight.SetIntensity((1.0 + wave) * 100000.0);
      UpdateActors();
    }

    /** One frame's update: time advances, the keys are handled, the dizzy
        effect's clock runs only while it is the active effect, the white
        light follows the camera (mirrored through the origin), the red
        light pulses with the given sine of the total time, and every
        actor's model matrix is rebuilt. */
    method Update(deltaTime: real, pressed: set<Key>, sine: real -> real)
      requires Shape() && LightsReady()
      modifies this`totalTime, this`actualEffect, dizzy`deltaTime, whiteLight, redLight,
        bat.actor, floor.actor, walls.actor, columns.actor, cam.actor, whiteLight.actor, redLight.actor
      ensures LightsReady()
      ensures totalTime == old(totalTime) + deltaTime
      ensures actualEffect == SelectEffect(old(actualEffect), pressed)
      ensures dizzy.deltaTime == if actualEffect == Dizzy then old(dizzy.deltaTime) + deltaTime else old(dizzy.deltaTime)
      ensures cam.actor.rot == Add(old(cam.actor.rot), CameraTurn(pressed, Scaled(camRotationSpeed, deltaTime)))
      ensures cam.actor.pos == Add(old(cam.actor.pos), CameraStep(pressed, Scaled(camMovementSpeed, deltaTime)))
      ensures bat.actor.rot == Add(old(bat.actor.rot), BatTurn(pressed, Scaled(camRotationSpeed, deltaTime)))
      ensures bat.actor.pos == old(bat.actor.pos) && bat.actor.sc == old(bat.actor.sc)
      ensures whiteLight.State() == LightKeys(old(whiteLight.State()), pressed)
      ensures whiteLight.actor.pos == Neg(cam.actor.pos)
      ensures redLight.State() == Intensified(old(redLight.State()), (1.0 + sine(totalTime)) * 100000.0)
      ensures Current(bat.actor) && Current(floor.actor) && Current(walls.actor) && Current(columns.actor)
      ensures Current(cam.actor) && Current(whiteLight.actor) && Current(redLight.actor)
    {
      Advance(deltaTime, pressed);
      PlaceLightsAndActors(sine(totalTime));
    }

    /** The first half of a frame's update: time advances, the keys are
        handled and the dizzy effect's clock runs while it is active. */
    method Advance(deltaTime: real, pressed: set<Key>)
      requires cam.actor != bat.actor && whiteLight.Valid() && dizzy.kind == PP.Dizzy
      modifies this`totalTime, this`actualEffect, dizzy`deltaTime, cam.actor, bat.actor, whiteLight
      ensures whiteLight.Valid()
      ensures totalTime == old(totalTime) + deltaTime
      ensures actualEffect == SelectEffect(old(actualEffect), pressed)
      ensures dizzy.deltaTime == if actualEffect == Dizzy then old(dizzy.deltaTime) + deltaTime else old(dizzy.deltaTime)
      ensures cam.actor.rot == Add(old(cam.actor.rot), CameraTurn(pressed, Scaled(camRotationSpeed, deltaTime)))
      ensures cam.actor.pos == Add(old(cam.actor.pos), CameraStep(pressed, Scaled(camMovementSpeed, deltaTime)))
      ensures bat.actor.rot == Add(old(bat.actor.rot), BatTurn(pressed, Scaled(camRotationSpeed, deltaTime)))
      ensures bat.actor.pos == old(bat.actor.pos) && bat.actor.sc == old(bat.actor.sc)
      ensures whiteLight.State() == LightKeys(old(whiteLight.State()), pressed)
    {
      totalTime := totalTime + deltaTime;
      Inputs(deltaTime, pressed);
      DizzyClock(deltaTime);
    }

    /** The screen size, the camera's aspect, the viewport and every
        effect's render targets follow the new size. */
    method Resize(width: int, height: int)
      requires EffectsWired() && gl.Valid()
      modifies this`screenWidth, this`screenHeight, cam, blur`viewHeight, normalBlur`viewHeight, dizzy`viewHeight, gl
      ensures gl.Valid() && gl.nextName == old(gl.nextName)
      ensures screenWidth == width && screenHeight == height
      ensures cam.screenWidth == width && cam.screenHeight == height && cam.fieldOfView == old(cam.fieldOfView)
      ensures dizzy.viewHeight == height
      ensures gl.log == old(gl.log) + ResizeAllCalls(width, height)
    {
      screenWidth := width;
      screenHeight := height;
      cam.SetScreenSize(screenWidth, screenHeight);

      ghost var l0 := gl.log;
      gl.Issue(Viewport(width, height));
      ghost var l1 := gl.log;
      blur.Resize(width, height);
      ghost var l2 := gl.log;
      normalBlur.Resize(width, height);
      ghost var l3 := gl.log;
      dizzy.Resize(width, height);
      ChainFour(l0, l1, l2, l3, gl.log, [Viewport(width, height)], Resizing(blur, width, height),
        Resizing(normalBlur, width, height), Resizing(dizzy, width, height));
    }

    /** No effect active; each effect initialised with its shaders at the
        screen size. */
    method PostProcessInitialization()
      requires EffectsWired() && gl.Valid()
      modifies this`actualEffect, blur, normalBlur, dizzy, gl
      ensures gl.Valid() && EffectsReady()
      ensures actualEffect == None
      ensures gl.log == old(gl.log)
        + (Initialized(blur, MOTION_BLUR_VERTEX, MOTION_BLUR_FRAGMENT, screenWidth, screenHeight)
        + Initialized(normalBlur, BLUR_VERTEX, BLUR_FRAGMENT, screenWidth, screenHeight))
        + Initialized(dizzy, DIZZY_VERTEX, DIZZY_FRAGMENT, screenWidth, screenHeight)
    {
      actualEffect := None;
      InitializeBlurs();
      dizzy.Initialize(DIZZY_VERTEX, DIZZY_FRAGMENT, screenWidth, screenHeight);
    }

    /** The first two effects of `PostProcessInitialization`. */
    method InitializeBlurs()
      requires EffectsWired() && gl.Valid()
      modifies blur, normalBlur, gl
      ensures gl.Valid()
      ensures blur.frameBuffer != 0 && blur.renderDepthStencilBuffer != 0
      ensures normalBlur.frameBuffer != 0 && normalBlur.renderDepthStencilBuffer != 0
      ensures gl.log == old(gl.log)
        + (Initialized(blur, MOTION_BLUR_VERTEX, MOTION_BLUR_FRAGMENT, screenWidth, screenHeight)
        + Initialized(normalBlur, BLUR_VERTEX, BLUR_FRAGMENT, screenWidth, screenHeight))
    {
      assert blur != normalBlur;
      ghost var log := gl.log;
      blur.Initialize(MOTION_BLUR_VERTEX, MOTION_BLUR_FRAGMENT, screenWidth, screenHeight);
      ghost var first := Initialized(blur, MOTION_BLUR_VERTEX, MOTION_BLUR_FRAGMENT, screenWidth, screenHeight);
      AppendAssociative(log, blur.BaseInitCalls(MOTION_BLUR_VERTEX, MOTION_BLUR_FRAGMENT, screenWidth, screenHeight), PP.ExtraQueries(blur.kind, blur.program));
      normalBlur.Initialize(BLUR_VERTEX, BLUR_FRAGMENT, screenWidth, screenHeight);
      ghost var second := Initialized(normalBlur, BLUR_VERTEX, BLUR_FRAGMENT, screenWidth, screenHeight);
      AppendAssociative(log + first, normalBlur.BaseInitCalls(BLUR_VERTEX, BLUR_FRAGMENT, screenWidth, screenHeight), PP.ExtraQueries(normalBlur.kind, normalBlur.program));
      AppendAssociative(log, first, second);
      assert Initialized(blur, MOTION_BLUR_VERTEX, MOTION_BLUR_FRAGMENT, screenWidth, screenHeight) == first;
    }

    /** Before the scene: the active effect's `PreProcess`, or the screen
        with depth testing on. */
    method PreProcessStage()
      requires EffectsWired() && gl.Valid()
      modifies gl
      ensures gl.Valid() && gl.nextName == old(gl.nextName)
      ensures gl.log == old(gl.log) + old(PreStageCalls(actualEffect))
    {
      match actualEffect
      case MotionBlur => blur.PreProcess();
      case Blur => normalBlur.PreProcess();
      case Dizzy => dizzy.PreProcess();
      case _ =>
        gl.IssueAll([BindFramebuffer(0), Enable(DepthTest)]);
    }

    /** After the scene: the active effect's `Draw`, or nothing. */
    method CompositeStage()
      requires EffectsWired() && gl.Valid()
      modifies gl
      ensures gl.Valid() && gl.nextName == old(gl.nextName)
      ensures gl.log == old(gl.log) + PostStageCalls(actualEffect)
    {
      match actualEffect
      case MotionBlur => blur.Draw();
      case Blur => normalBlur.Draw();
      case Dizzy => dizzy.Draw();
      case _ =>
    }

    /** Next draws mark the stencil and leave depth alone. */
    method PrepareReflectiveDraws()
      requires gl.Valid()
      modifies gl
      ensures gl.Valid() && gl.nextName == old(gl.nextName)
      ensures gl.log == old(gl.log) + ReflectiveSetup()
    {
      gl.IssueAll(ReflectiveSetup());
    }

    /** Next draws are masked by the stencil and blended. */
    method PrepareReflectionDraws()
      requires gl.Valid()
      modifies gl
      ensures gl.Valid() && gl.nextName == old(gl.nextName)
      ensures gl.log == old(gl.log) + ReflectionSetup()
    {
      gl.IssueAll(ReflectionSetup());
    }

    /** Blending and the stencil test off. */
    method EndReflection()
      requires gl.Valid()
      modifies gl
      ensures gl.Valid() && gl.nextName == old(gl.nextName)
      ensures gl.log == old(gl.log) + EndReflectionCalls()
    {
      gl.IssueAll(EndReflectionCalls());
    }

    /** Draws `mesh` with the bat's scale mirrored, then sets its scale to
        the bat's mirrored once more: the bat, the mesh it is called with,
        gets its scale back; any other mesh would keep the bat's mirrored
        scale. */
    method DrawMeshReflection(mesh: Mesh, projection: Mat, view: Mat, lights: LightValues)
      requires mesh.gl == gl && mesh.Valid()
      modifies mesh`mvp, mesh`oldMvp, mesh.actor, gl
      ensures mesh.Valid() && gl.nextName == old(gl.nextName)
      ensures mesh.actor.sc == if mesh.actor == bat.actor then old(mesh.actor.sc) else Mirror(old(bat.actor.sc))
      ensures mesh.actor.pos == old(mesh.actor.pos) && mesh.actor.rot == old(mesh.actor.rot)
      ensures mesh.actor.modelMatrix == Model(mesh.actor.pos, mesh.actor.rot, Mirror(old(bat.actor.sc)))
      ensures mesh.oldMvp == Product(Product(projection, view), mesh.actor.modelMatrix)
      ensures gl.log == old(gl.log) + Drawn(mesh.Look(), projection, view, lights, mesh.actor.modelMatrix, old(mesh.oldMvp))
    {
      var scale := bat.actor.GetScale();
      mesh.actor.SetScale(scale.x, -scale.y, scale.z);
      mesh.Update();
      mesh.Draw(projection, view, lights);
      scale := bat.actor.GetScale();
      mesh.actor.SetScale(scale.x, -scale.y, scale.z);
    }

    /** Bat, floor, walls and columns, each with its own model matrix and
        its previous MVP; each remembers its new MVP. */
    method NormalDraw(projection: Mat, view: Mat, lights: LightValues)
      requires MeshesWired() && MeshesReady()
      modifies gl, bat`mvp, bat`oldMvp, floor`mvp, floor`oldMvp, walls`mvp, walls`oldMvp, columns`mvp, columns`oldMvp
      ensures MeshesReady() && gl.nextName == old(gl.nextName)
      ensures gl.log == old(gl.log) + StepsCalls(NormalDrawSteps(Looks(), Models(), old(Previous())), projection, view, lights)
      ensures bat.oldMvp == Product(Product(projection, view), bat.actor.modelMatrix)
      ensures floor.oldMvp == Product(Product(projection, view), floor.actor.modelMatrix)
      ensures walls.oldMvp == Product(Product(projection, view), walls.actor.modelMatrix)
      ensures columns.oldMvp == Product(Product(projection, view), columns.actor.modelMatrix)
    {
      ghost var l0 := gl.log;
      bat.Draw(projection, view, lights);
      ghost var l1 := gl.log;
      floor.Draw(projection, view, lights);
      ghost var l2 := gl.log;
      walls.Draw(projection, view, lights);
      ghost var l3 := gl.log;
      columns.Draw(projection, view, lights);
      ChainFour(l0, l1, l2, l3, gl.log, l1[|l0|..], l2[|l1|..], l3[|l2|..], gl.log[|l3|..]);
      ghost var looks, models, previous := Looks(), Models(), old(Previous());
      StepsCallsFour(MeshDraw(looks.bat, models.bat, previous.bat), MeshDraw(looks.floor, models.floor, previous.floor),
        MeshDraw(looks.walls, models.walls, previous.walls), MeshDraw(looks.columns, models.columns, previous.columns),
        projection, view, lights);
    }

    /** The first part of `ReflectionDraw`: bat, walls and columns, each
        remembering its new MVP. */
    method DrawUnmirrored(projection: Mat, view: Mat, lights: LightValues)
      requires MeshesWired() && MeshesReady()
      modifies gl, bat`mvp, bat`oldMvp, walls`mvp, walls`oldMvp, columns`mvp, columns`oldMvp
      ensures MeshesReady() && gl.nextName == old(gl.nextName)
      ensures gl.log == old(gl.log) + StepsCalls(UnmirroredSteps(Looks(), Models(), old(Previous())), projection, view, lights)
      ensures bat.oldMvp == Product(Product(projection, view), bat.actor.modelMatrix)
      ensures walls.oldMvp == Product(Product(projection, view), walls.actor.modelMatrix)
      ensures columns.oldMvp == Product(Product(projection, view), columns.actor.modelMatrix)
    {
      ghost var l0 := gl.log;
      bat.Draw(projection, view, lights);
      ghost var l1 := gl.log;
      walls.Draw(projection, view, lights);
      ghost var l2 := gl.log;
      columns.Draw(projection, view, lights);
      ChainThree(l0, l1, l2, gl.log, l1[|l0|..], l2[|l1|..], gl.log[|l2|..]);
      ghost var looks, models, previous := Looks(), Models(), old(Previous());
      StepsCallsThree(MeshDraw(looks.bat, models.bat, previous.bat),
        MeshDraw(looks.walls, models.walls, previous.walls), MeshDraw(looks.columns, models.columns, previous.columns),
        projection, view, lights);
    }

    /** The mirror: the stencil is marked where the floor is drawn. */
    method DrawMirror(projection: Mat, view: Mat, lights: LightValues)
      requires floor.gl == gl && floor.Valid()
      modifies gl, floor`mvp, floor`oldMvp
      ensures floor.Valid() && gl.nextName == old(gl.nextName)
      ensures gl.log == old(gl.log) + StepsCalls(MirrorSteps(floor.Look(), floor.actor.modelMatrix, old(floor.oldMvp)), projection, view, lights)
      ensures floor.oldMvp == Product(Product(projection, view), floor.actor.modelMatrix)
    {
      ghost var l0 := gl.log;
      PrepareReflectiveDraws();
      ghost var l1 := gl.log;
      floor.Draw(projection, view, lights);
      AppendAssociative(l0, ReflectiveSetup(), gl.log[|l1|..]);
      StepsCallsTwo(Fixed(ReflectiveSetup()), MeshDraw(floor.Look(), floor.actor.modelMatrix, old(floor.oldMvp)),
        projection, view, lights);
    }

    /** The reflection: the bat is drawn mirrored where the stencil is
        marked, then blending and the stencil test are turned off. */
    method DrawMirrored(projection: Mat, view: Mat, lights: LightValues)
      requires bat.gl == gl && bat.Valid()
      modifies gl, bat`mvp, bat`oldMvp, bat.actor
      ensures bat.Valid() && gl.nextName == old(gl.nextName)
      ensures bat.actor.pos == old(bat.actor.pos) && bat.actor.rot == old(bat.actor.rot) && bat.actor.sc == old(bat.actor.sc)
      ensures bat.actor.modelMatrix == MirroredModel()
      ensures gl.log == old(gl.log) + StepsCalls(MirroredSteps(bat.Look(), MirroredModel(), old(bat.oldMvp)), projection, view, lights)
    {
      ghost var l0 := gl.log;
      PrepareReflectionDraws();
      ghost var l1 := gl.log;
      DrawMeshReflection(bat, projection, view, lights);
      ghost var l2 := gl.log;
      EndReflection();
      ChainThree(l0, l1, l2, gl.log, ReflectionSetup(), l2[|l1|..], EndReflectionCalls());
      StepsCallsThree(Fixed(ReflectionSetup()), MeshDraw(bat.Look(), MirroredModel(), old(bat.oldMvp)), Fixed(EndReflectionCalls()),
        projection, view, lights);
    }

    /** Bat, walls and columns; then the floor marks the stencil and the
        mirrored bat is drawn where it is marked. */
    method ReflectionDraw(projection: Mat, view: Mat, lights: LightValues)
      requires MeshesWired() && MeshesReady()
      modifies gl, bat`mvp, bat`oldMvp, floor`mvp, floor`oldMvp, walls`mvp, walls`oldMvp, columns`mvp, columns`oldMvp, bat.actor
      ensures MeshesReady() && gl.nextName == old(gl.nextName)
      ensures bat.actor.pos == old(bat.actor.pos) && bat.actor.rot == old(bat.actor.rot) && bat.actor.sc == old(bat.actor.sc)
      ensures bat.actor.modelMatrix == MirroredModel()
      ensures gl.log == old(gl.log) + StepsCalls(ReflectionDrawSteps(Looks(), old(Models()), old(Previous()), MirroredModel(), Product(Product(projection, view), old(Models()).bat)), projection, view, lights)
    {
      ghost var l0 := gl.log;
      DrawUnmirrored(projection, view, lights);
      ghost var l1 := gl.log;
      ghost var unmirrored := UnmirroredSteps(Looks(), old(Models()), old(Previous()));
      DrawMirror(projection, view, lights);
      ghost var l2 := gl.log;
      ghost var mirror := MirrorSteps(floor.Look(), old(Models()).floor, old(Previous()).floor);
      DrawMirrored(projection, view, lights);
      ghost var mirrored := MirroredSteps(bat.Look(), MirroredModel(), Product(Product(projection, view), old(Models()).bat));
      ChainThree(l0, l1, l2, gl.log, StepsCalls(unmirrored, projection, view, lights), StepsCalls(mirror, projection, view, lights),
        StepsCalls(mirrored, projection, view, lights));
      StepsCallsConcat(Concat(unmirrored, mirror), mirrored, projection, view, lights);
      StepsCallsConcat(unmirrored, mirror, projection, view, lights);
    }

    /** The scene: the reflection draw for REFLECTION, the normal draw
        otherwise. */
    method DrawScene(projection: Mat, view: Mat, lights: LightValues)
      requires MeshesWired() && MeshesReady()
      modifies gl, bat`mvp, bat`oldMvp, floor`mvp, floor`oldMvp, walls`mvp, walls`oldMvp, columns`mvp, columns`oldMvp, bat.actor
      ensures MeshesReady() && gl.nextName == old(gl.nextName)
      ensures bat.actor.pos == old(bat.actor.pos) && bat.actor.rot == old(bat.actor.rot) && bat.actor.sc == old(bat.actor.sc)
      ensures gl.log == old(gl.log) + StepsCalls(SceneSteps(actualEffect, projection, view, Looks(), old(Models()), old(Previous()), MirroredModel()), projection, view, lights)
    {
      if actualEffect == Reflection {
        ReflectionDraw(projection, view, lights);
      } else {
        NormalDraw(projection, view, lights);
      }
    }

    /** One frame: the active effect (if any) takes the scene, the screen
        is cleared, the lights are written to their buffer, the scene is
        drawn (with the reflection for REFLECTION) and the effect (if any)
        composites its image onto the screen. */
    method Draw()
      requires Shape() && MeshesReady() && LightsSized()
      modifies gl, bat`mvp, bat`oldMvp, floor`mvp, floor`oldMvp, walls`mvp, walls`oldMvp, columns`mvp, columns`oldMvp, bat.actor,
        lightBuffer.positionBuffer, lightBuffer.colorBuffer, lightBuffer.intensityBuffer
      ensures MeshesReady() && LightsSized()
      ensures gl.log == old(gl.log) + old(PreStageCalls(actualEffect)) + [Clear(true, true, false)]
        + StepsCalls(SceneSteps(actualEffect, old(cam.GetProjectionMatrix()), old(cam.actor.modelMatrix), Looks(), old(Models()), old(Previous()), MirroredModel()),
          old(cam.GetProjectionMatrix()), old(cam.actor.modelMatrix), old(SceneLights()))
        + PostStageCalls(actualEffect)
    {
      PreProcessStage();
      gl.Issue(Clear(true, true, false));
      RenderFrame();
    }

    /** The part of `Draw` after the screen is cleared: the lights are
        packed, the scene is drawn with the camera's matrices and the
        active effect composites the result. */
    method RenderFrame()
      requires Shape() && MeshesReady() && LightsSized()
      modifies gl, bat`mvp, bat`oldMvp, floor`mvp, floor`oldMvp, walls`mvp, walls`oldMvp, columns`mvp, columns`oldMvp, bat.actor,
        lightBuffer.positionBuffer, lightBuffer.colorBuffer, lightBuffer.intensityBuffer
      ensures MeshesReady() && LightsSized()
      ensures gl.log == old(gl.log)
        + StepsCalls(SceneSteps(actualEffect, old(cam.GetProjectionMatrix()), old(cam.actor.modelMatrix), Looks(), old(Models()), old(Previous()), MirroredModel()),
          old(cam.GetProjectionMatrix()), old(cam.actor.modelMatrix), old(SceneLights()))
        + PostStageCalls(actualEffect)
    {
      var projection := cam.GetProjectionMatrix();
      var view := cam.actor.modelMatrix;

      CalculateLightingBuffer();
      var lights := LightUpload(lightBuffer);
      DrawAndComposite(projection, view, lights);
    }

    /** The last part of `Draw`: the scene is drawn with the given matrices
        and lights, then the active effect composites the result. */
    method DrawAndComposite(projection: Mat, view: Mat, lights: LightValues)
      requires MeshesWired() && EffectsWired() && MeshesReady()
      modifies gl, bat`mvp, bat`oldMvp, floor`mvp, floor`oldMvp, walls`mvp, walls`oldMvp, columns`mvp, columns`oldMvp, bat.actor
      ensures MeshesReady() && unchanged(lightBuffer)
      ensures gl.log == old(gl.log)
        + StepsCalls(SceneSteps(actualEffect, projection, view, Looks(), old(Models()), old(Previous()), MirroredModel()), projection, view, lights)
        + PostStageCalls(actualEffect)
    {
      DrawScene(projection, view, lights);
      CompositeStage();
    }

    /** The view of a `width` x `height` screen over four loaded meshes:
        depth testing and back-face culling on, the camera and the lights
        placed, the screen size applied, and the effects initialised with
        none active. */
    constructor(gl: Context, bat: Mesh, floor: Mesh, walls: Mesh, columns: Mesh, width: int, height: int)
      requires gl.Valid()
      requires bat.gl == gl && floor.gl == gl && walls.gl == gl && columns.gl == gl
      requires bat.Valid() && floor.Valid() && walls.Valid() && columns.Valid()
      requires bat != floor && bat != walls && bat != columns && floor != walls && floor != columns && walls != columns
      requires bat.actor != floor.actor && bat.actor != walls.actor && bat.actor != columns.actor
      requires floor.actor != walls.actor && floor.actor != columns.actor && walls.actor != columns.actor
      modifies gl
      ensures Valid()
      ensures this.gl == gl && this.bat == bat && this.floor == floor && this.walls == walls && this.columns == columns
      ensures actualEffect == None && totalTime == 0.0
      ensures screenWidth == width && screenHeight == height
      ensures camMovementSpeed == 100.0 && camRotationSpeed == 200.0
    {
      this.gl := gl;
      this.bat := bat;
      this.floor := floor;
      this.walls := walls;
      this.columns := columns;
      lightBuffer := new LightingBuffer();
      whiteLight := new PointLight();
      redLight := new PointLight();
      cam := new Camera();
      blur := new PP.Postprocess(gl, PP.MotionBlur);
      normalBlur := new PP.Postprocess(gl, PP.Plain);
      dizzy := new PP.Postprocess(gl, PP.Dizzy);
      screenWidth := width;
      screenHeight := height;
      new;
      SetUp();
    }

    /** The constructor's body after the members exist: depth testing,
        back-face culling and the clear colour, then the camera, the
        lights, the screen size and the effects. */
    method SetUp()
      requires Shape() && MeshesReady() && LightsReady()
      requires lightBuffer.positionBuffer.Length == 0 && lightBuffer.colorBuffer.Length == 0 && lightBuffer.intensityBuffer.Length == 0
      modifies gl, cam, cam.actor, this`camMovementSpeed, this`camRotationSpeed, lightBuffer, whiteLight, redLight, whiteLight.actor, redLight.actor,
        this`screenWidth, this`screenHeight, this`actualEffect, this`totalTime, blur, normalBlur, dizzy
      ensures Valid()
      ensures actualEffect == None && totalTime == 0.0 && screenWidth == old(screenWidth) && screenHeight == old(screenHeight)
      ensures camMovementSpeed == 100.0 && camRotationSpeed == 200.0
      ensures gl.log == old(gl.log) + [Enable(DepthTest), Enable(CullFace), DepthFunc(Less), ClearColor]
        + old(ResizeAllCalls(screenWidth, screenHeight))
        + (Initialized(blur, MOTION_BLUR_VERTEX, MOTION_BLUR_FRAGMENT, screenWidth, screenHeight)
        + Initialized(normalBlur, BLUR_VERTEX, BLUR_FRAGMENT, screenWidth, screenHeight))
        + Initialized(dizzy, DIZZY_VERTEX, DIZZY_FRAGMENT, screenWidth, screenHeight)
    {
      ghost var log0 := gl.log;
      RasterCameraAndLights();
      ghost var log1 := gl.log;
      ScreenAndEffects();
      CallsChained(log0, [Enable(DepthTest), Enable(CullFace), DepthFunc(Less), ClearColor], log1,
        old(ResizeAllCalls(screenWidth, screenHeight)),
        Initialized(blur, MOTION_BLUR_VERTEX, MOTION_BLUR_FRAGMENT, screenWidth, screenHeight)
        + Initialized(normalBlur, BLUR_VERTEX, BLUR_FRAGMENT, screenWidth, screenHeight),
        Initialized(dizzy, DIZZY_VERTEX, DIZZY_FRAGMENT, screenWidth, screenHeight), gl.log);
    }

    /** The constructor's first half: the clock reset, depth testing,
        back-face culling and the clear colour, then the camera and the
        lights. */
    method RasterCameraAndLights()
      requires gl.Valid() && whiteLight != redLight && whiteLight.actor != redLight.actor && LightsReady()
      requires cam.actor != whiteLight.actor && cam.actor != redLight.actor
      requires lightBuffer.positionBuffer.Length == 0 && lightBuffer.colorBuffer.Length == 0 && lightBuffer.intensityBuffer.Length == 0
      modifies gl, cam, cam.actor, this`camMovementSpeed, this`camRotationSpeed, this`totalTime, lightBuffer, whiteLight, redLight, whiteLight.actor, redLight.actor
      ensures gl.Valid() && LightsSized() && LightsReady() && totalTime == 0.0
      ensures gl.log == old(gl.log) + [Enable(DepthTest), Enable(CullFace), DepthFunc(Less), ClearColor]
      ensures camMovementSpeed == 100.0 && camRotationSpeed == 200.0
      ensures cam.screenWidth == screenWidth && cam.screenHeight == screenHeight && cam.fieldOfView == 45.0
      ensures cam.actor.pos == Vec3(-60.0, -160.0, -230.0) && cam.actor.rot == Vec3(20.0, -10.0, 0.0)
      ensures whiteLight.actor.pos == Vec3(300.0, 200.0, 50.0) && whiteLight.color == Vec3(1.0, 1.0, 1.0)
      ensures whiteLight.State() == Intensified(old(whiteLight.State()), 10000.0)
      ensures redLight.actor.pos == Vec3(-300.0, 200.0, 50.0) && redLight.color == Vec3(1.0, 0.4, 0.4)
      ensures redLight.State() == Intensified(old(redLight.State()), 100000.0)
    {
      totalTime := 0.0;
      gl.IssueAll([Enable(DepthTest), Enable(CullFace), DepthFunc(Less), ClearColor]);
      CameraAndLights();
    }

    /** The constructor's camera and light set-up. The buffers start empty,
        so the third light's slots are zero: it is black and dark. */
    method CameraAndLights()
      requires whiteLight != redLight && whiteLight.actor != redLight.actor && LightsReady()
      requires cam.actor != whiteLight.actor && cam.actor != redLight.actor
      requires lightBuffer.positionBuffer.Length == 0 && lightBuffer.colorBuffer.Length == 0 && lightBuffer.intensityBuffer.Length == 0
      modifies cam, cam.actor, this`camMovementSpeed, this`camRotationSpeed, lightBuffer, whiteLight, redLight, whiteLight.actor, redLight.actor
      ensures LightsSized() && LightsReady()
      ensures lightBuffer.positionBuffer[6..] == [0.0, 0.0, 0.0] && lightBuffer.colorBuffer[6..] == [0.0, 0.0, 0.0]
      ensures lightBuffer.intensityBuffer[2..] == [0.0]
      ensures camMovementSpeed == 100.0 && camRotationSpeed == 200.0
      ensures cam.screenWidth == screenWidth && cam.screenHeight == screenHeight && cam.fieldOfView == 45.0
      ensures cam.actor.pos == Vec3(-60.0, -160.0, -230.0) && cam.actor.rot == Vec3(20.0, -10.0, 0.0)
      ensures whiteLight.actor.pos == Vec3(300.0, 200.0, 50.0) && whiteLight.color == Vec3(1.0, 1.0, 1.0)
      ensures whiteLight.State() == Intensified(old(whiteLight.State()), 10000.0)
      ensures redLight.actor.pos == Vec3(-300.0, 200.0, 50.0) && redLight.color == Vec3(1.0, 0.4, 0.4)
      ensures redLight.State() == Intensified(old(redLight.State()), 100000.0)
    {
      CameraInitialization();
      LightsInitialization();
    }

    /** The constructor's screen size and effect set-up. */
    method ScreenAndEffects()
      requires Shape() && MeshesReady() && LightsSized() && LightsReady()
      modifies this`screenWidth, this`screenHeight, this`actualEffect, cam, blur, normalBlur, dizzy, gl
      ensures Valid() && actualEffect == None
      ensures screenWidth == old(screenWidth) && screenHeight == old(screenHeight)
      ensures unchanged(this`camMovementSpeed, this`camRotationSpeed, this`totalTime)
      ensures cam.screenWidth == screenWidth && cam.screenHeight == screenHeight && cam.fieldOfView == old(cam.fieldOfView)
      ensures gl.log == old(gl.log) + old(ResizeAllCalls(screenWidth, screenHeight))
        + (Initialized(blur, MOTION_BLUR_VERTEX, MOTION_BLUR_FRAGMENT, screenWidth, screenHeight)
        + Initialized(normalBlur, BLUR_VERTEX, BLUR_FRAGMENT, screenWidth, screenHeight))
        + Initialized(dizzy, DIZZY_VERTEX, DIZZY_FRAGMENT, screenWidth, screenHeight)
    {
      Resize(screenWidth, screenHeight);
      PostProcessInitialization();
    }
  }
}

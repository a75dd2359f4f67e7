/** Post-processing effects. The scene is drawn into an off-screen
    framebuffer (colour textures plus a depth/stencil renderbuffer); the
    effect then draws a full-screen quad onto the default framebuffer with
    its own shader, sampling those textures. `Postprocess`, `MotionBlur` and
    `DizzyProcess` share one class here: `kind` says which one an object
    is, each override is its own method, and a dispatching method stands
    for each virtual call. */
module PostProcessing {
  import opened Gl

  datatype Option<T> = None | Some(value: T)

  /** The class an effect object was created as. */
  datatype EffectKind = Plain | MotionBlur | Dizzy

  /** The floats of the screen quad: six vertices of three coordinates. */
  const QUAD_FLOATS: nat := 18

  /** The vertices of the composite draw. */
  const QUAD_VERTICES: nat := 6

  /** The colour attachments each kind registers, in registration order:
      only motion blur adds a second one (its speed texture). */
  function Attachments(kind: EffectKind): (attachments: seq<Attachment>)
    ensures |attachments| == (if kind == MotionBlur then 2 else 1)
    ensures attachments[0] == ColorAttachment(0)
    ensures kind == MotionBlur ==> attachments[1] == ColorAttachment(1)
  {
    if kind == MotionBlur then [ColorAttachment(0), ColorAttachment(1)] else [ColorAttachment(0)]
  }

  /** The calls of `InitializeRenderQuad`: a vertex array and a buffer
      holding the quad. */
  function QuadUpload(vao: Handle, vbo: Handle): seq<Call>
  {
    [GenObject(vao), BindVertexArray(vao), GenObject(vbo), BindArrayBuffer(vbo), BufferData(QUAD_FLOATS)]
  }

  /** The calls of `InitializeShaders`: build the program and make it current. */
  function ShaderSetup(program: Handle, vertexPath: string, fragmentPath: string): seq<Call>
  {
    [CreateProgram(program, vertexPath, fragmentPath), UseProgram(program)]
  }

  /** The calls of `InitializeAttributes`: look up "position", enable it and
      describe it as two floats per vertex. */
  function PositionAttribute(program: Handle, location: int): seq<Call>
  {
    [QueryAttrib(program, "position"), EnableAttrib(location), AttribPointer(location, 2)]
  }

  /** The calls of `InitializeTexture`: look up the sampler, create a
      screen-sized texture with clamped, linear sampling and attach it to
      the bound framebuffer. */
  function TextureTarget(program: Handle, uniformName: string, texture: Handle, attachment: Attachment,
                         width: int, height: int): seq<Call>
  {
    [QueryUniform(program, uniformName), GenObject(texture), BindTexture(texture),
     TexImage(width, height), TexParameters(ClampToEdge, Linear), FramebufferTexture(attachment, texture)]
  }

  /** The calls of the texture section: the colour texture, then (motion
      blur only) the speed texture. */
  function TexturesSectionCalls(kind: EffectKind, program: Handle, color: Handle, speed: Handle,
                                width: int, height: int): seq<Call>
  {
    TextureTarget(program, "colorTexture", color, ColorAttachment(0), width, height)
    + (if kind == MotionBlur then TextureTarget(program, "speedTexture", speed, ColorAttachment(1), width, height)
       else [])
  }

  /** The calls of `CreateRenderBuffer`: a depth/stencil renderbuffer of the
      screen size attached to the bound framebuffer. */
  function RenderbufferSetup(renderbuffer: Handle, width: int, height: int): seq<Call>
  {
    [GenObject(renderbuffer), BindRenderbuffer(renderbuffer), RenderbufferStorage(width, height),
     FramebufferRenderbuffer(DepthStencilAttachment, renderbuffer)]
  }

  /** The first half of the base initialisation: the quad, the program
      and its one attribute. */
  function ProgramSetup(vao: Handle, vbo: Handle, program: Handle, position: int,
                        vertexPath: string, fragmentPath: string): seq<Call>
  {
    QuadUpload(vao, vbo) + ShaderSetup(program, vertexPath, fragmentPath) + PositionAttribute(program, position)
  }

  /** The second half of the base initialisation: a new framebuffer bound,
      the texture section and the renderbuffer. */
  function FramebufferSetup(kind: EffectKind, program: Handle, framebuffer: Handle, color: Handle, speed: Handle,
                            renderbuffer: Handle, width: int, height: int): seq<Call>
  {
    [GenObject(framebuffer), BindFramebuffer(framebuffer)]
    + TexturesSectionCalls(kind, program, color, speed, width, height)
    + RenderbufferSetup(renderbuffer, width, height)
  }

  /** The uniform lookups a subclass adds after the base initialisation. */
  function ExtraQueries(kind: EffectKind, program: Handle): seq<Call>
  {
    match kind
    case Plain => []
    case MotionBlur => [QueryUniform(program, "intensity"), QueryUniform(program, "numberOfSamples")]
    case Dizzy => [QueryUniform(program, "deltaTime"), QueryUniform(program, "radius"), QueryUniform(program, "viewHeight")]
  }

  /** The calls of `RenderTextures`: the colour texture on unit 0, then
      (motion blur only) the speed texture on unit 1. */
  function RenderTexturesCalls(kind: EffectKind, color: Handle, colorID: int, speed: Handle, speedID: int): seq<Call>
  {
    BindUnit(0, color, colorID) + (if kind == MotionBlur then BindUnit(1, speed, speedID) else [])
  }

  /** The calls of `DrawAttributes`: the quad buffer as attribute 0, three
      floats per vertex. */
  function QuadPointers(vbo: Handle): seq<Call>
  {
    [BindArrayBuffer(vbo), AttribPointer(0, 3)]
  }

  /** The calls of `Draw`: the default framebuffer and the effect's
      program, the textures, the uniforms, then the quad drawn with
      attributes 0 .. n-1 enabled around it. */
  function CompositeCalls(program: Handle, textures: seq<Call>, uniforms: seq<Call>, n: nat, vbo: Handle): seq<Call>
  {
    [BindFramebuffer(0), UseProgram(program)] + textures + uniforms
    + EnabledDraw(n, QuadPointers(vbo), DrawArrays(QUAD_VERTICES))
  }

  /** `PreProcess` with every registered attachment declared as a draw buffer. */
  function PreProcessCalls(framebuffer: Handle, drawingBuffers: seq<Attachment>): seq<Call>
  {
    [BindFramebuffer(framebuffer), DrawBuffers(drawingBuffers), Enable(DepthTest)]
  }

  /** `PreProcess` as written: it always declares two draw buffers read from
      the start of the list, so with fewer than two registered it reads past
      the end of the list (None). */
  function PreProcessCallsAsWritten(framebuffer: Handle, drawingBuffers: seq<Attachment>): (calls: Option<seq<Call>>)
    ensures calls.Some? <==> |drawingBuffers| >= 2
  {
    if |drawingBuffers| < 2 then None
    else Some([BindFramebuffer(framebuffer), DrawBuffers(drawingBuffers[..2]), Enable(DepthTest)])
  }

  /** `Resize` as written: the renderbuffer storage is reallocated for
      whichever renderbuffer happens to be bound. */
  function ResizeCallsAsWritten(color: Handle, width: int, height: int): seq<Call>
  {
    [BindTexture(color), TexImage(width, height), RenderbufferStorage(width, height)]
  }

  /** `Resize` binding the effect's own renderbuffer before reallocating it;
      motion blur also reallocates its speed texture. */
  function ResizeCalls(kind: EffectKind, color: Handle, renderbuffer: Handle, speed: Handle,
                       width: int, height: int): seq<Call>
  {
    [BindTexture(color), TexImage(width, height), BindRenderbuffer(renderbuffer), RenderbufferStorage(width, height)]
    + (if kind == MotionBlur then [BindTexture(speed), TexImage(width, height)] else [])
  }

  /** The calls of the base destructor: its own three deletions, then the
      deletion of the shader program by the destructor of its shader
      member. */
  function DestroyCalls(framebuffer: Handle, renderbuffer: Handle, color: Handle, program: Handle): seq<Call>
  {
    [DeleteFramebuffers([framebuffer]), DeleteRenderbuffers([renderbuffer]), DeleteTextures([color]), DeleteProgram(program)]
  }

  /** One texture target: the texture gets the size, is attached to the
      bound framebuffer at `attachment` and is left bound on the active
      texture unit; the raster state, program, attributes, draws and
      renderbuffers are left as they were. */
  lemma TextureTargetEffect(s: GlState, program: Handle, uniformName: string, texture: Handle,
                            attachment: Attachment, width: int, height: int)
    requires s.raster.framebuffer != 0
    ensures var t := Run(s, TextureTarget(program, uniformName, texture, attachment, width, height));
      t.objects.attachments == s.objects.attachments[(s.raster.framebuffer, attachment) := texture] &&
      t.objects.textureSize == s.objects.textureSize[texture := (width, height)] &&
      t.units == s.units[s.objects.activeUnit := texture] &&
      t.raster == s.raster && t.program == s.program && t.attribs == s.attribs && t.draws == s.draws &&
      t.objects.renderbuffer == s.objects.renderbuffer && t.objects.renderbufferSize == s.objects.renderbufferSize
  {
    var first := [QueryUniform(program, uniformName), GenObject(texture), BindTexture(texture)];
    var last := [TexImage(width, height), TexParameters(ClampToEdge, Linear), FramebufferTexture(attachment, texture)];
    assert TextureTarget(program, uniformName, texture, attachment, width, height) == first + last;
    RunAppend(s, first, last);
    TextureCreateStep(s, program, uniformName, texture);
    TextureSpecifyStep(Run(s, first), texture, attachment, width, height);
  }

  /** Looking up the sampler and creating and binding the texture puts it
      on the active unit and changes nothing else. */
  lemma TextureCreateStep(s: GlState, program: Handle, uniformName: string, texture: Handle)
    ensures Run(s, [QueryUniform(program, uniformName), GenObject(texture), BindTexture(texture)])
      == s.(units := s.units[s.objects.activeUnit := texture])
  {
    RunThree(s, QueryUniform(program, uniformName), GenObject(texture), BindTexture(texture));
  }

  /** Specifying the bound texture's image and attaching it sizes that
      texture and attaches it to the bound framebuffer, and changes nothing else. */
  lemma TextureSpecifyStep(s: GlState, texture: Handle, attachment: Attachment, width: int, height: int)
    requires s.raster.framebuffer != 0 && BoundTexture(s) == texture
    ensures Run(s, [TexImage(width, height), TexParameters(ClampToEdge, Linear), FramebufferTexture(attachment, texture)])
      == s.(objects := s.objects.(textureSize := s.objects.textureSize[texture := (width, height)],
                                  attachments := s.objects.attachments[(s.raster.framebuffer, attachment) := texture]))
  {
    RunThree(s, TexImage(width, height), TexParameters(ClampToEdge, Linear), FramebufferTexture(attachment, texture));
    var sized := Apply(s, TexImage(width, height));
    TexImageStep(s, width, height);
    assert Apply(sized, TexParameters(ClampToEdge, Linear)) == sized;
    FramebufferTextureStep(sized, attachment, texture);
  }

  /** Specifying an image sizes the texture bound to the active unit. */
  lemma TexImageStep(s: GlState, width: int, height: int)
    ensures Apply(s, TexImage(width, height))
      == s.(objects := s.objects.(textureSize := s.objects.textureSize[BoundTexture(s) := (width, height)]))
  {
  }

  /** Attaching a texture to a framebuffer other than the default one
      records the attachment. */
  lemma FramebufferTextureStep(s: GlState, attachment: Attachment, texture: Handle)
    requires s.raster.framebuffer != 0
    ensures Apply(s, FramebufferTexture(attachment, texture))
      == s.(objects := s.objects.(attachments := s.objects.attachments[(s.raster.framebuffer, attachment) := texture]))
  {
  }

  /** The renderbuffer is left bound, gets the size and is the bound
      framebuffer's depth/stencil attachment; textures and the bindings a
      draw depends on are left as they were. */
  lemma RenderbufferSetupEffect(s: GlState, renderbuffer: Handle, width: int, height: int)
    requires s.raster.framebuffer != 0 && renderbuffer != 0
    ensures var t := Run(s, RenderbufferSetup(renderbuffer, width, height));
      t.objects.renderbuffer == renderbuffer &&
      t.objects.renderbufferSize == s.objects.renderbufferSize[renderbuffer := (width, height)] &&
      t.objects.attachments == s.objects.attachments[(s.raster.framebuffer, DepthStencilAttachment) := renderbuffer] &&
      t.objects.textureSize == s.objects.textureSize &&
      t.raster == s.raster && t.program == s.program && t.attribs == s.attribs && t.units == s.units && t.draws == s.draws
  {
    var first := [GenObject(renderbuffer)];
    var last := [BindRenderbuffer(renderbuffer), RenderbufferStorage(width, height),
                 FramebufferRenderbuffer(DepthStencilAttachment, renderbuffer)];
    assert RenderbufferSetup(renderbuffer, width, height) == first + last;
    RunAppend(s, first, last);
    RunOne(s, first[0]);
    RunThree(Run(s, first), last[0], last[1], last[2]);
  }

  /** The texture section attaches the colour texture at colour attachment
      0 and, for motion blur, the speed texture at colour attachment 1, both
      of the given size. */
  lemma TexturesSectionEffect(s: GlState, kind: EffectKind, program: Handle, color: Handle, speed: Handle,
                              width: int, height: int)
    requires s.raster.framebuffer != 0
    requires kind == MotionBlur ==> color != speed
    ensures var t := Run(s, TexturesSectionCalls(kind, program, color, speed, width, height));
      var fb := s.raster.framebuffer;
      (fb, ColorAttachment(0)) in t.objects.attachments && t.objects.attachments[(fb, ColorAttachment(0))] == color &&
      color in t.objects.textureSize && t.objects.textureSize[color] == (width, height) &&
      (kind == MotionBlur ==>
        (fb, ColorAttachment(1)) in t.objects.attachments && t.objects.attachments[(fb, ColorAttachment(1))] == speed &&
        speed in t.objects.textureSize && t.objects.textureSize[speed] == (width, height)) &&
      t.raster == s.raster && t.program == s.program && t.attribs == s.attribs && t.draws == s.draws &&
      t.objects.renderbuffer == s.objects.renderbuffer && t.objects.renderbufferSize == s.objects.renderbufferSize
  {
    var colorTarget := TextureTarget(program, "colorTexture", color, ColorAttachment(0), width, height);
    var speedTarget := if kind == MotionBlur then TextureTarget(program, "speedTexture", speed, ColorAttachment(1), width, height) else [];
    RunAppend(s, colorTarget, speedTarget);
    TextureTargetEffect(s, program, "colorTexture", color, ColorAttachment(0), width, height);
    if kind == MotionBlur {
      TextureTargetEffect(Run(s, colorTarget), program, "speedTexture", speed, ColorAttachment(1), width, height);
    }
  }

  /** After the second half of the initialisation the new framebuffer is
      bound and holds the colour texture(s) and the depth/stencil
      renderbuffer, all of the screen size, and that renderbuffer is left bound. */
  lemma FramebufferSetupEffect(s: GlState, kind: EffectKind, program: Handle, framebuffer: Handle, color: Handle,
                               speed: Handle, renderbuffer: Handle, width: int, height: int)
    requires framebuffer != 0 && renderbuffer != 0
    requires kind == MotionBlur ==> color != speed
    ensures var t := Run(s, FramebufferSetup(kind, program, framebuffer, color, speed, renderbuffer, width, height));
      t.raster == s.raster.(framebuffer := framebuffer) &&
      (framebuffer, ColorAttachment(0)) in t.objects.attachments &&
      t.objects.attachments[(framebuffer, ColorAttachment(0))] == color &&
      color in t.objects.textureSize && t.objects.textureSize[color] == (width, height) &&
      (kind == MotionBlur ==>
        (framebuffer, ColorAttachment(1)) in t.objects.attachments &&
        t.objects.attachments[(framebuffer, ColorAttachment(1))] == speed &&
        speed in t.objects.textureSize && t.objects.textureSize[speed] == (width, height)) &&
      (framebuffer, DepthStencilAttachment) in t.objects.attachments &&
      t.objects.attachments[(framebuffer, DepthStencilAttachment)] == renderbuffer &&
      t.objects.renderbuffer == renderbuffer &&
      t.objects.renderbufferSize == s.objects.renderbufferSize[renderbuffer := (width, height)]
  {
    var bind := [GenObject(framebuffer), BindFramebuffer(framebuffer)];
    var textures := TexturesSectionCalls(kind, program, color, speed, width, height);
    RunAppend(s, bind, textures);
    RunAppend(s, bind + textures, RenderbufferSetup(renderbuffer, width, height));
    assert bind == [GenObject(framebuffer)] + [BindFramebuffer(framebuffer)];
    RunAppend(s, [GenObject(framebuffer)], [BindFramebuffer(framebuffer)]);
    RunOne(s, GenObject(framebuffer));
    RunOne(s, BindFramebuffer(framebuffer));
    TexturesSectionEffect(Run(s, bind), kind, program, color, speed, width, height);
    RenderbufferSetupEffect(Run(s, bind + textures), renderbuffer, width, height);
  }

  /** Pre-processing binds the effect's framebuffer, declares the given
      draw buffers for it and turns depth testing on. */
  lemma PreProcessEffect(s: GlState, framebuffer: Handle, drawingBuffers: seq<Attachment>)
    requires framebuffer != 0
    ensures var t := Run(s, PreProcessCalls(framebuffer, drawingBuffers));
      t.raster == s.raster.(framebuffer := framebuffer, capabilities := s.raster.capabilities + {DepthTest}) &&
      t.objects.drawBuffers == s.objects.drawBuffers[framebuffer := drawingBuffers] &&
      t.program == s.program && t.attribs == s.attribs && t.units == s.units && t.draws == s.draws
  {
    RunThree(s, BindFramebuffer(framebuffer), DrawBuffers(drawingBuffers), Enable(DepthTest));
  }

  /** As written, pre-processing an effect that registered one colour
      attachment (the base class, the dizzy effect) reads a second draw
      buffer past the end of the list; for motion blur, which registered
      two, it issues exactly the corrected calls. */
  lemma PreProcessAsWrittenOverreads(kind: EffectKind, framebuffer: Handle)
    ensures kind != MotionBlur ==> PreProcessCallsAsWritten(framebuffer, Attachments(kind)) == None
    ensures kind == MotionBlur ==>
      PreProcessCallsAsWritten(framebuffer, Attachments(kind)) == Some(PreProcessCalls(framebuffer, Attachments(kind)))
  {
    if kind == MotionBlur {
      assert Attachments(kind)[..2] == Attachments(kind);
    }
  }

  /** Resizing gives the colour texture (and the motion blur's speed
      texture) and the effect's own renderbuffer the new size, and leaves
      the last texture it sized bound on the active texture unit; it changes
      no other size, no attachment, and neither the raster state, the
      program, the attributes nor the draws. */
  lemma ResizeEffect(s: GlState, kind: EffectKind, color: Handle, renderbuffer: Handle, speed: Handle,
                     width: int, height: int)
    requires renderbuffer != 0
    ensures var t := Run(s, ResizeCalls(kind, color, renderbuffer, speed, width, height));
      t.objects.renderbufferSize == s.objects.renderbufferSize[renderbuffer := (width, height)] &&
      t.objects.textureSize == (if kind == MotionBlur
                                then s.objects.textureSize[color := (width, height)][speed := (width, height)]
                                else s.objects.textureSize[color := (width, height)]) &&
      t.objects.attachments == s.objects.attachments &&
      t.units == s.units[s.objects.activeUnit := if kind == MotionBlur then speed else color] &&
      t.raster == s.raster && t.program == s.program && t.attribs == s.attribs && t.draws == s.draws
  {
    var texture := [BindTexture(color), TexImage(width, height)];
    var storage := [BindRenderbuffer(renderbuffer), RenderbufferStorage(width, height)];
    var speedPart := if kind == MotionBlur then [BindTexture(speed), TexImage(width, height)] else [];
    assert ResizeCalls(kind, color, renderbuffer, speed, width, height) == texture + storage + speedPart;
    RunAppend(s, texture + storage, speedPart);
    RunAppend(s, texture, storage);
    ResizeTextureStep(s, color, width, height);
    ResizeStorageStep(Run(s, texture), renderbuffer, width, height);
    if kind == MotionBlur {
      ResizeTextureStep(Run(s, texture + storage), speed, width, height);
    }
  }

  /** Resizing twice to the same size records the same sizes as resizing
      once. */
  lemma ResizeTwiceSameSizes(s: GlState, kind: EffectKind, color: Handle, renderbuffer: Handle, speed: Handle,
                             width: int, height: int)
    requires renderbuffer != 0
    ensures var calls := ResizeCalls(kind, color, renderbuffer, speed, width, height);
      var once := Run(s, calls);
      var twice := Run(once, calls);
      twice.objects.textureSize == once.objects.textureSize &&
      twice.objects.renderbufferSize == once.objects.renderbufferSize &&
      twice.objects.attachments == once.objects.attachments && twice.raster == once.raster && twice.draws == once.draws
  {
    var once := Run(s, ResizeCalls(kind, color, renderbuffer, speed, width, height));
    ResizeEffect(s, kind, color, renderbuffer, speed, width, height);
    ResizeEffect(once, kind, color, renderbuffer, speed, width, height);
    var size: (int, int) := (width, height);
    var t: map<Handle, (int, int)> := s.objects.textureSize;
    if kind == MotionBlur {
      assert t[color := size][speed := size][color := size][speed := size] == t[color := size][speed := size];
    } else {
      assert t[color := size][color := size] == t[color := size];
    }
    assert s.objects.renderbufferSize[renderbuffer := size][renderbuffer := size] == s.objects.renderbufferSize[renderbuffer := size];
  }

  /** Binding a texture and specifying its image sizes that texture and
      leaves it on the active unit. */
  lemma ResizeTextureStep(s: GlState, texture: Handle, width: int, height: int)
    ensures var t := Run(s, [BindTexture(texture), TexImage(width, height)]);
      t.objects == s.objects.(textureSize := s.objects.textureSize[texture := (width, height)]) &&
      t.units == s.units[s.objects.activeUnit := texture] &&
      t.raster == s.raster && t.program == s.program && t.attribs == s.attribs && t.draws == s.draws
  {
    RunAppend(s, [BindTexture(texture)], [TexImage(width, height)]);
    RunOne(s, BindTexture(texture));
    RunOne(Run(s, [BindTexture(texture)]), TexImage(width, height));
  }

  /** Binding a renderbuffer and allocating its storage sizes that
      renderbuffer only, and leaves it bound. */
  lemma ResizeStorageStep(s: GlState, renderbuffer: Handle, width: int, height: int)
    requires renderbuffer != 0
    ensures var t := Run(s, [BindRenderbuffer(renderbuffer), RenderbufferStorage(width, height)]);
      t.objects == s.objects.(renderbuffer := renderbuffer,
                              renderbufferSize := s.objects.renderbufferSize[renderbuffer := (width, height)]) &&
      t.raster == s.raster && t.program == s.program && t.attribs == s.attribs && t.draws == s.draws &&
      t.units == s.units
  {
    RunAppend(s, [BindRenderbuffer(renderbuffer)], [RenderbufferStorage(width, height)]);
    RunOne(s, BindRenderbuffer(renderbuffer));
    RunOne(Run(s, [BindRenderbuffer(renderbuffer)]), RenderbufferStorage(width, height));
  }

  /** As written, resizing allocates storage for whichever renderbuffer is
      bound: when that is not the effect's own, the effect's renderbuffer
      keeps its old size. */
  lemma ResizeAsWrittenMissesRenderbuffer(s: GlState, color: Handle, renderbuffer: Handle, width: int, height: int)
    requires s.objects.renderbuffer != renderbuffer
    ensures var t := Run(s, ResizeCallsAsWritten(color, width, height));
      (renderbuffer in t.objects.renderbufferSize <==> renderbuffer in s.objects.renderbufferSize) &&
      (renderbuffer in s.objects.renderbufferSize ==>
        t.objects.renderbufferSize[renderbuffer] == s.objects.renderbufferSize[renderbuffer])
  {
    var textured := Run(s, [BindTexture(color), TexImage(width, height)]);
    assert ResizeCallsAsWritten(color, width, height) == [BindTexture(color), TexImage(width, height)] + [RenderbufferStorage(width, height)];
    RunAppend(s, [BindTexture(color), TexImage(width, height)], [RenderbufferStorage(width, height)]);
    ResizeTextureStep(s, color, width, height);
    RunOne(textured, RenderbufferStorage(width, height));
  }

  /** The case the program runs into: once a second effect has been
      initialised, its renderbuffer is the bound one, so a resize of the
      first effect as written leaves the first effect's renderbuffer at its
      old size. */
  lemma ResizeAfterLaterInitialization(s: GlState, kind: EffectKind, program: Handle, framebuffer: Handle,
                                       color: Handle, speed: Handle, renderbuffer: Handle,
                                       firstColor: Handle, firstRenderbuffer: Handle, width: int, height: int)
    requires framebuffer != 0 && renderbuffer != 0 && renderbuffer != firstRenderbuffer
    requires kind == MotionBlur ==> color != speed
    requires firstRenderbuffer in s.objects.renderbufferSize
    ensures var initialized := Run(s, FramebufferSetup(kind, program, framebuffer, color, speed, renderbuffer, width, height));
      var resized := Run(initialized, ResizeCallsAsWritten(firstColor, width + 1, height + 1));
      firstRenderbuffer in resized.objects.renderbufferSize &&
      resized.objects.renderbufferSize[firstRenderbuffer] == s.objects.renderbufferSize[firstRenderbuffer]
  {
    var initialized := Run(s, FramebufferSetup(kind, program, framebuffer, color, speed, renderbuffer, width, height));
    FramebufferSetupEffect(s, kind, program, framebuffer, color, speed, renderbuffer, width, height);
    ResizeAsWrittenMissesRenderbuffer(initialized, firstColor, firstRenderbuffer, width + 1, height + 1);
  }

  /** The calls of each class's destructor. The subclass destructors call
      the base destructor explicitly, and the base destructor then runs
      once more on its own, so they release the base objects and the
      shader program twice. */
  function DestructorCalls(kind: EffectKind, framebuffer: Handle, renderbuffer: Handle, color: Handle, speed: Handle,
                           program: Handle): seq<Call>
  {
    match kind
    case Plain => DestroyCalls(framebuffer, renderbuffer, color, program)
    case MotionBlur =>
      DestroyCalls(framebuffer, renderbuffer, color, program) + [DeleteTextures([speed])]
      + DestroyCalls(framebuffer, renderbuffer, color, program)
    case Dizzy => DestroyCalls(framebuffer, renderbuffer, color, program) + DestroyCalls(framebuffer, renderbuffer, color, program)
  }

  /** One run of the base destructor deletes each of its objects once. */
  lemma DestroyCounts(framebuffer: Handle, renderbuffer: Handle, color: Handle, program: Handle)
    ensures var calls := multiset(DestroyCalls(framebuffer, renderbuffer, color, program));
      calls[DeleteFramebuffers([framebuffer])] == 1 && calls[DeleteRenderbuffers([renderbuffer])] == 1 &&
      calls[DeleteTextures([color])] == 1 && calls[DeleteProgram(program)] == 1
  {
    var a, b, c, d := DeleteFramebuffers([framebuffer]), DeleteRenderbuffers([renderbuffer]),
      DeleteTextures([color]), DeleteProgram(program);
    assert DestroyCalls(framebuffer, renderbuffer, color, program) == [a] + [b] + [c] + [d];
    assert multiset([a] + [b] + [c] + [d]) == multiset{a} + multiset{b} + multiset{c} + multiset{d};
  }

  /** Every object the effect created is released: the framebuffer, the
      renderbuffer, the colour texture and the shader program once per run
      of the base destructor, the speed texture once. */
  lemma {:induction false} DestructorReleases(kind: EffectKind, framebuffer: Handle, renderbuffer: Handle, color: Handle,
                                              speed: Handle, program: Handle)
    ensures var calls := multiset(DestructorCalls(kind, framebuffer, renderbuffer, color, speed, program));
      var runs := if kind == Plain then 1 else 2;
      calls[DeleteFramebuffers([framebuffer])] == runs && calls[DeleteRenderbuffers([renderbuffer])] == runs &&
      calls[DeleteTextures([color])] >= runs && calls[DeleteProgram(program)] == runs &&
      (kind == MotionBlur ==> calls[DeleteTextures([speed])] >= 1) &&
      |DestructorCalls(kind, framebuffer, renderbuffer, color, speed, program)| == 4 * runs + (if kind == MotionBlur then 1 else 0)
  {
    var base := DestroyCalls(framebuffer, renderbuffer, color, program);
    DestroyCounts(framebuffer, renderbuffer, color, program);
    if kind == MotionBlur {
      assert multiset(base + [DeleteTextures([speed])] + base) == multiset(base) + multiset{DeleteTextures([speed])} + multiset(base);
    } else if kind == Dizzy {
      assert multiset(base + base) == multiset(base) + multiset(base);
    }
  }

  /** The composite sees the same state whatever the uniforms: binding
      the default framebuffer and the program changes nothing else a draw
      depends on. */
  lemma CompositeHeadStep(s: GlState, program: Handle)
    ensures var t := Run(s, [BindFramebuffer(0), UseProgram(program)]);
      t.raster == s.raster.(framebuffer := 0) && t.program == program &&
      t.units == s.units && t.attribs == s.attribs && t.draws == s.draws
  {
    RunAppend(s, [BindFramebuffer(0)], [UseProgram(program)]);
    RunOne(s, BindFramebuffer(0));
    RunOne(Run(s, [BindFramebuffer(0)]), UseProgram(program));
  }

  /** Binding the effect's textures puts the colour texture on unit 0 and,
      for motion blur, the speed texture on unit 1; nothing else a draw
      depends on changes. */
  lemma RenderTexturesEffect(s: GlState, kind: EffectKind, color: Handle, colorID: int, speed: Handle, speedID: int)
    ensures var t := Run(s, RenderTexturesCalls(kind, color, colorID, speed, speedID));
      t.units == (if kind == MotionBlur then s.units[0 := color][1 := speed] else s.units[0 := color]) &&
      t.raster == s.raster && t.program == s.program && t.attribs == s.attribs && t.draws == s.draws
  {
    var first := BindUnit(0, color, colorID);
    var second := if kind == MotionBlur then BindUnit(1, speed, speedID) else [];
    RunAppend(s, first, second);
    BindUnitEffect(s, 0, color, colorID);
    if kind == MotionBlur {
      BindUnitEffect(Run(s, first), 1, speed, speedID);
    }
  }

  /** The composite records exactly one draw of the six quad vertices, on
      the default framebuffer, with the effect's program, the colour
      texture on unit 0 (and the speed texture on unit 1 for motion blur)
      and attributes 0 .. n-1 enabled; afterwards those attributes are
      disabled again. */
  lemma {:induction false} CompositeEffect(s: GlState, kind: EffectKind, program: Handle, color: Handle, colorID: int,
                                           speed: Handle, speedID: int, uniforms: seq<Call>, n: nat, vbo: Handle)
    requires forall i :: 0 <= i < |uniforms| ==> uniforms[i].Uniform?
    ensures var t := Run(s, CompositeCalls(program, RenderTexturesCalls(kind, color, colorID, speed, speedID), uniforms, n, vbo));
      var units := if kind == MotionBlur then s.units[0 := color][1 := speed] else s.units[0 := color];
      var raster := s.raster.(framebuffer := 0);
      t.draws == s.draws + [DrawRecord(raster, program, QUAD_VERTICES, s.attribs + Below(n), units)] &&
      t.raster == raster && t.program == program && t.units == units && t.attribs == s.attribs - Below(n)
  {
    var head := [BindFramebuffer(0), UseProgram(program)];
    var textures := RenderTexturesCalls(kind, color, colorID, speed, speedID);
    var quad := EnabledDraw(n, QuadPointers(vbo), DrawArrays(QUAD_VERTICES));
    RunAppend(s, head, textures);
    RunAppend(s, head + textures, uniforms);
    RunAppend(s, head + textures + uniforms, quad);
    CompositeHeadStep(s, program);
    RenderTexturesEffect(Run(s, head), kind, color, colorID, speed, speedID);
    DataOnlyKeeps(Run(s, head + textures), uniforms);
    EnabledDrawEffect(Run(s, head + textures + uniforms), n, QuadPointers(vbo), DrawArrays(QUAD_VERTICES));
  }

  /** The dizzy clock after `n` updates of `delta` each, starting from `start`. */
  function Advanced(start: real, delta: real, n: nat): real
  {
    if n == 0 then start else Advanced(start, delta, n - 1) + delta
  }

  /** `n` updates of `delta` from a stopped clock give `n * delta`. */
  lemma {:induction false} AdvancedFromZero(delta: real, n: nat)
    ensures Advanced(0.0, delta, n) == n as real * delta
  {
    if n > 0 {
      AdvancedFromZero(delta, n - 1);
    }
  }

  class Postprocess {
    /** The context the effect issues its calls to. */
    const gl: Context
    const kind: EffectKind
    var frameBuffer: Handle
    var renderDepthStencilBuffer: Handle
    var textureColor: Handle
    var postProcessTextureID: int
    var vaoQuad: Handle
    var vboQuad: Handle
    var attPosition: int
    /** The effect's shader program. */
    var program: Handle
    /** The colour attachments registered so far, in order. */
    var drawingBuffers: seq<Attachment>
    var attributeCounter: nat
    // Motion blur
    var speedTexture: Handle
    var speedTextureID: int
    var intensityID: int
    var samplesNumID: int
    var numberOfSamples: int
    var intensity: real
    // Dizzy
    var deltaTimeID: int
    var radiusID: int
    var viewHeightID: int
    var deltaTime: real
    var radius: real
    var viewHeight: int

    ghost predicate Valid()
      reads this, gl
    {
      gl.Valid()
    }

    /** The uniform uploads of `RenderUniforms`: none for the base class;
        samples then intensity for motion blur; time, radius and view
        height for the dizzy effect. */
    function UniformUploads(): (uploads: seq<Call>)
      reads this
      ensures |uploads| == (match kind case Plain => 0 case MotionBlur => 2 case Dizzy => 3)
      ensures forall i :: 0 <= i < |uploads| ==> uploads[i].Uniform?
    {
      match kind
      case Plain => []
      case MotionBlur => [Uniform(samplesNumID, IntValue(numberOfSamples)), Uniform(intensityID, FloatValue(intensity))]
      case Dizzy =>
        [Uniform(deltaTimeID, FloatValue(deltaTime)), Uniform(radiusID, FloatValue(radius)),
         Uniform(viewHeightID, IntValue(viewHeight))]
    }

    /** The calls of the base initialisation, with the names it handed out. */
    function BaseInitCalls(vertexPath: string, fragmentPath: string, width: int, height: int): seq<Call>
      reads this`vaoQuad, this`vboQuad, this`program, this`attPosition, this`frameBuffer, this`textureColor,
        this`speedTexture, this`renderDepthStencilBuffer
    {
      ProgramSetup(vaoQuad, vboQuad, program, attPosition, vertexPath, fragmentPath)
      + FramebufferSetup(kind, program, frameBuffer, textureColor, speedTexture, renderDepthStencilBuffer, width, height)
    }

    /** Nothing registered and no attributes yet; the object names are
        handed out by `Initialize`. */
    constructor(gl: Context, kind: EffectKind)
      requires gl.Valid()
      ensures Valid() && this.gl == gl && this.kind == kind
      ensures drawingBuffers == [] && attributeCounter == 0
    {
      this.gl := gl;
      this.kind := kind;
      frameBuffer, renderDepthStencilBuffer, textureColor, vaoQuad, vboQuad, program, speedTexture := 0, 0, 0, 0, 0, 0, 0;
      postProcessTextureID, attPosition, speedTextureID, intensityID, samplesNumID := -1, -1, -1, -1, -1;
      deltaTimeID, radiusID, viewHeightID := -1, -1, -1;
      drawingBuffers := [];
      attributeCounter := 0;
      numberOfSamples, intensity := 0, 0.0;
      deltaTime, radius, viewHeight := 0.0, 0.0, 0;
    }

    /** The base destructor: releases the framebuffer, the renderbuffer and
        the colour texture, and its shader member deletes the program. */
    method DestroyBase()
      requires Valid()
      modifies gl
      ensures Valid()
      ensures gl.log == old(gl.log) + DestroyCalls(frameBuffer, renderDepthStencilBuffer, textureColor, program)
      ensures gl.nextName == old(gl.nextName)
    {
      gl.IssueAll(DestroyCalls(frameBuffer, renderDepthStencilBuffer, textureColor, program));
    }

    /** The virtual destructor: the subclass part, with the base
        destructor called explicitly inside it and then once more after it. */
    method Destroy()
      requires Valid()
      modifies gl
      ensures Valid()
      ensures gl.log == old(gl.log) + DestructorCalls(kind, frameBuffer, renderDepthStencilBuffer, textureColor, speedTexture, program)
      ensures gl.nextName == old(gl.nextName)
    {
      DestroyBase();
      match kind
      case Plain =>
      case MotionBlur =>
        gl.Issue(DeleteTextures([speedTexture]));
        DestroyBase();
      case Dizzy =>
        DestroyBase();
    }

    /** Creates the vertex array and the buffer of the screen quad. */
    method InitializeRenderQuad() returns (vao: Handle, vbo: Handle)
      requires Valid()
      modifies gl
      ensures Valid()
      ensures vao == old(gl.nextName) && vbo == vao + 1 && gl.nextName == vbo + 1
      ensures gl.log == old(gl.log) + QuadUpload(vao, vbo)
    {
      vao := gl.NewName();
      gl.Issue(BindVertexArray(vao));
      vbo := gl.NewName();
      gl.Issue(BindArrayBuffer(vbo));
      gl.Issue(BufferData(QUAD_FLOATS));
      assert gl.log == old(gl.log) + QuadUpload(vao, vbo);
    }

    /** Builds the effect's program from its two shader files and makes it current. */
    method InitializeShaders(vertexPath: string, fragmentPath: string) returns (shader: Handle)
      requires Valid()
      modifies gl
      ensures Valid()
      ensures shader == old(gl.nextName) && gl.nextName == shader + 1
      ensures gl.log == old(gl.log) + ShaderSetup(shader, vertexPath, fragmentPath)
    {
      shader := gl.NewProgram(vertexPath, fragmentPath);
      gl.Issue(UseProgram(shader));
    }

    /** Looks up, enables and describes the "position" attribute, and
        counts it. */
    method InitializeAttributes()
      requires Valid()
      modifies this`attPosition, this`attributeCounter, gl
      ensures Valid()
      ensures attPosition == gl.AttribLocation(program, "position")
      ensures attributeCounter == old(attributeCounter) + 1
      ensures gl.log == old(gl.log) + PositionAttribute(program, attPosition)
      ensures gl.nextName == old(gl.nextName)
    {
      attPosition := gl.GetAttribLocation(program, "position");
      gl.Issue(EnableAttrib(attPosition));
      gl.Issue(AttribPointer(attPosition, 2));
      attributeCounter := attributeCounter + 1;
      assert gl.log == old(gl.log) + PositionAttribute(program, attPosition);
    }

    /** Creates one screen-sized texture, attaches it to the bound
        framebuffer at `attachment` and registers that attachment once, at
        the end of `drawingBuffers`. Returns the sampler's location and the
        texture. */
    method InitializeTexture(attachment: Attachment, uniformName: string, width: int, height: int)
      returns (textureID: int, texture: Handle)
      requires Valid()
      modifies this`drawingBuffers, gl
      ensures Valid()
      ensures textureID == gl.UniformLocation(program, uniformName)
      ensures texture == old(gl.nextName) && gl.nextName == texture + 1
      ensures drawingBuffers == old(drawingBuffers) + [attachment]
      ensures gl.log == old(gl.log) + TextureTarget(program, uniformName, texture, attachment, width, height)
    {
      textureID := gl.GetUniformLocation(program, uniformName);
      texture := gl.NewName();
      gl.Issue(BindTexture(texture));
      gl.Issue(TexImage(width, height));
      gl.Issue(TexParameters(ClampToEdge, Linear));
      gl.Issue(FramebufferTexture(attachment, texture));
      drawingBuffers := drawingBuffers + [attachment];
      assert gl.log == old(gl.log) + TextureTarget(program, uniformName, texture, attachment, width, height);
    }

    /** The base texture section: the colour texture on colour attachment 0,
        sampled as "colorTexture". */
    method TexturesSectionBase(width: int, height: int)
      requires Valid()
      modifies this`postProcessTextureID, this`textureColor, this`drawingBuffers, gl
      ensures Valid()
      ensures textureColor == old(gl.nextName) && gl.nextName == textureColor + 1
      ensures postProcessTextureID == gl.UniformLocation(program, "colorTexture")
      ensures drawingBuffers == old(drawingBuffers) + [ColorAttachment(0)]
      ensures gl.log == old(gl.log) + TextureTarget(program, "colorTexture", textureColor, ColorAttachment(0), width, height)
    {
      postProcessTextureID, textureColor := InitializeTexture(ColorAttachment(0), "colorTexture", width, height);
    }

    /** Motion blur's texture section: the base section first, then the
        speed texture on colour attachment 1, sampled as "speedTexture". */
    method TexturesSectionMotionBlur(width: int, height: int)
      requires Valid()
      modifies this`postProcessTextureID, this`textureColor, this`speedTextureID, this`speedTexture, this`drawingBuffers, gl
      ensures Valid()
      ensures textureColor == old(gl.nextName) && speedTexture == textureColor + 1 && gl.nextName == speedTexture + 1
      ensures postProcessTextureID == gl.UniformLocation(program, "colorTexture")
      ensures speedTextureID == gl.UniformLocation(program, "speedTexture")
      ensures drawingBuffers == old(drawingBuffers) + [ColorAttachment(0), ColorAttachment(1)]
      ensures gl.log == old(gl.log) + TextureTarget(program, "colorTexture", textureColor, ColorAttachment(0), width, height)
        + TextureTarget(program, "speedTexture", speedTexture, ColorAttachment(1), width, height)
    {
      TexturesSectionBase(width, height);
      speedTextureID, speedTexture := InitializeTexture(ColorAttachment(1), "speedTexture", width, height);
    }

    /** The virtual texture section: motion blur overrides it, the dizzy
        effect does not. */
    method InitializeTexturesSection(width: int, height: int)
      requires Valid()
      modifies this`postProcessTextureID, this`textureColor, this`speedTextureID, this`speedTexture, this`drawingBuffers, gl
      ensures Valid()
      ensures textureColor == old(gl.nextName)
      ensures kind == MotionBlur ==> speedTexture == textureColor + 1
      ensures gl.nextName == old(gl.nextName) + |Attachments(kind)|
      ensures postProcessTextureID == gl.UniformLocation(program, "colorTexture")
      ensures kind == MotionBlur ==> speedTextureID == gl.UniformLocation(program, "speedTexture")
      ensures drawingBuffers == old(drawingBuffers) + Attachments(kind)
      ensures gl.log == old(gl.log) + TexturesSectionCalls(kind, program, textureColor, speedTexture, width, height)
      ensures kind != MotionBlur ==> speedTexture == old(speedTexture) && speedTextureID == old(speedTextureID)
    {
      if kind == MotionBlur {
        TexturesSectionMotionBlur(width, height);
      } else {
        TexturesSectionBase(width, height);
        assert TexturesSectionCalls(kind, program, textureColor, speedTexture, width, height)
          == TextureTarget(program, "colorTexture", textureColor, ColorAttachment(0), width, height) + [];
      }
    }

    /** Creates the depth/stencil renderbuffer and attaches it to the bound
        framebuffer. */
    method CreateRenderBuffer(width: int, height: int) returns (renderbuffer: Handle)
      requires Valid()
      modifies gl
      ensures Valid()
      ensures renderbuffer == old(gl.nextName) && gl.nextName == renderbuffer + 1
      ensures gl.log == old(gl.log) + RenderbufferSetup(renderbuffer, width, height)
    {
      renderbuffer := gl.NewName();
      gl.Issue(BindRenderbuffer(renderbuffer));
      gl.Issue(RenderbufferStorage(width, height));
      gl.Issue(FramebufferRenderbuffer(DepthStencilAttachment, renderbuffer));
      assert gl.log == old(gl.log) + RenderbufferSetup(renderbuffer, width, height);
    }

    /** Creates the framebuffer the scene is drawn into and binds it. */
    method CreateFrameBuffer() returns (framebuffer: Handle)
      requires Valid()
      modifies gl
      ensures Valid()
      ensures framebuffer == old(gl.nextName) && gl.nextName == framebuffer + 1
      ensures gl.log == old(gl.log) + [GenObject(framebuffer), BindFramebuffer(framebuffer)]
    {
      framebuffer := gl.NewName();
      gl.Issue(BindFramebuffer(framebuffer));
      AppendAssociative(old(gl.log), [GenObject(framebuffer)], [BindFramebuffer(framebuffer)]);
    }

    /** The first half of the base initialisation: the quad, the program and
        the "position" attribute, counted from zero. */
    method InitializeProgram(vertexPath: string, fragmentPath: string)
      requires Valid()
      modifies this`attributeCounter, this`vaoQuad, this`vboQuad, this`program, this`attPosition, gl
      ensures Valid()
      ensures attributeCounter == 1
      ensures vaoQuad == old(gl.nextName) && vboQuad == vaoQuad + 1 && program == vboQuad + 1
      ensures gl.nextName == program + 1
      ensures attPosition == gl.AttribLocation(program, "position")
      ensures gl.log == old(gl.log) + ProgramSetup(vaoQuad, vboQuad, program, attPosition, vertexPath, fragmentPath)
    {
      attributeCounter := 0;
      vaoQuad, vboQuad := InitializeRenderQuad();
      program := InitializeShaders(vertexPath, fragmentPath);
      InitializeAttributes();
      AppendAssociative(old(gl.log), QuadUpload(vaoQuad, vboQuad), ShaderSetup(program, vertexPath, fragmentPath));
      AppendAssociative(old(gl.log), QuadUpload(vaoQuad, vboQuad) + ShaderSetup(program, vertexPath, fragmentPath),
        PositionAttribute(program, attPosition));
    }

    /** The second half of the base initialisation: the framebuffer, the
        texture section and the renderbuffer. */
    method InitializeTarget(width: int, height: int)
      requires Valid()
      modifies this`frameBuffer, this`postProcessTextureID, this`textureColor, this`speedTextureID, this`speedTexture, this`drawingBuffers, this`renderDepthStencilBuffer, gl
      ensures Valid()
      ensures drawingBuffers == old(drawingBuffers) + Attachments(kind)
      ensures frameBuffer == old(gl.nextName) && textureColor == frameBuffer + 1
      ensures kind == MotionBlur ==> speedTexture == textureColor + 1
      ensures renderDepthStencilBuffer == textureColor + |Attachments(kind)| && gl.nextName == renderDepthStencilBuffer + 1
      ensures postProcessTextureID == gl.UniformLocation(program, "colorTexture")
      ensures kind == MotionBlur ==> speedTextureID == gl.UniformLocation(program, "speedTexture")
      ensures gl.log == old(gl.log) + FramebufferSetup(kind, program, frameBuffer, textureColor, speedTexture, renderDepthStencilBuffer, width, height)
    {
      frameBuffer := CreateFrameBuffer();
      InitializeTexturesSection(width, height);
      renderDepthStencilBuffer := CreateRenderBuffer(width, height);
      var framebuffer, textures := [GenObject(frameBuffer), BindFramebuffer(frameBuffer)],
        TexturesSectionCalls(kind, program, textureColor, speedTexture, width, height);
      AppendAssociative(old(gl.log), framebuffer, textures);
      AppendAssociative(old(gl.log), framebuffer + textures, RenderbufferSetup(renderDepthStencilBuffer, width, height));
    }

    /** The base initialisation: quad, shaders, the one attribute, a new
        framebuffer bound, the texture section and the renderbuffer, in that
        order; names are handed out in that order too. */
    method InitializeBase(vertexPath: string, fragmentPath: string, width: int, height: int)
      requires Valid()
      modifies this`attributeCounter, this`vaoQuad, this`vboQuad, this`program, this`attPosition, this`frameBuffer, this`postProcessTextureID, this`textureColor, this`speedTextureID, this`speedTexture, this`drawingBuffers, this`renderDepthStencilBuffer, gl
      ensures Valid()
      ensures attributeCounter == 1
      ensures drawingBuffers == old(drawingBuffers) + Attachments(kind)
      ensures vaoQuad == old(gl.nextName) && vboQuad == vaoQuad + 1 && program == vboQuad + 1
      ensures frameBuffer == program + 1 && textureColor == frameBuffer + 1
      ensures kind == MotionBlur ==> speedTexture == textureColor + 1
      ensures renderDepthStencilBuffer == textureColor + |Attachments(kind)| && gl.nextName == renderDepthStencilBuffer + 1
      ensures attPosition == gl.AttribLocation(program, "position")
      ensures postProcessTextureID == gl.UniformLocation(program, "colorTexture")
      ensures kind == MotionBlur ==> speedTextureID == gl.UniformLocation(program, "speedTexture")
      ensures gl.log == old(gl.log) + BaseInitCalls(vertexPath, fragmentPath, width, height)
    {
      InitializeProgram(vertexPath, fragmentPath);
      InitializeTarget(width, height);
      AppendAssociative(old(gl.log), ProgramSetup(vaoQuad, vboQuad, program, attPosition, vertexPath, fragmentPath),
        FramebufferSetup(kind, program, frameBuffer, textureColor, speedTexture, renderDepthStencilBuffer, width, height));
    }

    /** Motion blur: the base initialisation, 8 samples at intensity 0.7,
        then the two uniform lookups. */
    method InitializeMotionBlur(vertexPath: string, fragmentPath: string, width: int, height: int)
      requires Valid() && kind == MotionBlur
      modifies this`attributeCounter, this`vaoQuad, this`vboQuad, this`program, this`attPosition, this`frameBuffer, this`postProcessTextureID, this`textureColor, this`speedTextureID, this`speedTexture, this`drawingBuffers, this`renderDepthStencilBuffer, this`numberOfSamples, this`intensity, this`intensityID, this`samplesNumID, gl
      ensures Valid()
      ensures numberOfSamples == 8 && intensity == 0.7
      ensures intensityID == gl.UniformLocation(program, "intensity")
      ensures samplesNumID == gl.UniformLocation(program, "numberOfSamples")
      ensures attributeCounter == 1 && drawingBuffers == old(drawingBuffers) + Attachments(kind)
      ensures frameBuffer != 0 && renderDepthStencilBuffer != 0
      ensures gl.log == old(gl.log) + BaseInitCalls(vertexPath, fragmentPath, width, height) + ExtraQueries(kind, program)
    {
      InitializeBase(vertexPath, fragmentPath, width, height);
      numberOfSamples := 8;
      intensity := 0.7;
      intensityID := gl.GetUniformLocation(program, "intensity");
      samplesNumID := gl.GetUniformLocation(program, "numberOfSamples");
    }

    /** The dizzy effect: the base initialisation, a stopped clock, radius 10
        and the screen height, then the three uniform lookups. */
    method InitializeDizzy(vertexPath: string, fragmentPath: string, width: int, height: int)
      requires Valid() && kind == Dizzy
      modifies this`attributeCounter, this`vaoQuad, this`vboQuad, this`program, this`attPosition, this`frameBuffer, this`postProcessTextureID, this`textureColor, this`speedTextureID, this`speedTexture, this`drawingBuffers, this`renderDepthStencilBuffer, this`deltaTime, this`radius, this`viewHeight, this`deltaTimeID, this`radiusID, this`viewHeightID, gl
      ensures Valid()
      ensures deltaTime == 0.0 && radius == 10.0 && viewHeight == height
      ensures deltaTimeID == gl.UniformLocation(program, "deltaTime")
      ensures radiusID == gl.UniformLocation(program, "radius")
      ensures viewHeightID == gl.UniformLocation(program, "viewHeight")
      ensures attributeCounter == 1 && drawingBuffers == old(drawingBuffers) + Attachments(kind)
      ensures frameBuffer != 0 && renderDepthStencilBuffer != 0
      ensures gl.log == old(gl.log) + BaseInitCalls(vertexPath, fragmentPath, width, height) + ExtraQueries(kind, program)
    {
      InitializeBase(vertexPath, fragmentPath, width, height);
      deltaTime := 0.0;
      radius := 10.0;
      viewHeight := height;
      deltaTimeID := gl.GetUniformLocation(program, "deltaTime");
      radiusID := gl.GetUniformLocation(program, "radius");
      viewHeightID := gl.GetUniformLocation(program, "viewHeight");
    }

    /** The virtual initialisation: the base one, followed by the
        subclass's parameters and uniform lookups. */
    method Initialize(vertexPath: string, fragmentPath: string, width: int, height: int)
      requires Valid()
      modifies this, gl
      ensures Valid()
      ensures attributeCounter == 1 && drawingBuffers == old(drawingBuffers) + Attachments(kind)
      ensures frameBuffer != 0 && renderDepthStencilBuffer != 0
      ensures kind == MotionBlur ==> numberOfSamples == 8 && intensity == 0.7
      ensures kind == Dizzy ==> deltaTime == 0.0 && radius == 10.0 && viewHeight == height
      ensures gl.log == old(gl.log) + BaseInitCalls(vertexPath, fragmentPath, width, height) + ExtraQueries(kind, program)
    {
      match kind
      case MotionBlur =>
        InitializeMotionBlur(vertexPath, fragmentPath, width, height);
      case Dizzy =>
        InitializeDizzy(vertexPath, fragmentPath, width, height);
      case Plain =>
        InitializeBase(vertexPath, fragmentPath, width, height);
        assert gl.log == old(gl.log) + BaseInitCalls(vertexPath, fragmentPath, width, height) + [];
    }

    /** Redirects the scene into the effect's framebuffer, drawing into
        every colour attachment it registered, with depth testing on. */
    method PreProcess()
      requires Valid()
      modifies gl
      ensures Valid()
      ensures gl.log == old(gl.log) + PreProcessCalls(frameBuffer, drawingBuffers)
      ensures gl.nextName == old(gl.nextName)
    {
      gl.IssueAll(PreProcessCalls(frameBuffer, drawingBuffers));
    }

    /** The base resize: the colour texture and the effect's own
        renderbuffer get the new size. */
    method ResizeBase(width: int, height: int)
      requires Valid()
      modifies gl
      ensures Valid()
      ensures gl.log == old(gl.log) + ResizeCalls(Plain, textureColor, renderDepthStencilBuffer, speedTexture, width, height)
      ensures gl.nextName == old(gl.nextName)
    {
      gl.Issue(BindTexture(textureColor));
      gl.Issue(TexImage(width, height));
      gl.Issue(BindRenderbuffer(renderDepthStencilBuffer));
      gl.Issue(RenderbufferStorage(width, height));
      assert gl.log == old(gl.log) + ResizeCalls(Plain, textureColor, renderDepthStencilBuffer, speedTexture, width, height);
    }

    /** The virtual resize: motion blur also resizes its speed texture, the
        dizzy effect also takes the new screen height. */
    method Resize(width: int, height: int)
      requires Valid()
      modifies this`viewHeight, gl
      ensures Valid()
      ensures gl.log == old(gl.log) + ResizeCalls(kind, textureColor, renderDepthStencilBuffer, speedTexture, width, height)
      ensures gl.nextName == old(gl.nextName)
      ensures viewHeight == if kind == Dizzy then height else old(viewHeight)
    {
      ResizeBase(width, height);
      match kind
      case MotionBlur =>
        ghost var base := gl.log;
        gl.Issue(BindTexture(speedTexture));
        gl.Issue(TexImage(width, height));
        AppendAssociative(base, [BindTexture(speedTexture)], [TexImage(width, height)]);
        AppendAssociative(old(gl.log), ResizeCalls(Plain, textureColor, renderDepthStencilBuffer, speedTexture, width, height),
          [BindTexture(speedTexture), TexImage(width, height)]);
      case Dizzy =>
        viewHeight := height;
      case Plain =>
    }

    /** Advances the dizzy effect's clock. */
    method Update(delta: real)
      requires kind == Dizzy
      modifies this`deltaTime
      ensures deltaTime == old(deltaTime) + delta
    {
      deltaTime := deltaTime + delta;
    }

    /** The virtual texture binding: the colour texture on unit 0, and for
        motion blur the speed texture on unit 1. */
    method RenderTextures()
      requires Valid()
      modifies gl
      ensures Valid()
      ensures gl.log == old(gl.log) + RenderTexturesCalls(kind, textureColor, postProcessTextureID, speedTexture, speedTextureID)
      ensures gl.nextName == old(gl.nextName)
    {
      gl.Issue(ActiveTexture(0));
      gl.Issue(BindTexture(textureColor));
      gl.Issue(Uniform(postProcessTextureID, IntValue(0)));
      assert gl.log == old(gl.log) + BindUnit(0, textureColor, postProcessTextureID);
      if kind == MotionBlur {
        ghost var base := gl.log;
        gl.Issue(ActiveTexture(1));
        gl.Issue(BindTexture(speedTexture));
        gl.Issue(Uniform(speedTextureID, IntValue(1)));
        assert gl.log == base + BindUnit(1, speedTexture, speedTextureID);
        AppendAssociative(old(gl.log), BindUnit(0, textureColor, postProcessTextureID), BindUnit(1, speedTexture, speedTextureID));
      } else {
        assert RenderTexturesCalls(kind, textureColor, postProcessTextureID, speedTexture, speedTextureID)
          == BindUnit(0, textureColor, postProcessTextureID) + [];
      }
    }

    /** The virtual uniform upload: nothing for the base class; samples and
        intensity for motion blur; time, radius and height for the dizzy effect. */
    method RenderUniforms()
      requires Valid()
      modifies gl
      ensures Valid()
      ensures gl.log == old(gl.log) + UniformUploads()
      ensures gl.nextName == old(gl.nextName)
    {
      match kind
      case Plain =>
        assert gl.log == old(gl.log) + [];
      case MotionBlur =>
        gl.Issue(Uniform(samplesNumID, IntValue(numberOfSamples)));
        gl.Issue(Uniform(intensityID, FloatValue(intensity)));
      case Dizzy =>
        gl.Issue(Uniform(deltaTimeID, FloatValue(deltaTime)));
        gl.Issue(Uniform(radiusID, FloatValue(radius)));
        gl.Issue(Uniform(viewHeightID, IntValue(viewHeight)));
    }

    /** The quad's buffer as attribute 0, three floats per vertex. */
    method DrawAttributes()
      requires Valid()
      modifies gl
      ensures Valid()
      ensures gl.log == old(gl.log) + QuadPointers(vboQuad)
      ensures gl.nextName == old(gl.nextName)
    {
      gl.Issue(BindArrayBuffer(vboQuad));
      gl.Issue(AttribPointer(0, 3));
    }

    /** Draws the processed image: the default framebuffer, the effect's
        program, its textures and uniforms, then the quad with attributes
        0 .. attributeCounter-1 enabled around the draw. */
    method Draw()
      requires Valid()
      modifies gl
      ensures Valid()
      ensures gl.log == old(gl.log) + CompositeCalls(program, RenderTexturesCalls(kind, textureColor, postProcessTextureID, speedTexture, speedTextureID),
        UniformUploads(), attributeCounter, vboQuad)
      ensures gl.nextName == old(gl.nextName)
    {
      gl.Issue(BindFramebuffer(0));
      gl.Issue(UseProgram(program));
      ghost var head := gl.log;
      RenderTextures();
      RenderUniforms();
      ghost var prefix := gl.log;
      var i := 0;
      while i < attributeCounter
        invariant 0 <= i <= attributeCounter && gl.Valid()
        invariant gl.log == prefix + EnableRange(i)
        invariant gl.nextName == old(gl.nextName)
      {
        gl.Issue(EnableAttrib(i));
        i := i + 1;
      }
      DrawAttributes();
      gl.Issue(DrawArrays(QUAD_VERTICES));
      ghost var drawn := gl.log;
      i := 0;
      while i < attributeCounter
        invariant 0 <= i <= attributeCounter && gl.Valid()
        invariant gl.log == drawn + DisableRange(i)
        invariant gl.nextName == old(gl.nextName)
      {
        gl.Issue(DisableAttrib(i));
        i := i + 1;
      }
      ghost var textures := RenderTexturesCalls(kind, textureColor, postProcessTextureID, speedTexture, speedTextureID);
      ghost var quad := EnabledDraw(attributeCounter, QuadPointers(vboQuad), DrawArrays(QUAD_VERTICES));
      assert head == old(gl.log) + [BindFramebuffer(0), UseProgram(program)];
      assert prefix == head + textures + UniformUploads();
      assert gl.log == prefix + quad by {
        AppendAssociative(prefix + EnableRange(attributeCounter), QuadPointers(vboQuad), [DrawArrays(QUAD_VERTICES)]);
        AppendAssociative(prefix, EnableRange(attributeCounter), QuadPointers(vboQuad));
        AppendAssociative(prefix, EnableRange(attributeCounter) + QuadPointers(vboQuad), [DrawArrays(QUAD_VERTICES)]);
        AppendAssociative(prefix, EnableRange(attributeCounter) + QuadPointers(vboQuad) + [DrawArrays(QUAD_VERTICES)],
          DisableRange(attributeCounter));
      }
      AppendAssociative(old(gl.log), [BindFramebuffer(0), UseProgram(program)], textures);
      AppendAssociative(old(gl.log), [BindFramebuffer(0), UseProgram(program)] + textures, UniformUploads());
      AppendAssociative(old(gl.log), [BindFramebuffer(0), UseProgram(program)] + textures + UniformUploads(), quad);
    }
  }
}

/** The OpenGL context as an abstract command log.
    Every GL entry point the program uses is a `Call`; `Apply` gives the part
    of the driver state the program relies on (bindings, enabled attributes,
    raster flags, storage sizes, uniform values and the draws issued) and
    `Run` replays a sequence of calls. `Context` is the live context: the log
    of calls issued so far, whose replay is the driver state. */
module Gl {
  import opened Geometry

  /** An OpenGL object name; 0 names the default object. */
  type Handle = nat

  datatype Attachment = ColorAttachment(index: nat) | DepthStencilAttachment

  datatype Capability = DepthTest | StencilTest | Blend | CullFace

  datatype Comparison = Always | Equal | Less

  datatype StencilAction = Keep | Replace

  datatype Wrap = ClampToEdge | Repeat

  datatype Filter = Linear | LinearMipmapLinear

  datatype UniformValue =
    | IntValue(i: int)
    | FloatValue(f: real)
    | MatrixValue(m: Mat)
    | FloatsValue(fs: seq<real>)

  /** Stencil test configuration: glStencilFunc, glStencilOp and glStencilMask. */
  datatype Stencil = Stencil(
    func: Comparison, ref: int, readMask: int,
    onStencilFail: StencilAction, onDepthFail: StencilAction, onPass: StencilAction,
    writeMask: int)

  /** The fixed-function state a draw call is rasterised with. */
  datatype Raster = Raster(
    framebuffer: Handle,
    capabilities: set<Capability>,
    depthWrite: bool,
    stencil: Stencil,
    blendAlpha: bool)

  /** What one draw call saw when it was issued. */
  datatype DrawRecord = DrawRecord(
    raster: Raster,
    program: Handle,
    vertices: nat,
    attribs: set<int>,
    units: map<nat, Handle>)

  datatype Call =
    | GenObject(name: Handle)
    | CreateProgram(program: Handle, vertexPath: string, fragmentPath: string)
    | QueryUniform(program: Handle, uniformName: string)
    | QueryAttrib(program: Handle, attribName: string)
    | BindVertexArray(vao: Handle)
    | BindArrayBuffer(buffer: Handle)
    | BindElementBuffer(buffer: Handle)
    | BufferData(count: nat)
    | BindFramebuffer(framebuffer: Handle)
    | BindRenderbuffer(renderbuffer: Handle)
    | RenderbufferStorage(width: int, height: int)
    | FramebufferRenderbuffer(attachment: Attachment, renderbuffer: Handle)
    | ActiveTexture(unit: nat)
    | BindTexture(texture: Handle)
    | TexImage(width: int, height: int)
    | TexParameters(wrap: Wrap, minFilter: Filter)
    | GenerateMipmap
    | FramebufferTexture(attachment: Attachment, texture: Handle)
    | DrawBuffers(buffers: seq<Attachment>)
    | Enable(cap: Capability)
    | Disable(cap: Capability)
    | DepthFunc(depthFunc: Comparison)
    | DepthMask(write: bool)
    | StencilFunc(func: Comparison, ref: int, readMask: int)
    | StencilOp(onStencilFail: StencilAction, onDepthFail: StencilAction, onPass: StencilAction)
    | StencilMask(writeMask: int)
    | BlendAlpha
    | ClearColor
    | Clear(color: bool, depth: bool, stencil: bool)
    | Viewport(width: int, height: int)
    | UseProgram(program: Handle)
    | Uniform(location: int, value: UniformValue)
    | EnableAttrib(index: int)
    | DisableAttrib(index: int)
    | AttribPointer(index: int, size: nat)
    | DrawArrays(count: nat)
    | DrawElements(count: nat)
    | DeleteTextures(textures: seq<Handle>)
    | DeleteBuffers(names: seq<Handle>)
    | DeleteFramebuffers(names: seq<Handle>)
    | DeleteRenderbuffers(names: seq<Handle>)
    | DeleteProgram(program: Handle)

  /** Object bindings, storage and program parameters: everything the
      draws do not record. */
  datatype Objects = Objects(
    renderbuffer: Handle,
    activeUnit: nat,
    arrayBuffer: Handle,
    elementBuffer: Handle,
    textureSize: map<Handle, (int, int)>,
    renderbufferSize: map<Handle, (int, int)>,
    attachments: map<(Handle, Attachment), Handle>,
    drawBuffers: map<Handle, seq<Attachment>>,
    uniforms: map<(Handle, int), UniformValue>)

  /** The driver state: what a draw sees (raster state, program, enabled
      attributes, texture units), the draws issued so far, and the objects. */
  datatype GlState = GlState(
    raster: Raster,
    program: Handle,
    attribs: set<int>,
    units: map<nat, Handle>,
    draws: seq<DrawRecord>,
    objects: Objects)

  /** The state of a fresh context, as the OpenGL specification defines it. */
  function Initial(): GlState
  {
    GlState(
      Raster(0, {}, true, Stencil(Always, 0, 0xFF, Keep, Keep, Keep, 0xFF), false),
      0, {}, map[], [],
      Objects(0, 0, 0, 0, map[], map[], map[], map[], map[]))
  }

  /** The texture bound to the active unit (0, the default texture, if none). */
  function BoundTexture(s: GlState): Handle
  {
    if s.objects.activeUnit in s.units then s.units[s.objects.activeUnit] else 0
  }

  /** The effect of one call. Calls that only create names, query the linker,
      upload buffer contents or clear pixels leave the modelled state as it is;
      calls that GL rejects (a negative attribute index or uniform location,
      renderbuffer storage with no renderbuffer bound, attaching to or
      declaring draw buffers of the default framebuffer) have no effect. */
  function Apply(s: GlState, c: Call): GlState
  {
    match c
    case BindVertexArray(_) => s
    case BindArrayBuffer(b) => s.(objects := s.objects.(arrayBuffer := b))
    case BindElementBuffer(b) => s.(objects := s.objects.(elementBuffer := b))
    case BindFramebuffer(fb) => s.(raster := s.raster.(framebuffer := fb))
    case BindRenderbuffer(rb) => s.(objects := s.objects.(renderbuffer := rb))
    case RenderbufferStorage(w, h) =>
      var o := s.objects;
      if o.renderbuffer == 0 then s
      else s.(objects := o.(renderbufferSize := o.renderbufferSize[o.renderbuffer := (w, h)]))
    case FramebufferRenderbuffer(a, rb) =>
      var o := s.objects;
      if s.raster.framebuffer == 0 then s
      else s.(objects := o.(attachments := o.attachments[(s.raster.framebuffer, a) := rb]))
    case ActiveTexture(u) => s.(objects := s.objects.(activeUnit := u))
    case BindTexture(t) => s.(units := s.units[s.objects.activeUnit := t])
    case TexImage(w, h) =>
      var o := s.objects;
      s.(objects := o.(textureSize := o.textureSize[BoundTexture(s) := (w, h)]))
    case FramebufferTexture(a, t) =>
      var o := s.objects;
      if s.raster.framebuffer == 0 then s
      else s.(objects := o.(attachments := o.attachments[(s.raster.framebuffer, a) := t]))
    case DrawBuffers(bs) =>
      var o := s.objects;
      if s.raster.framebuffer == 0 then s
      else s.(objects := o.(drawBuffers := o.drawBuffers[s.raster.framebuffer := bs]))
    case Enable(cap) => s.(raster := s.raster.(capabilities := s.raster.capabilities + {cap}))
    case Disable(cap) => s.(raster := s.raster.(capabilities := s.raster.capabilities - {cap}))
    case DepthMask(w) => s.(raster := s.raster.(depthWrite := w))
    case StencilFunc(f, r, m) =>
      s.(raster := s.raster.(stencil := s.raster.stencil.(func := f, ref := r, readMask := m)))
    case StencilOp(a, b, d) =>
      s.(raster := s.raster.(stencil := s.raster.stencil.(onStencilFail := a, onDepthFail := b, onPass := d)))
    case StencilMask(m) => s.(raster := s.raster.(stencil := s.raster.stencil.(writeMask := m)))
    case BlendAlpha => s.(raster := s.raster.(blendAlpha := true))
    case UseProgram(p) => s.(program := p)
    case Uniform(loc, v) =>
      var o := s.objects;
      if loc < 0 then s else s.(objects := o.(uniforms := o.uniforms[(s.program, loc) := v]))
    case EnableAttrib(i) => if i < 0 then s else s.(attribs := s.attribs + {i})
    case DisableAttrib(i) => s.(attribs := s.attribs - {i})
    case DrawArrays(n) =>
      s.(draws := s.draws + [DrawRecord(s.raster, s.program, n, s.attribs, s.units)])
    case DrawElements(n) =>
      s.(draws := s.draws + [DrawRecord(s.raster, s.program, n, s.attribs, s.units)])
    case _ => s
  }

  /** Replays `calls`, first to last, from `s`. */
  function Run(s: GlState, calls: seq<Call>): GlState
    decreases |calls|
  {
    if calls == [] then s else Apply(Run(s, calls[..|calls| - 1]), calls[|calls| - 1])
  }

  /** Replaying one call is applying it. */
  lemma RunOne(s: GlState, c: Call)
    ensures Run(s, [c]) == Apply(s, c)
  {
    assert [c][..0] == [];
  }

  /** Replaying one more call is applying it to the replayed state. */
  lemma RunSnoc(s: GlState, calls: seq<Call>, c: Call)
    ensures Run(s, calls + [c]) == Apply(Run(s, calls), c)
  {
    assert (calls + [c])[..|calls|] == calls;
  }

  /** Replaying three calls is applying them in order. */
  lemma RunThree(s: GlState, a: Call, b: Call, c: Call)
    ensures Run(s, [a, b, c]) == Apply(Apply(Apply(s, a), b), c)
  {
    assert [a, b, c][..2] == [a, b];
    assert [a, b][..1] == [a];
    RunOne(s, a);
  }

  /** Appending to a log in two steps is appending the two parts at once. */
  lemma AppendAssociative(a: seq<Call>, b: seq<Call>, c: seq<Call>)
    ensures a + b + c == a + (b + c)
  {
  }

  /** Replaying two logs one after the other is replaying their concatenation. */
  lemma {:induction false} RunAppend(s: GlState, a: seq<Call>, b: seq<Call>)
    ensures Run(s, a + b) == Run(Run(s, a), b)
    decreases |b|
  {
    if b == [] {
      assert a + b == a;
    } else {
      var b' := b[..|b| - 1];
      assert (a + b)[..|a + b| - 1] == a + b';
      RunAppend(s, a, b');
    }
  }

  /** The attribute indices 0 .. n-1. */
  function Below(n: nat): set<int>
  {
    if n == 0 then {} else Below(n - 1) + {n - 1}
  }

  /** glEnableVertexAttribArray(i) for i = 0 .. n-1, in that order. */
  function EnableRange(n: nat): seq<Call>
  {
    if n == 0 then [] else EnableRange(n - 1) + [EnableAttrib(n - 1)]
  }

  /** glDisableVertexAttribArray(i) for i = 0 .. n-1, in that order. */
  function DisableRange(n: nat): seq<Call>
  {
    if n == 0 then [] else DisableRange(n - 1) + [DisableAttrib(n - 1)]
  }

  /** Enabling one attribute array adds its index and changes nothing else. */
  lemma EnableStep(r: GlState, i: nat)
    ensures Apply(r, EnableAttrib(i)) == r.(attribs := r.attribs + {i})
  {
  }

  /** Disabling one attribute array removes its index and changes nothing else. */
  lemma DisableStep(r: GlState, i: int)
    ensures Apply(r, DisableAttrib(i)) == r.(attribs := r.attribs - {i})
  {
  }

  /** Enabling 0 .. n-1 adds exactly those indices and changes nothing else. */
  lemma {:induction false} EnableRangeEffect(s: GlState, n: nat)
    ensures Run(s, EnableRange(n)) == s.(attribs := s.attribs + Below(n))
  {
    if n == 0 {
      assert s.attribs + {} == s.attribs;
    } else {
      var before := Run(s, EnableRange(n - 1));
      calc {
        Run(s, EnableRange(n));
      == { RunSnoc(s, EnableRange(n - 1), EnableAttrib(n - 1)); }
        Apply(before, EnableAttrib(n - 1));
      == { EnableStep(before, n - 1); }
        before.(attribs := before.attribs + {n - 1});
      == { EnableRangeEffect(s, n - 1); }
        s.(attribs := s.attribs + Below(n - 1) + {n - 1});
      }
    }
  }


  /** Disabling 0 .. n-1 removes exactly those indices and changes nothing else. */
  lemma {:induction false} DisableRangeEffect(s: GlState, n: nat)
    ensures Run(s, DisableRange(n)) == s.(attribs := s.attribs - Below(n))
  {
    if n == 0 {
      assert s.attribs - {} == s.attribs;
    } else {
      var before := Run(s, DisableRange(n - 1));
      calc {
        Run(s, DisableRange(n));
      == { RunSnoc(s, DisableRange(n - 1), DisableAttrib(n - 1)); }
        Apply(before, DisableAttrib(n - 1));
      == { DisableStep(before, n - 1); }
        before.(attribs := before.attribs - {n - 1});
      == { DisableRangeEffect(s, n - 1); }
        s.(attribs := s.attribs - Below(n - 1) - {n - 1});
      }
    }
  }


  /** Calls that only write uniforms or bind and describe buffers. */
  predicate DataOnly(c: Call)
  {
    c.Uniform? || c.BindArrayBuffer? || c.BindElementBuffer? || c.AttribPointer?
  }

  /** One such call leaves the raster state, the program, the texture
      units, the enabled attributes and the draws as they were. */
  lemma DataOnlyStep(r: GlState, c: Call)
    requires DataOnly(c)
    ensures var t := Apply(r, c);
      t.raster == r.raster && t.program == r.program && t.units == r.units &&
      t.attribs == r.attribs && t.draws == r.draws
  {
  }

  /** Such calls leave the raster state, the program, the texture units,
      the enabled attributes and the draws as they were. */
  lemma {:induction false} DataOnlyKeeps(s: GlState, calls: seq<Call>)
    requires forall i :: 0 <= i < |calls| ==> DataOnly(calls[i])
    ensures var t := Run(s, calls);
      t.raster == s.raster && t.program == s.program && t.units == s.units &&
      t.attribs == s.attribs && t.draws == s.draws
    decreases |calls|
  {
    if calls != [] {
      var init := calls[..|calls| - 1];
      DataOnlyKeeps(s, init);
      DataOnlyStep(Run(s, init), calls[|calls| - 1]);
    }
  }

  /** The shape every draw of the program has: enable attributes 0 .. n-1,
      bind and describe the buffers (`setup`), draw, disable 0 .. n-1. */
  function EnabledDraw(n: nat, setup: seq<Call>, draw: Call): seq<Call>
  {
    EnableRange(n) + setup + [draw] + DisableRange(n)
  }

  /** Replaying such a sequence is replaying its four parts in turn. */
  lemma EnabledDrawSteps(s: GlState, n: nat, setup: seq<Call>, draw: Call)
    ensures Run(s, EnabledDraw(n, setup, draw)) == Run(Run(Run(Run(s, EnableRange(n)), setup), [draw]), DisableRange(n))
  {
    RunAppend(s, EnableRange(n), setup);
    RunAppend(s, EnableRange(n) + setup, [draw]);
    RunAppend(s, EnableRange(n) + setup + [draw], DisableRange(n));
  }

  /** Selecting a program changes nothing else a draw depends on. */
  lemma UseProgramStep(s: GlState, program: Handle)
    ensures var t := Run(s, [UseProgram(program)]);
      t.program == program && t.raster == s.raster && t.attribs == s.attribs && t.units == s.units &&
      t.draws == s.draws
  {
    RunOne(s, UseProgram(program));
  }

  /** A draw call records what it sees and changes nothing else. */
  lemma DrawStep(s: GlState, draw: Call)
    requires draw.DrawArrays? || draw.DrawElements?
    ensures var t := Run(s, [draw]);
      t.draws == s.draws + [DrawRecord(s.raster, s.program, draw.count, s.attribs, s.units)] &&
      t.attribs == s.attribs && t.raster == s.raster && t.program == s.program && t.units == s.units
  {
    RunOne(s, draw);
  }

  /** Such a sequence records exactly one draw, which sees attributes
      0 .. n-1 enabled; afterwards exactly those attributes are disabled
      and nothing else a draw depends on has changed. */
  lemma EnabledDrawEffect(s: GlState, n: nat, setup: seq<Call>, draw: Call)
    requires forall i :: 0 <= i < |setup| ==> DataOnly(setup[i])
    requires draw.DrawArrays? || draw.DrawElements?
    ensures var t := Run(s, EnabledDraw(n, setup, draw));
      t.draws == s.draws + [DrawRecord(s.raster, s.program, draw.count, s.attribs + Below(n), s.units)] &&
      t.attribs == s.attribs - Below(n) &&
      t.raster == s.raster && t.program == s.program && t.units == s.units
  {
    var s1 := Run(s, EnableRange(n));
    var s2 := Run(s1, setup);
    var s3 := Run(s2, [draw]);
    var t := Run(s3, DisableRange(n));
    assert Run(s, EnabledDraw(n, setup, draw)) == t by {
      EnabledDrawSteps(s, n, setup, draw);
    }
    EnableRangeEffect(s, n);
    DataOnlyKeeps(s1, setup);
    DrawStep(s2, draw);
    DisableRangeEffect(s3, n);
    assert (s.attribs + Below(n)) - Below(n) == s.attribs - Below(n);
  }

  /** Texture `tex` on unit `u`, and the sampler uniform at `loc` pointed at `u`. */
  function BindUnit(u: nat, tex: Handle, loc: int): seq<Call>
  {
    [ActiveTexture(u), BindTexture(tex), Uniform(loc, IntValue(u))]
  }

  /** The unit then holds the texture and the sampler (when the program has
      it) holds the unit number; nothing else a draw depends on changes. */
  lemma BindUnitEffect(r: GlState, u: nat, tex: Handle, loc: int)
    ensures var t := Run(r, BindUnit(u, tex, loc));
      t.units == r.units[u := tex] && t.raster == r.raster && t.program == r.program &&
      t.attribs == r.attribs && t.draws == r.draws &&
      t.objects.uniforms == if loc < 0 then r.objects.uniforms else r.objects.uniforms[(r.program, loc) := IntValue(u)]
  {
    RunThree(r, ActiveTexture(u), BindTexture(tex), Uniform(loc, IntValue(u)));
  }

  /** Calls that create an object name: glGen* and program creation. */
  predicate Creates(c: Call)
  {
    c.GenObject? || c.CreateProgram?
  }

  /** The name a creating call hands out. */
  function Created(c: Call): Handle
    requires Creates(c)
  {
    if c.GenObject? then c.name else c.program
  }

  /** Every name created in `log` is a real object name below `next`. */
  ghost predicate NamesBelow(log: seq<Call>, next: Handle)
  {
    forall i :: 0 <= i < |log| && Creates(log[i]) ==> 1 <= Created(log[i]) < next
  }

  /** The live GL context: the calls issued so far and the state they produce. */
  class Context {
    var log: seq<Call>
    var nextName: Handle

    /** The locations the linker gave each (program, uniform name). */
    const uniformLocations: map<(Handle, string), int>
    /** The locations the linker gave each (program, attribute name). */
    const attribLocations: map<(Handle, string), int>

    /** Names are handed out from 1 up; 0 stays the default object, and
        every name the log created lies below the next one. */
    ghost predicate Valid()
      reads this
    {
      nextName >= 1 && NamesBelow(log, nextName)
    }

    /** The driver state the calls issued so far produce. */
    function State(): GlState
      reads this
    {
      Run(Initial(), log)
    }

    constructor(uniformLocations: map<(Handle, string), int>, attribLocations: map<(Handle, string), int>)
      ensures Valid()
      ensures log == [] && nextName == 1
      ensures this.uniformLocations == uniformLocations && this.attribLocations == attribLocations
    {
      log := [];
      nextName := 1;
      this.uniformLocations := uniformLocations;
      this.attribLocations := attribLocations;
    }

    /** glGetUniformLocation: -1 for a name the program does not use. */
    function UniformLocation(program: Handle, name: string): int
    {
      if (program, name) in uniformLocations then uniformLocations[(program, name)] else -1
    }

    /** glGetAttribLocation: -1 for a name the program does not use. */
    function AttribLocation(program: Handle, name: string): int
    {
      if (program, name) in attribLocations then attribLocations[(program, name)] else -1
    }

    /** Issues one call that creates no name. */
    method Issue(c: Call)
      requires Valid() && !Creates(c)
      modifies this
      ensures Valid()
      ensures log == old(log) + [c]
      ensures nextName == old(nextName)
    {
      log := log + [c];
    }

    /** Issues a batch of calls that create no name, in order. */
    method IssueAll(calls: seq<Call>)
      requires Valid() && forall i :: 0 <= i < |calls| ==> !Creates(calls[i])
      modifies this
      ensures Valid()
      ensures log == old(log) + calls
      ensures nextName == old(nextName)
    {
      log := log + calls;
    }

    /** glGen*: hands out a name never handed out before. */
    method NewName() returns (name: Handle)
      requires Valid()
      modifies this
      ensures Valid()
      ensures name == old(nextName) && name >= 1 && nextName == name + 1
      ensures log == old(log) + [GenObject(name)]
      ensures forall i :: 0 <= i < |old(log)| && Creates(old(log)[i]) ==> Created(old(log)[i]) != name
    {
      name := nextName;
      log := log + [GenObject(name)];
      nextName := nextName + 1;
    }

    /** Compiles and links a program from two shader files; a compile or
        link failure ends the process and is not modelled. */
    method NewProgram(vertexPath: string, fragmentPath: string) returns (program: Handle)
      requires Valid()
      modifies this
      ensures Valid()
      ensures program == old(nextName) && program >= 1 && nextName == program + 1
      ensures log == old(log) + [CreateProgram(program, vertexPath, fragmentPath)]
      ensures forall i :: 0 <= i < |old(log)| && Creates(old(log)[i]) ==> Created(old(log)[i]) != program
    {
      program := nextName;
      log := log + [CreateProgram(program, vertexPath, fragmentPath)];
      nextName := nextName + 1;
    }

    method GetUniformLocation(program: Handle, name: string) returns (location: int)
      requires Valid()
      modifies this
      ensures Valid()
      ensures location == UniformLocation(program, name)
      ensures log == old(log) + [QueryUniform(program, name)]
      ensures nextName == old(nextName)
    {
      Issue(QueryUniform(program, name));
      location := UniformLocation(program, name);
    }

    method GetAttribLocation(program: Handle, name: string) returns (location: int)
      requires Valid()
      modifies this
      ensures Valid()
      ensures location == AttribLocation(program, name)
      ensures log == old(log) + [QueryAttrib(program, name)]
      ensures nextName == old(nextName)
    {
      Issue(QueryAttrib(program, name));
      location := AttribLocation(program, name);
    }
  }
}

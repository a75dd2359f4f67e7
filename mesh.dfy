/** A static mesh loaded from an OBJ file: the reshaping of the loader's
    flat arrays, the tangent basis, the GL buffers and textures it owns and
    the calls one draw issues. */
module Meshes {
  import opened Geometry
  import opened Gl
  import opened Actors
  import opened Lights

  /** Vertex attributes 0 .. 5: position, colour, uv, normal, tangent, bitangent. */
  const ATTRIBUTE_COUNTER: nat := 6

  /** The first shape of a parsed OBJ file: flat float arrays, three floats
      per position and normal and two per texture coordinate. */
  datatype ObjShape = ObjShape(positions: seq<real>, texcoords: seq<real>, normals: seq<real>)

  /** Reshapes the flat arrays into vectors. A trailing incomplete group is
      dropped, and the v coordinate is flipped. */
  method LoadMeshFromFile(shape: ObjShape) returns (vertices: seq<Vec3>, uvs: seq<Vec2>, normals: seq<Vec3>)
    ensures |vertices| == |shape.positions| / 3
    ensures forall i :: 0 <= i < |vertices| ==>
      vertices[i] == Vec3(shape.positions[3 * i], shape.positions[3 * i + 1], shape.positions[3 * i + 2])
    ensures |uvs| == |shape.texcoords| / 2
    ensures forall i :: 0 <= i < |uvs| ==>
      uvs[i] == Vec2(shape.texcoords[2 * i], -shape.texcoords[2 * i + 1])
    ensures |normals| == |shape.normals| / 3
    ensures forall i :: 0 <= i < |normals| ==>
      normals[i] == Vec3(shape.normals[3 * i], shape.normals[3 * i + 1], shape.normals[3 * i + 2])
  {
    var p := shape.positions;
    var v := new Vec3[|p| / 3];
    var i, j := 0, 0;
    while i < v.Length
      invariant 0 <= i <= v.Length && j == 3 * i
      invariant forall k :: 0 <= k < i ==> v[k] == Vec3(p[3 * k], p[3 * k + 1], p[3 * k + 2])
    {
      v[i] := v[i].(x := p[j]);
      v[i] := v[i].(y := p[j + 1]);
      v[i] := v[i].(z := p[j + 2]);
      i, j := i + 1, j + 3;
    }
    vertices := v[..];

    var t := shape.texcoords;
    var u := new Vec2[|t| / 2];
    i, j := 0, 0;
    while i < u.Length
      invariant 0 <= i <= u.Length && j == 2 * i
      invariant forall k :: 0 <= k < i ==> u[k] == Vec2(t[2 * k], -t[2 * k + 1])
    {
      u[i] := u[i].(x := t[j]);
      u[i] := u[i].(y := t[j + 1] * -1.0);
      i, j := i + 1, j + 2;
    }
    uvs := u[..];

    var q := shape.normals;
    var n := new Vec3[|q| / 3];
    i, j := 0, 0;
    while i < n.Length
      invariant 0 <= i <= n.Length && j == 3 * i
      invariant forall k :: 0 <= k < i ==> n[k] == Vec3(q[3 * k], q[3 * k + 1], q[3 * k + 2])
    {
      n[i] := n[i].(x := q[j]);
      n[i] := n[i].(y := q[j + 1]);
      n[i] := n[i].(z := q[j + 2]);
      i, j := i + 1, j + 3;
    }
    normals := n[..];
  }

  /** The (tangent, bitangent) pair of triangle `k`, made of vertices
      3k, 3k+1 and 3k+2. `inverse` stands for the float reciprocal
      `1.0f / x`, which yields infinity for a degenerate uv triangle. */
  function TriangleBasis(vertices: seq<Vec3>, uvs: seq<Vec2>, k: nat, inverse: real -> real): (Vec3, Vec3)
    requires 3 * k + 2 < |vertices| && 3 * k + 2 < |uvs|
  {
    var deltaPos1 := Sub(vertices[3 * k + 1], vertices[3 * k]);
    var deltaPos2 := Sub(vertices[3 * k + 2], vertices[3 * k]);
    var deltaUV1 := Sub2(uvs[3 * k + 1], uvs[3 * k]);
    var deltaUV2 := Sub2(uvs[3 * k + 2], uvs[3 * k]);
    var r := inverse(deltaUV1.x * deltaUV2.y - deltaUV1.y * deltaUV2.x);
    (Scale(Sub(Scale(deltaPos1, deltaUV2.y), Scale(deltaPos2, deltaUV1.y)), r),
     Scale(Sub(Scale(deltaPos2, deltaUV1.x), Scale(deltaPos1, deltaUV2.x)), r))
  }

  /** Gram-Schmidt: the tangent made perpendicular to the normal and
      normalised, then flipped when it makes a left-handed basis with the
      normal and the bitangent. `normalize` stands for glm::normalize. */
  function Orthogonalized(normal: Vec3, tangent: Vec3, bitangent: Vec3, normalize: Vec3 -> Vec3): Vec3
  {
    var t := normalize(Sub(tangent, Scale(normal, Dot(normal, tangent))));
    if Dot(Cross(normal, t), bitangent) < 0.0 then Scale(t, -1.0) else t
  }

  /** One tangent and one bitangent per vertex: the three vertices of
      triangle t all get that triangle's bitangent, and each gets its own
      normal's orthogonalisation of that triangle's tangent. The source reads
      three vertices and three uvs per step and one normal per vertex, so it
      needs whole triangles and at least as many uvs and normals as vertices. */
  method ComputeTangents(vertices: seq<Vec3>, uvs: seq<Vec2>, normals: seq<Vec3>,
                         inverse: real -> real, normalize: Vec3 -> Vec3)
    returns (tangents: seq<Vec3>, bitangents: seq<Vec3>)
    requires |vertices| % 3 == 0
    requires |uvs| >= |vertices| && |normals| >= |vertices|
    ensures |tangents| == |vertices| && |bitangents| == |vertices|
    ensures forall t :: 0 <= t < |vertices| / 3 ==>
      var basis := TriangleBasis(vertices, uvs, t, inverse);
      bitangents[3 * t] == basis.1 && bitangents[3 * t + 1] == basis.1 && bitangents[3 * t + 2] == basis.1
    ensures forall t :: 0 <= t < |vertices| / 3 ==>
      var basis := TriangleBasis(vertices, uvs, t, inverse);
      tangents[3 * t] == Orthogonalized(normals[3 * t], basis.0, basis.1, normalize) &&
      tangents[3 * t + 1] == Orthogonalized(normals[3 * t + 1], basis.0, basis.1, normalize) &&
      tangents[3 * t + 2] == Orthogonalized(normals[3 * t + 2], basis.0, basis.1, normalize)
  {
    tangents, bitangents := [], [];
    var i := 0;
    ghost var triangles := 0;
    while i < |vertices|
      invariant 0 <= i <= |vertices| && i == 3 * triangles
      invariant |tangents| == i && |bitangents| == i
      invariant forall t :: 0 <= t < triangles ==>
        var basis := TriangleBasis(vertices, uvs, t, inverse);
        tangents[3 * t] == basis.0 && tangents[3 * t + 1] == basis.0 && tangents[3 * t + 2] == basis.0 &&
        bitangents[3 * t] == basis.1 && bitangents[3 * t + 1] == basis.1 && bitangents[3 * t + 2] == basis.1
    {
      var tangent := TriangleBasis(vertices, uvs, i / 3, inverse).0;
      var bitangent := TriangleBasis(vertices, uvs, i / 3, inverse).1;
      tangents := tangents + [tangent];
      tangents := tangents + [tangent];
      tangents := tangents + [tangent];
      bitangents := bitangents + [bitangent];
      bitangents := bitangents + [bitangent];
      bitangents := bitangents + [bitangent];
      i := i + 3;
      triangles := triangles + 1;
    }
    tangents := OrthogonalizeTangents(tangents, bitangents, normals, normalize);
  }

  /** The second pass of `ComputeTangents`, in place over the tangents:
      each one is replaced by its orthogonalisation against its vertex's
      normal and bitangent. */
  method OrthogonalizeTangents(tangents: seq<Vec3>, bitangents: seq<Vec3>, normals: seq<Vec3>,
                               normalize: Vec3 -> Vec3)
    returns (result: seq<Vec3>)
    requires |bitangents| == |tangents| && |normals| >= |tangents|
    ensures |result| == |tangents|
    ensures forall k :: 0 <= k < |tangents| ==>
      result[k] == Orthogonalized(normals[k], tangents[k], bitangents[k], normalize)
  {
    result := tangents;
    var n := 0;
    while n < |tangents|
      invariant 0 <= n <= |tangents| && |result| == |tangents|
      invariant forall k :: 0 <= k < n ==>
        result[k] == Orthogonalized(normals[k], tangents[k], bitangents[k], normalize)
      invariant forall k :: n <= k < |tangents| ==> result[k] == tangents[k]
    {
      var normal := normals[n];
      var bitangent := bitangents[n];
      var tangent := normalize(Sub(result[n], Scale(normal, Dot(normal, result[n]))));
      if Dot(Cross(normal, tangent), bitangent) < 0.0 {
        tangent := Scale(tangent, -1.0);
      }
      result := result[n := tangent];
      n := n + 1;
    }
  }

  /** `raw` holds what `LoadMesh` hands to the vertex indexer for `shape`:
      the reshaped positions, uvs (v flipped) and normals, and one tangent
      and one bitangent per vertex, shared by the three vertices of a
      triangle, with each tangent orthogonalised against its own normal. */
  ghost predicate LoadedFrom(raw: IndexedMesh, shape: ObjShape, inverse: real -> real, normalize: Vec3 -> Vec3)
  {
    |raw.vertices| == |shape.positions| / 3 && |raw.uvs| == |shape.texcoords| / 2 &&
    |raw.normals| == |shape.normals| / 3 &&
    (forall i :: 0 <= i < |raw.vertices| ==>
      raw.vertices[i] == Vec3(shape.positions[3 * i], shape.positions[3 * i + 1], shape.positions[3 * i + 2])) &&
    (forall i :: 0 <= i < |raw.uvs| ==> raw.uvs[i] == Vec2(shape.texcoords[2 * i], -shape.texcoords[2 * i + 1])) &&
    (forall i :: 0 <= i < |raw.normals| ==>
      raw.normals[i] == Vec3(shape.normals[3 * i], shape.normals[3 * i + 1], shape.normals[3 * i + 2])) &&
    |raw.uvs| >= |raw.vertices| && |raw.normals| >= |raw.vertices| &&
    |raw.tangents| == |raw.vertices| && |raw.bitangents| == |raw.vertices| &&
    (forall t :: 0 <= t < |raw.vertices| / 3 ==>
      var basis := TriangleBasis(raw.vertices, raw.uvs, t, inverse);
      raw.bitangents[3 * t] == basis.1 && raw.bitangents[3 * t + 1] == basis.1 && raw.bitangents[3 * t + 2] == basis.1 &&
      raw.tangents[3 * t] == Orthogonalized(raw.normals[3 * t], basis.0, basis.1, normalize) &&
      raw.tangents[3 * t + 1] == Orthogonalized(raw.normals[3 * t + 1], basis.0, basis.1, normalize) &&
      raw.tangents[3 * t + 2] == Orthogonalized(raw.normals[3 * t + 2], basis.0, basis.1, normalize))
  }

  /** What the vertex indexer returns: the index list and the de-duplicated
      per-vertex arrays. */
  datatype IndexedMesh = IndexedMesh(
    indices: seq<nat>,
    vertices: seq<Vec3>, uvs: seq<Vec2>, normals: seq<Vec3>,
    tangents: seq<Vec3>, bitangents: seq<Vec3>)

  /** The mesh's seven GL buffers. */
  datatype MeshBuffers = MeshBuffers(
    vertex: Handle, color: Handle, uv: Handle, normal: Handle,
    tangent: Handle, bitangent: Handle, element: Handle)

  /** The uniform locations the mesh writes every frame. */
  datatype UniformIds = UniformIds(
    matrixID: int, viewMatrixID: int, modelMatrixID: int, modelView3x3ID: int,
    lightPosID: int, lightColorID: int, lightPowerID: int, lightNumberID: int,
    oldMvpID: int)

  /** What the shaders read out of the lighting buffer for `count` lights. */
  datatype LightValues = LightValues(count: int, positions: seq<real>, colors: seq<real>, powers: seq<real>)

  /** glUniform3fv/glUniform1fv with a count of `numberOfLights` read three,
      three and one floats per light from the front of the buffers. */
  function LightUpload(lights: LightingBuffer): LightValues
    reads lights, lights.positionBuffer, lights.colorBuffer, lights.intensityBuffer
    requires 0 <= lights.numberOfLights
    requires 3 * lights.numberOfLights <= lights.positionBuffer.Length
    requires 3 * lights.numberOfLights <= lights.colorBuffer.Length
    requires lights.numberOfLights <= lights.intensityBuffer.Length
  {
    var n := lights.numberOfLights;
    LightValues(n, lights.positionBuffer[..3 * n], lights.colorBuffer[..3 * n], lights.intensityBuffer[..n])
  }

  /** The calls of `SetTexture`: a new texture, its image and sampling
      parameters, and the lookup of the sampler uniform. */
  function TextureUpload(texture: Handle, width: int, height: int, program: Handle, uniformName: string): seq<Call>
  {
    [GenObject(texture), BindTexture(texture), TexImage(width, height),
     TexParameters(Repeat, LinearMipmapLinear), GenerateMipmap, QueryUniform(program, uniformName)]
  }

  /** The uniform lookups of `SetBasicUniforms`, in source order. */
  function BasicUniformQueries(program: Handle): seq<Call>
  {
    [QueryUniform(program, "MVP"), QueryUniform(program, "viewMatrix"),
     QueryUniform(program, "modelMatrix"), QueryUniform(program, "lightPos"),
     QueryUniform(program, "lightColor"), QueryUniform(program, "lightPower"),
     QueryUniform(program, "numberOfLights"), QueryUniform(program, "modelView3x3"),
     QueryUniform(program, "oldMVP")]
  }

  /** Generates, binds and fills one buffer; `element` selects the element
      array target instead of the vertex array target. */
  function BufferUpload(buffer: Handle, element: bool, count: nat): seq<Call>
  {
    [GenObject(buffer), if element then BindElementBuffer(buffer) else BindArrayBuffer(buffer), BufferData(count)]
  }

  /** The calls of `InitializeGLBuffers`. The colour buffer is filled from
      the vertex positions, so it has as many entries as there are vertices. */
  function BufferUploads(b: MeshBuffers, m: IndexedMesh): seq<Call>
  {
    BufferUpload(b.vertex, false, |m.vertices|) + BufferUpload(b.color, false, |m.vertices|)
    + BufferUpload(b.uv, false, |m.uvs|) + BufferUpload(b.normal, false, |m.normals|)
    + BufferUpload(b.tangent, false, |m.tangents|) + BufferUpload(b.bitangent, false, |m.bitangents|)
    + BufferUpload(b.element, true, |m.indices|)
  }

  /** Seven uploads issued one after the other make up `BufferUploads`. */
  lemma UploadsChained(l0: seq<Call>, l1: seq<Call>, l2: seq<Call>, l3: seq<Call>, l4: seq<Call>, l5: seq<Call>,
    l6: seq<Call>, l7: seq<Call>, b: MeshBuffers, m: IndexedMesh)
    requires l1 == l0 + BufferUpload(b.vertex, false, |m.vertices|)
    requires l2 == l1 + BufferUpload(b.color, false, |m.vertices|)
    requires l3 == l2 + BufferUpload(b.uv, false, |m.uvs|)
    requires l4 == l3 + BufferUpload(b.normal, false, |m.normals|)
    requires l5 == l4 + BufferUpload(b.tangent, false, |m.tangents|)
    requires l6 == l5 + BufferUpload(b.bitangent, false, |m.bitangents|)
    requires l7 == l6 + BufferUpload(b.element, true, |m.indices|)
    ensures l7 == l0 + BufferUploads(b, m)
  {
  }

  /** The uniform writes of `DrawUniforms`, in source order. */
  function UniformUploads(ids: UniformIds, lights: LightValues, view: Mat, model: Mat, mvp: Mat, oldMvp: Mat): seq<Call>
  {
    [Uniform(ids.lightPosID, FloatsValue(lights.positions)),
     Uniform(ids.lightColorID, FloatsValue(lights.colors)),
     Uniform(ids.lightPowerID, FloatsValue(lights.powers)),
     Uniform(ids.lightNumberID, IntValue(lights.count)),
     Uniform(ids.matrixID, MatrixValue(mvp)),
     Uniform(ids.viewMatrixID, MatrixValue(view)),
     Uniform(ids.modelMatrixID, MatrixValue(model)),
     Uniform(ids.oldMvpID, MatrixValue(oldMvp)),
     Uniform(ids.modelView3x3ID, MatrixValue(Upper3x3(Product(view, model))))]
  }

  /** The calls of `DrawTextures`: texture i on unit i, sampler i set to i. */
  function TextureBindings(textures: seq<Handle>, ids: seq<int>): seq<Call>
    requires |textures| == |ids|
  {
    var n := |textures|;
    if n == 0 then []
    else TextureBindings(textures[..n - 1], ids[..n - 1])
         + BindUnit(n - 1, textures[n - 1], ids[n - 1])
  }

  /** The calls of `DrawAttributes`: each buffer bound, then described as
      attribute 0 .. 5 with its vector size. */
  function AttribPointers(b: MeshBuffers): seq<Call>
  {
    [BindArrayBuffer(b.vertex), AttribPointer(0, 3), BindArrayBuffer(b.color), AttribPointer(1, 3),
     BindArrayBuffer(b.uv), AttribPointer(2, 2), BindArrayBuffer(b.normal), AttribPointer(3, 3),
     BindArrayBuffer(b.tangent), AttribPointer(4, 3), BindArrayBuffer(b.bitangent), AttribPointer(5, 3)]
  }

  /** The calls of `Draw` before the attributes are enabled: the program,
      the uniforms, the textures. */
  function DrawSetup(program: Handle, ids: UniformIds, lights: LightValues, view: Mat, model: Mat,
                     mvp: Mat, oldMvp: Mat, textures: seq<Handle>, textureIDs: seq<int>): seq<Call>
    requires |textures| == |textureIDs|
  {
    [UseProgram(program)] + UniformUploads(ids, lights, view, model, mvp, oldMvp)
    + TextureBindings(textures, textureIDs)
  }

  /** The indexed draw of one `Draw`, with its attribute arrays on only
      around it. */
  function IndexedDraw(b: MeshBuffers, indexCount: nat): seq<Call>
  {
    EnabledDraw(ATTRIBUTE_COUNTER, AttribPointers(b) + [BindElementBuffer(b.element)], DrawElements(indexCount))
  }

  /** The calls of one `Draw`. */
  function DrawCalls(program: Handle, ids: UniformIds, lights: LightValues, view: Mat, model: Mat,
                     mvp: Mat, oldMvp: Mat, textures: seq<Handle>, textureIDs: seq<int>,
                     b: MeshBuffers, indexCount: nat): seq<Call>
    requires |textures| == |textureIDs|
  {
    DrawSetup(program, ids, lights, view, model, mvp, oldMvp, textures, textureIDs) + IndexedDraw(b, indexCount)
  }

  /** The state of a mesh one `Draw` depends on: its program, uniform
      locations, textures with their sampler locations, buffers and the
      number of indices. */
  datatype MeshLook = MeshLook(program: Handle, ids: UniformIds, textures: seq<Handle>, textureIDs: seq<int>,
                              buffers: MeshBuffers, indexCount: nat)

  /** A mesh that can be drawn has one sampler location per texture. */
  type DrawableLook = look: MeshLook | |look.textures| == |look.textureIDs|
    witness MeshLook(0, UniformIds(-1, -1, -1, -1, -1, -1, -1, -1, -1), [], [], MeshBuffers(0, 0, 0, 0, 0, 0, 0), 0)

  /** The calls of one `Draw` of a mesh that looks like `look`, with model
      matrix `model` and previous MVP `previous`. */
  function Drawn(look: DrawableLook, projection: Mat, view: Mat, lights: LightValues, model: Mat, previous: Mat): seq<Call>
  {
    DrawCalls(look.program, look.ids, lights, view, model, Product(Product(projection, view), model), previous,
      look.textures, look.textureIDs, look.buffers, look.indexCount)
  }

  /** The calls of the destructor: every texture, six separate buffer
      deletions, and then the deletion of the shader program by the
      destructor of the `shaders` member. */
  function DestroyCalls(textures: seq<Handle>, b: MeshBuffers, program: Handle): seq<Call>
  {
    [DeleteTextures(textures), DeleteBuffers([b.vertex]), DeleteBuffers([b.color]),
     DeleteBuffers([b.uv]), DeleteBuffers([b.normal]), DeleteBuffers([b.tangent]),
     DeleteBuffers([b.bitangent]), DeleteProgram(program)]
  }

  /** The element buffer is none of the six vertex-array buffers. */
  predicate SeparateElementBuffer(b: MeshBuffers)
  {
    b.element !in {b.vertex, b.color, b.uv, b.normal, b.tangent, b.bitangent}
  }

  /** The destructor releases every texture, the six vertex-array buffers
      and, last, the shader program. */
  lemma DestroyReleases(textures: seq<Handle>, b: MeshBuffers, program: Handle)
    ensures DeleteTextures(textures) in DestroyCalls(textures, b, program)
    ensures DeleteBuffers([b.vertex]) in DestroyCalls(textures, b, program) && DeleteBuffers([b.color]) in DestroyCalls(textures, b, program)
    ensures DeleteBuffers([b.uv]) in DestroyCalls(textures, b, program) && DeleteBuffers([b.normal]) in DestroyCalls(textures, b, program)
    ensures DeleteBuffers([b.tangent]) in DestroyCalls(textures, b, program) && DeleteBuffers([b.bitangent]) in DestroyCalls(textures, b, program)
    ensures DestroyCalls(textures, b, program)[|DestroyCalls(textures, b, program)| - 1] == DeleteProgram(program)
  {
    var calls := DestroyCalls(textures, b, program);
    assert calls[1] == DeleteBuffers([b.vertex]) && calls[2] == DeleteBuffers([b.color]);
    assert calls[3] == DeleteBuffers([b.uv]) && calls[4] == DeleteBuffers([b.normal]);
    assert calls[5] == DeleteBuffers([b.tangent]) && calls[6] == DeleteBuffers([b.bitangent]);
  }

  /** The destructor never releases the element buffer (unless it shares
      its name with a vertex-array buffer). */
  lemma DestroyKeepsElementBuffer(textures: seq<Handle>, b: MeshBuffers, program: Handle)
    requires SeparateElementBuffer(b)
    ensures forall i :: 0 <= i < |DestroyCalls(textures, b, program)| && DestroyCalls(textures, b, program)[i].DeleteBuffers? ==>
      b.element !in DestroyCalls(textures, b, program)[i].names
  {
  }

  /** The texture units after binding texture i on unit i for every i. */
  function BoundUnits(units: map<nat, Handle>, textures: seq<Handle>): map<nat, Handle>
  {
    var n := |textures|;
    if n == 0 then units else BoundUnits(units, textures[..n - 1])[n - 1 := textures[n - 1]]
  }

  /** Unit i holds texture i, and every other unit keeps what it had. */
  lemma {:induction false} BoundUnitsHold(units: map<nat, Handle>, textures: seq<Handle>)
    ensures var m := BoundUnits(units, textures);
      (forall i :: 0 <= i < |textures| ==> i in m && m[i] == textures[i]) &&
      (forall u :: u in units && u >= |textures| ==> u in m && m[u] == units[u])
    decreases |textures|
  {
    var n := |textures|;
    if n > 0 {
      BoundUnitsHold(units, textures[..n - 1]);
      forall i | 0 <= i < n - 1
        ensures textures[..n - 1][i] == textures[i]
      {
      }
    }
  }

  /** `DrawTextures` replaces the texture units by `BoundUnits` and leaves
      everything else a draw depends on as it was. */
  lemma {:induction false} TextureBindingsEffect(s: GlState, textures: seq<Handle>, ids: seq<int>)
    requires |textures| == |ids|
    ensures var t := Run(s, TextureBindings(textures, ids));
      t.units == BoundUnits(s.units, textures) &&
      t.raster == s.raster && t.program == s.program && t.attribs == s.attribs && t.draws == s.draws
    decreases |textures|
  {
    var n := |textures|;
    if n > 0 {
      var front := TextureBindings(textures[..n - 1], ids[..n - 1]);
      var r := Run(s, front);
      var last := BindUnit(n - 1, textures[n - 1], ids[n - 1]);
      assert Run(s, TextureBindings(textures, ids)) == Run(r, last) by {
        assert TextureBindings(textures, ids) == front + last;
        RunAppend(s, front, last);
      }
      BindUnitEffect(r, n - 1, textures[n - 1], ids[n - 1]);
      TextureBindingsEffect(s, textures[..n - 1], ids[..n - 1]);
    }
  }

  /** After `DrawTextures`, texture i is bound on unit i for every i and
      the other units keep their textures; nothing else a draw depends on
      changes. */
  lemma TextureBindingsUnits(s: GlState, textures: seq<Handle>, ids: seq<int>)
    requires |textures| == |ids|
    ensures var t := Run(s, TextureBindings(textures, ids));
      (forall i :: 0 <= i < |textures| ==> i in t.units && t.units[i] == textures[i]) &&
      (forall u :: u in s.units && u >= |textures| ==> u in t.units && t.units[u] == s.units[u]) &&
      t.raster == s.raster && t.program == s.program && t.attribs == s.attribs && t.draws == s.draws
  {
    TextureBindingsEffect(s, textures, ids);
    BoundUnitsHold(s.units, textures);
  }

  /** After `DrawTextures`, each sampler the program has holds its unit
      number, provided no two samplers share a location. */
  lemma {:induction false} TextureBindingsSamplers(s: GlState, textures: seq<Handle>, ids: seq<int>)
    requires |textures| == |ids|
    requires forall i, j :: 0 <= i < j < |ids| && ids[i] >= 0 ==> ids[i] != ids[j]
    ensures var t := Run(s, TextureBindings(textures, ids));
      t.program == s.program &&
      forall i :: 0 <= i < |ids| && ids[i] >= 0 ==>
        (s.program, ids[i]) in t.objects.uniforms && t.objects.uniforms[(s.program, ids[i])] == IntValue(i)
    decreases |textures|
  {
    var n := |textures|;
    if n > 0 {
      var front := TextureBindings(textures[..n - 1], ids[..n - 1]);
      var r := Run(s, front);
      var t := Run(s, TextureBindings(textures, ids));
      var last := BindUnit(n - 1, textures[n - 1], ids[n - 1]);
      assert t == Run(r, last) by {
        assert TextureBindings(textures, ids) == front + last;
        RunAppend(s, front, last);
      }
      BindUnitEffect(r, n - 1, textures[n - 1], ids[n - 1]);
      TextureBindingsSamplers(s, textures[..n - 1], ids[..n - 1]);
      forall i | 0 <= i < n - 1 && ids[i] >= 0
        ensures (s.program, ids[i]) in t.objects.uniforms && t.objects.uniforms[(s.program, ids[i])] == IntValue(i)
      {
        assert ids[..n - 1][i] == ids[i];
        assert ids[i] != ids[n - 1];
      }
    }
  }

  /** Describing the attributes and binding the element buffer only binds
      buffers and describes attributes. */
  lemma PointersDataOnly(b: MeshBuffers)
    ensures var pointers := AttribPointers(b) + [BindElementBuffer(b.element)];
      forall i :: 0 <= i < |pointers| ==> DataOnly(pointers[i])
  {
  }

  /** The calls before the attributes are enabled select the program, bind
      texture i on unit i, and leave the raster state, the enabled
      attributes and the draws as they were. */
  lemma DrawSetupEffect(s: GlState, program: Handle, ids: UniformIds, lights: LightValues, view: Mat, model: Mat,
                        mvp: Mat, oldMvp: Mat, textures: seq<Handle>, textureIDs: seq<int>)
    requires |textures| == |textureIDs|
    ensures var t := Run(s, DrawSetup(program, ids, lights, view, model, mvp, oldMvp, textures, textureIDs));
      t.program == program && t.raster == s.raster && t.attribs == s.attribs && t.draws == s.draws &&
      forall i :: 0 <= i < |textures| ==> i in t.units && t.units[i] == textures[i]
  {
    var uniforms := UniformUploads(ids, lights, view, model, mvp, oldMvp);
    var s1 := Run(s, [UseProgram(program)]);
    var s2 := Run(s1, uniforms);
    var s3 := Run(s2, TextureBindings(textures, textureIDs));
    assert Run(s, DrawSetup(program, ids, lights, view, model, mvp, oldMvp, textures, textureIDs)) == s3 by {
      RunAppend(s, [UseProgram(program)], uniforms);
      RunAppend(s, [UseProgram(program)] + uniforms, TextureBindings(textures, textureIDs));
    }
    UseProgramStep(s, program);
    DataOnlyKeeps(s1, uniforms);
    TextureBindingsUnits(s2, textures, textureIDs);
  }

  /** One mesh draw issues exactly one indexed draw of `indexCount`
      indices, with the mesh's program, with attributes 0 .. 5 enabled and
      with texture i on unit i; afterwards attributes 0 .. 5 are disabled
      again and the raster state is as before. */
  lemma DrawCallsEffect(s: GlState, program: Handle, ids: UniformIds, lights: LightValues, view: Mat, model: Mat,
                        mvp: Mat, oldMvp: Mat, textures: seq<Handle>, textureIDs: seq<int>,
                        b: MeshBuffers, indexCount: nat)
    requires |textures| == |textureIDs|
    ensures var t := Run(s, DrawCalls(program, ids, lights, view, model, mvp, oldMvp, textures, textureIDs, b, indexCount));
      |t.draws| == |s.draws| + 1 && t.draws[..|s.draws|] == s.draws &&
      var d := t.draws[|s.draws|];
      d.program == program && d.vertices == indexCount && d.raster == s.raster &&
      d.attribs == s.attribs + Below(ATTRIBUTE_COUNTER) &&
      (forall i :: 0 <= i < |textures| ==> i in d.units && d.units[i] == textures[i]) &&
      t.attribs == s.attribs - Below(ATTRIBUTE_COUNTER) && t.raster == s.raster && t.program == program
  {
    var setup := DrawSetup(program, ids, lights, view, model, mvp, oldMvp, textures, textureIDs);
    var pointers := AttribPointers(b) + [BindElementBuffer(b.element)];
    var draw := EnabledDraw(ATTRIBUTE_COUNTER, pointers, DrawElements(indexCount));
    var r := Run(s, setup);
    assert Run(s, DrawCalls(program, ids, lights, view, model, mvp, oldMvp, textures, textureIDs, b, indexCount))
      == Run(r, draw) by {
      RunAppend(s, setup, draw);
    }
    DrawSetupEffect(s, program, ids, lights, view, model, mvp, oldMvp, textures, textureIDs);
    PointersDataOnly(b);
    EnabledDrawEffect(r, ATTRIBUTE_COUNTER, pointers, DrawElements(indexCount));
  }

  class Mesh {
    /** The context the mesh issues its calls to (shared with the view). */
    const gl: Context
    /** The mesh's position, rotation, scale and model matrix. */
    const actor: Actor
    var program: Handle
    var indices: seq<nat>
    var vertices: seq<Vec3>
    var uvs: seq<Vec2>
    var normals: seq<Vec3>
    var tangents: seq<Vec3>
    var bitangents: seq<Vec3>
    var buffers: MeshBuffers
    var mvp: Mat
    /** The previous frame's MVP, read by the motion-blur shader. */
    var oldMvp: Mat
    var textures: seq<Handle>
    var textureIDs: seq<int>
    var uniformIds: UniformIds

    ghost predicate Valid()
      reads this, gl
    {
      gl.Valid() && |textures| == |textureIDs|
    }

    /** What a `Draw` of this mesh reads besides the matrices and the lights. */
    function Look(): MeshLook
      reads this`program, this`uniformIds, this`textures, this`textureIDs, this`buffers, this`indices
    {
      MeshLook(program, uniformIds, textures, textureIDs, buffers, |indices|)
    }

    /** No textures, and the zero matrix as the previous MVP. */
    constructor(gl: Context)
      requires gl.Valid()
      ensures Valid() && this.gl == gl
      ensures textures == [] && textureIDs == [] && oldMvp == Zero
      ensures fresh(actor) && actor.pos == Vec3(0.0, 0.0, 0.0) && actor.rot == Vec3(0.0, 0.0, 0.0)
      ensures actor.sc == Vec3(1.0, 1.0, 1.0) && actor.modelMatrix == Identity
    {
      this.gl := gl;
      actor := new Actor();
      program := 0;
      indices, vertices, uvs, normals, tangents, bitangents := [], [], [], [], [], [];
      buffers := MeshBuffers(0, 0, 0, 0, 0, 0, 0);
      mvp := Identity;
      oldMvp := Zero;
      textures, textureIDs := [], [];
      uniformIds := UniformIds(-1, -1, -1, -1, -1, -1, -1, -1, -1);
    }

    method Update()
      modifies actor
      ensures actor.modelMatrix == Model(actor.pos, actor.rot, actor.sc)
      ensures actor.pos == old(actor.pos) && actor.rot == old(actor.rot) && actor.sc == old(actor.sc)
    {
      actor.Update();
    }

    /** Compiles the two shaders into a program and makes it current. */
    method LoadShaders(vertexPath: string, fragmentPath: string)
      requires Valid()
      modifies this, gl
      ensures Valid()
      ensures program == old(gl.nextName) && gl.nextName == program + 1
      ensures gl.log == old(gl.log) + [CreateProgram(program, vertexPath, fragmentPath), UseProgram(program)]
      ensures textures == old(textures) && textureIDs == old(textureIDs) && buffers == old(buffers)
    {
      program := gl.NewProgram(vertexPath, fragmentPath);
      gl.Issue(UseProgram(program));
    }

    /** Creates a texture from an image of the given size (the image file
      itself is read by a foreign loader) and records it, with the
      location of its sampler uniform, at the end of the two lists. */
    method SetTexture(texturePath: string, uniformName: string, imageWidth: int, imageHeight: int)
      requires Valid()
      modifies this, gl
      ensures Valid()
      ensures textures == old(textures) + [old(gl.nextName)]
      ensures textureIDs == old(textureIDs) + [gl.UniformLocation(program, uniformName)]
      ensures gl.log == old(gl.log) + TextureUpload(old(gl.nextName), imageWidth, imageHeight, program, uniformName)
      ensures gl.nextName == old(gl.nextName) + 1
      ensures program == old(program) && buffers == old(buffers) && uniformIds == old(uniformIds)
    {
      var texture := gl.NewName();
      gl.Issue(BindTexture(texture));
      gl.Issue(TexImage(imageWidth, imageHeight));
      gl.Issue(TexParameters(Repeat, LinearMipmapLinear));
      gl.Issue(GenerateMipmap);
      textures := textures + [texture];
      var id := gl.GetUniformLocation(program, uniformName);
      textureIDs := textureIDs + [id];
    }

    /** Looks up and stores the locations of the per-frame uniforms. */
    method SetBasicUniforms()
      requires Valid()
      modifies this, gl
      ensures Valid()
      ensures uniformIds == UniformIds(
        gl.UniformLocation(program, "MVP"), gl.UniformLocation(program, "viewMatrix"),
        gl.UniformLocation(program, "modelMatrix"), gl.UniformLocation(program, "modelView3x3"),
        gl.UniformLocation(program, "lightPos"), gl.UniformLocation(program, "lightColor"),
        gl.UniformLocation(program, "lightPower"), gl.UniformLocation(program, "numberOfLights"),
        gl.UniformLocation(program, "oldMVP"))
      ensures gl.log == old(gl.log) + BasicUniformQueries(program)
      ensures gl.nextName == old(gl.nextName)
      ensures program == old(program) && textures == old(textures) && textureIDs == old(textureIDs)
      ensures buffers == old(buffers)
    {
      var matrixID := gl.GetUniformLocation(program, "MVP");
      var viewMatrixID := gl.GetUniformLocation(program, "viewMatrix");
      var modelMatrixID := gl.GetUniformLocation(program, "modelMatrix");
      var lightPosID := gl.GetUniformLocation(program, "lightPos");
      var lightColorID := gl.GetUniformLocation(program, "lightColor");
      var lightPowerID := gl.GetUniformLocation(program, "lightPower");
      var lightNumberID := gl.GetUniformLocation(program, "numberOfLights");
      var modelView3x3ID := gl.GetUniformLocation(program, "modelView3x3");
      var oldMvpID := gl.GetUniformLocation(program, "oldMVP");
      uniformIds := UniformIds(matrixID, viewMatrixID, modelMatrixID, modelView3x3ID,
                               lightPosID, lightColorID, lightPowerID, lightNumberID, oldMvpID);
    }

    /** Loads the mesh: reshape, tangents, indexing (a foreign routine,
      passed as `indexer`), then the GL buffers. */
    method LoadMesh(shape: ObjShape, inverse: real -> real, normalize: Vec3 -> Vec3,
                    indexer: (seq<Vec3>, seq<Vec2>, seq<Vec3>, seq<Vec3>, seq<Vec3>) -> IndexedMesh)
      returns (ghost raw: IndexedMesh)
      requires Valid()
      requires (|shape.positions| / 3) % 3 == 0
      requires |shape.texcoords| / 2 >= |shape.positions| / 3 && |shape.normals| / 3 >= |shape.positions| / 3
      modifies this, gl
      ensures Valid()
      ensures indexer(raw.vertices, raw.uvs, raw.normals, raw.tangents, raw.bitangents) ==
        IndexedMesh(indices, vertices, uvs, normals, tangents, bitangents)
      ensures LoadedFrom(raw, shape, inverse, normalize)
      ensures buffers == MeshBuffers(old(gl.nextName), old(gl.nextName) + 1, old(gl.nextName) + 2,
        old(gl.nextName) + 3, old(gl.nextName) + 4, old(gl.nextName) + 5, old(gl.nextName) + 6)
      ensures gl.log == old(gl.log) + BufferUploads(buffers, IndexedMesh(indices, vertices, uvs, normals, tangents, bitangents))
      ensures program == old(program) && textures == old(textures) && textureIDs == old(textureIDs)
    {
      var rawVertices, rawUvs, rawNormals := LoadMeshFromFile(shape);
      var rawTangents, rawBitangents := ComputeTangents(rawVertices, rawUvs, rawNormals, inverse, normalize);
      var indexed := indexer(rawVertices, rawUvs, rawNormals, rawTangents, rawBitangents);
      indices, vertices, uvs, normals := indexed.indices, indexed.vertices, indexed.uvs, indexed.normals;
      tangents, bitangents := indexed.tangents, indexed.bitangents;
      raw := IndexedMesh([], rawVertices, rawUvs, rawNormals, rawTangents, rawBitangents);
      InitializeGLBuffers();
    }

    /** Creates the seven buffers and uploads the indexed data into them. */
    method InitializeGLBuffers()
      requires Valid()
      modifies this, gl
      ensures Valid()
      ensures buffers == MeshBuffers(old(gl.nextName), old(gl.nextName) + 1, old(gl.nextName) + 2,
        old(gl.nextName) + 3, old(gl.nextName) + 4, old(gl.nextName) + 5, old(gl.nextName) + 6)
      ensures gl.nextName == old(gl.nextName) + 7
      ensures gl.log == old(gl.log) + BufferUploads(buffers, IndexedMesh(indices, vertices, uvs, normals, tangents, bitangents))
      ensures indices == old(indices) && vertices == old(vertices) && uvs == old(uvs) && normals == old(normals)
      ensures tangents == old(tangents) && bitangents == old(bitangents)
      ensures program == old(program) && textures == old(textures) && textureIDs == old(textureIDs)
    {
      ghost var l0 := gl.log;
      var vertexBuffer := UploadBuffer(false, |vertices|);
      ghost var l1 := gl.log;
      var colorBuffer := UploadBuffer(false, |vertices|);
      ghost var l2 := gl.log;
      var uvBuffer := UploadBuffer(false, |uvs|);
      ghost var l3 := gl.log;
      var normalBuffer := UploadBuffer(false, |normals|);
      ghost var l4 := gl.log;
      var tangentBuffer := UploadBuffer(false, |tangents|);
      ghost var l5 := gl.log;
      var bitangentBuffer := UploadBuffer(false, |bitangents|);
      ghost var l6 := gl.log;
      var elementBuffer := UploadBuffer(true, |indices|);
      buffers := MeshBuffers(vertexBuffer, colorBuffer, uvBuffer, normalBuffer, tangentBuffer, bitangentBuffer, elementBuffer);
      UploadsChained(l0, l1, l2, l3, l4, l5, l6, gl.log, buffers,
        IndexedMesh(indices, vertices, uvs, normals, tangents, bitangents));
    }

    /** One buffer of `InitializeGLBuffers`: a new name, bound as an array
      (or element) buffer, filled with `count` entries. */
    method UploadBuffer(element: bool, count: nat) returns (buffer: Handle)
      requires gl.Valid()
      modifies gl
      ensures gl.Valid()
      ensures buffer == old(gl.nextName) && gl.nextName == buffer + 1
      ensures gl.log == old(gl.log) + BufferUpload(buffer, element, count)
    {
      buffer := gl.NewName();
      if element {
        gl.Issue(BindElementBuffer(buffer));
      } else {
        gl.Issue(BindArrayBuffer(buffer));
      }
      gl.Issue(BufferData(count));
    }

    /** Draws the mesh: the MVP is rebuilt from the given projection and
      view and the current model matrix, the previous frame's MVP is
      uploaded beside it, and afterwards the new MVP becomes the previous one. */
    method Draw(projection: Mat, view: Mat, lights: LightValues)
      requires Valid()
      modifies this`mvp, this`oldMvp, gl
      ensures Valid()
      ensures mvp == Product(Product(projection, view), actor.modelMatrix) && oldMvp == mvp
      ensures gl.log == old(gl.log) + Drawn(Look(), projection, view, lights, actor.modelMatrix, old(oldMvp))
      ensures gl.nextName == old(gl.nextName)
    {
      ghost var before := gl.log;
      gl.Issue(UseProgram(program));
      mvp := Product(Product(projection, view), actor.modelMatrix);
      ghost var uniforms := UniformUploads(uniformIds, lights, view, actor.modelMatrix, mvp, oldMvp);
      DrawUniforms(view, lights);
      ghost var bindings := TextureBindings(textures, textureIDs);
      DrawTextures();
      assert gl.log == before + DrawSetup(program, uniformIds, lights, view, actor.modelMatrix,
        mvp, oldMvp, textures, textureIDs) by {
        AppendAssociative(before, [UseProgram(program)], uniforms);
        AppendAssociative(before, [UseProgram(program)] + uniforms, bindings);
      }
      DrawIndexed();
      AppendAssociative(before, DrawSetup(program, uniformIds, lights, view, actor.modelMatrix,
        mvp, oldMvp, textures, textureIDs), IndexedDraw(buffers, |indices|));
      oldMvp := mvp;
    }

    /** Uploads the lights, the matrices and the previous MVP. */
    method DrawUniforms(view: Mat, lights: LightValues)
      requires gl.Valid()
      modifies gl
      ensures gl.Valid()
      ensures gl.log == old(gl.log) + UniformUploads(uniformIds, lights, view, actor.modelMatrix, mvp, oldMvp)
      ensures gl.nextName == old(gl.nextName)
    {
      gl.IssueAll(UniformUploads(uniformIds, lights, view, actor.modelMatrix, mvp, oldMvp));
    }

    /** The second half of `Draw`: the attribute arrays switched on, pointed
        at this mesh's buffers, the element buffer bound, the triangles drawn
        and the arrays switched off again. */
    method DrawIndexed()
      requires gl.Valid()
      modifies gl
      ensures gl.Valid()
      ensures gl.log == old(gl.log) + IndexedDraw(buffers, |indices|)
      ensures gl.nextName == old(gl.nextName)
    {
      ghost var before := gl.log;
      EnableAttributes();
      ghost var enable := EnableRange(ATTRIBUTE_COUNTER);
      DrawAttributes();
      gl.Issue(BindElementBuffer(buffers.element));
      ghost var pointers := AttribPointers(buffers) + [BindElementBuffer(buffers.element)];
      assert gl.log == before + enable + pointers by {
        AppendAssociative(before + enable, AttribPointers(buffers), [BindElementBuffer(buffers.element)]);
      }
      gl.Issue(DrawElements(|indices|));
      DisableAttributes();
      assert gl.log == before + EnabledDraw(ATTRIBUTE_COUNTER, pointers, DrawElements(|indices|)) by {
        AppendAssociative(before, enable, pointers);
        AppendAssociative(before, enable + pointers, [DrawElements(|indices|)]);
        AppendAssociative(before, enable + pointers + [DrawElements(|indices|)], DisableRange(ATTRIBUTE_COUNTER));
      }
    }

    /** Binds texture i to unit i and points sampler i at it. */
    method DrawTextures()
      requires gl.Valid() && |textures| == |textureIDs|
      modifies gl
      ensures gl.Valid()
      ensures gl.log == old(gl.log) + TextureBindings(textures, textureIDs)
      ensures gl.nextName == old(gl.nextName)
    {
      var i := 0;
      while i < |textures|
        invariant 0 <= i <= |textures| && gl.Valid()
        invariant gl.log == old(gl.log) + TextureBindings(textures[..i], textureIDs[..i])
        invariant gl.nextName == old(gl.nextName)
      {
        gl.Issue(ActiveTexture(i));
        gl.Issue(BindTexture(textures[i]));
        gl.Issue(Uniform(textureIDs[i], IntValue(i)));
        assert textures[..i + 1][..i] == textures[..i] && textureIDs[..i + 1][..i] == textureIDs[..i];
        i := i + 1;
      }
      assert textures[..i] == textures && textureIDs[..i] == textureIDs;
    }

    method EnableAttributes()
      requires gl.Valid()
      modifies gl
      ensures gl.Valid()
      ensures gl.log == old(gl.log) + EnableRange(ATTRIBUTE_COUNTER)
      ensures gl.nextName == old(gl.nextName)
    {
      var i := 0;
      while i < ATTRIBUTE_COUNTER
        invariant 0 <= i <= ATTRIBUTE_COUNTER && gl.Valid()
        invariant gl.log == old(gl.log) + EnableRange(i)
        invariant gl.nextName == old(gl.nextName)
      {
        gl.Issue(EnableAttrib(i));
        i := i + 1;
      }
    }

    method DisableAttributes()
      requires gl.Valid()
      modifies gl
      ensures gl.Valid()
      ensures gl.log == old(gl.log) + DisableRange(ATTRIBUTE_COUNTER)
      ensures gl.nextName == old(gl.nextName)
    {
      var i := 0;
      while i < ATTRIBUTE_COUNTER
        invariant 0 <= i <= ATTRIBUTE_COUNTER && gl.Valid()
        invariant gl.log == old(gl.log) + DisableRange(i)
        invariant gl.nextName == old(gl.nextName)
      {
        gl.Issue(DisableAttrib(i));
        i := i + 1;
      }
    }

    /** Describes the six vertex attributes from the six array buffers. */
    method DrawAttributes()
      requires gl.Valid()
      modifies gl
      ensures gl.Valid()
      ensures gl.log == old(gl.log) + AttribPointers(buffers)
      ensures gl.nextName == old(gl.nextName)
    {
      gl.IssueAll(AttribPointers(buffers));
    }

    /** The destructor's GL calls. */
    method Destroy()
      requires gl.Valid()
      modifies gl
      ensures gl.Valid()
      ensures gl.log == old(gl.log) + DestroyCalls(textures, buffers, program)
      ensures gl.nextName == old(gl.nextName)
    {
      gl.Issue(DeleteTextures(textures));
      gl.Issue(DeleteBuffers([buffers.vertex]));
      gl.Issue(DeleteBuffers([buffers.color]));
      gl.Issue(DeleteBuffers([buffers.uv]));
      gl.Issue(DeleteBuffers([buffers.normal]));
      gl.Issue(DeleteBuffers([buffers.tangent]));
      gl.Issue(DeleteBuffers([buffers.bitangent]));
      gl.Issue(DeleteProgram(program));
    }
  }
}

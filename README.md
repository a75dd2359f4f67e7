# FlyGL scene, post-processing and OpenGL protocol, in Dafny

This project models the core of FlyGL_Engine, a small OpenGL demo. It draws a
troll ("bat"), a floor, walls and columns, lit by a white and a red point
light. The scene goes through one of five effects, chosen with the number keys:

- none;
- a stencil-buffer reflection of the bat in the floor;
- motion blur, using a per-pixel speed texture;
- a plain blur;
- a time-driven "dizzy" distortion.

The three image effects draw the scene into an off-screen framebuffer. They
then composite that image onto the screen with a full-screen quad.

The OpenGL driver is replaced by a command log:

- The `Gl` module has a `Call` per GL entry point the program uses.
- `Apply` gives the state change of one call, and `Run` replays a log.
- The `GlState` holds what a draw depends on:
  - the bound framebuffer;
  - the enabled capabilities;
  - the stencil, depth-mask and blend settings;
  - the current program;
  - the enabled vertex attributes;
  - the texture units.
- The `GlState` also records every draw, with a snapshot of that state.
- Object storage is part of the state: texture and renderbuffer sizes,
  framebuffer attachments, draw buffers and uniform values.
- `Gl.Context` is the live context. It holds the log and hands out object
  names.

Every class method that talks to GL appends a stated segment to the log.
Lemmas about `Run` over those segments carry the rendering properties: what a
frame draws, in which order, where, and with which raster state.

The model is split by source file:

- `Actors`: `Actor` (position, rotation, scale).
- `Cameras`: `Camera`.
- `Lights`: `PointLight` and its on/off state machine, plus `LightingBuffer`.
- `Meshes`: `Mesh`. This covers the OBJ reshape loops, the tangents, the GL
  buffers, textures and draws, and the `oldMVP` hand-off.
- `PostProcessing`: `Postprocess`, `MotionBlur` and `DizzyProcess`. They form
  one class with a `kind`, and each virtual call is a dispatching method.
- `Views`: `View`. This covers effect selection, the per-frame update, the
  frame's pre-process / scene / composite dispatch, the reflection sequence,
  the lighting buffer, resizing and construction.

Floats are modelled as reals. Matrices are symbolic terms, with `Product` as an
uninterpreted multiplication.

## Model

| member | source | states |
|---|---|---|
| Geometry.AddNegRestores | code/Actor.hpp:143-156 | moving (or rotating) by an offset and then by its negation gives back the original position (rotation) |
| Gl.EnableRangeEffect | code/Postprocess.cpp:46-49 | enabling attribute arrays 0 .. n-1 adds exactly those indices to the enabled set and changes nothing else |
| Gl.DisableRangeEffect | code/Postprocess.cpp:57-60 | disabling attribute arrays 0 .. n-1 removes exactly those indices and changes nothing else |
| Gl.DataOnlyKeeps | code/Mesh.cpp:270-286 | uniform writes, buffer binds and attribute descriptions leave the raster state, program, texture units, enabled attributes and recorded draws unchanged |
| Gl.EnabledDrawEffect | code/Postprocess.cpp:46-60 | enable 0 .. n-1, set up, one draw, disable 0 .. n-1 records exactly one draw that sees attributes 0 .. n-1 enabled; afterwards those attributes are off and the raster state, program and units are as before |
| Gl.BindUnitEffect | code/Mesh.cpp:294-296 | selecting unit u, binding a texture and pointing a sampler at u puts that texture on unit u, and sets the sampler to u when the location exists (-1 writes nothing) |
| Gl.Context.NewName | code/Postprocess.cpp:28 | each glGen* hands out a name that differs from every name created earlier in the log, and never the default name 0; the context invariant keeps every created name below the next one, and plain calls create none |
| Gl.Context.NewProgram | code/Postprocess.hpp:141-144 | building a program from two shader files gives it a name that differs from every name created earlier in the log, and logs that it was built |
| Gl.Context.GetUniformLocation | code/Postprocess.cpp:100 | returns the linker's location for (program, name), or -1 when the program has no such uniform; it logs the query and creates nothing |
| Gl.Context.GetAttribLocation | code/Postprocess.hpp:88 | returns the linker's location for (program, attribute), or -1; it logs the query and creates nothing |
| Actors.Actor.constructor | code/Actor.hpp:35-48 | a new actor sits at the origin, not rotated, with unit scale |
| Actors.Actor.Update | code/Actor.hpp:51-60 | the model matrix is rebuilt from the current scale, rotation and position, which stay as they were |
| Actors.Actor.SetRotation | code/Actor.hpp:69-74 | the rotation becomes (x, y, z); position, scale and model matrix are unchanged |
| Actors.Actor.SetPosition | code/Actor.hpp:77-82 | the position becomes (x, y, z); rotation, scale and model matrix are unchanged |
| Actors.Actor.SetScale | code/Actor.hpp:85-90 | the scale becomes (x, y, z); position, rotation and model matrix are unchanged |
| Actors.Actor.SetUniformScale | code/Actor.hpp:93-98 | all three scale components become the one value; nothing else changes |
| Actors.Actor.SetRotationVector | code/Actor.hpp:101-106 | the vector overload sets the same rotation as the component overload |
| Actors.Actor.SetPositionVector | code/Actor.hpp:109-114 | the vector overload sets the same position as the component overload |
| Actors.Actor.SetScaleVector | code/Actor.hpp:117-122 | the vector overload sets the same scale as the component overload |
| Actors.Actor.Move | code/Actor.hpp:143-148 | the offset is added componentwise to the position; nothing else changes |
| Actors.Actor.Rotate | code/Actor.hpp:151-156 | the offset is added componentwise to the rotation; nothing else changes |
| Actors.Actor.SumUniformScale | code/Actor.hpp:159-164 | the same amount is added to all three scale components; nothing else changes |
| Actors.Actor.SumScale | code/Actor.hpp:167-172 | the offset is added componentwise to the scale; nothing else changes |
| Actors.Actor.MoveVector | code/Actor.hpp:175-180 | the vector overload moves exactly as the component overload |
| Actors.Actor.RotateVector | code/Actor.hpp:183-188 | the vector overload rotates exactly as the component overload |
| Actors.Actor.SumScaleVector | code/Actor.hpp:191-196 | the vector overload scales exactly as the component overload |
| Cameras.Camera.constructor | code/Camera.hpp:33-38 | 45 degree field of view, near plane 0.1, far plane 1000, and the actor defaults |
| Cameras.Camera.Update | code/Camera.hpp:41-44 | the view matrix is rebuilt from the camera actor's current transform |
| Cameras.Camera.SetFoV | code/Camera.hpp:48-54 | the field of view becomes the argument if and only if it is strictly between 0 and 180; otherwise nothing changes; the screen size and the actor are never touched |
| Cameras.Camera.SetScreenSize | code/Camera.hpp:58-62 | the stored screen size is exactly (width, height); the field of view is unchanged |
| Cameras.Camera.GetNear | code/Camera.hpp:71-74 | the near plane is 0.1, in front of the far plane |
| Cameras.Camera.GetFar | code/Camera.hpp:77-80 | the far plane is 1000, behind the near plane |
| Lights.LightingBuffer.constructor | code/PointLight.hpp:20-31 | a new buffer holds no lights and three empty float vectors |
| Lights.SwitchKeepsConsistent | code/PointLight.hpp:111-121 | switching keeps the on/off invariant, flips the enabled flag and keeps the remembered intensity |
| Lights.SwitchTwiceRestores | code/PointLight.hpp:111-121 | two switches restore exactly the (intensity, remembered intensity, enabled) state |
| Lights.IntensifiedKeepsConsistent | code/PointLight.hpp:80-88 | setting the intensity keeps the on/off invariant and the enabled flag, and remembers the new value |
| Lights.PointLight.constructor | code/PointLight.hpp:46-51 | a black light, switched on at intensity 60, remembering 60; the invariant holds |
| Lights.PointLight.Update | code/PointLight.hpp:54-57 | the light's model matrix is rebuilt from its transform |
| Lights.PointLight.SetColor | code/PointLight.hpp:60-65 | only the colour changes, to (r, g, b) |
| Lights.PointLight.SetColorVector | code/PointLight.hpp:68-71 | only the colour changes, to the same value as the component overload |
| Lights.PointLight.SetIntensity | code/PointLight.hpp:80-88 | the value is always remembered; it shines at once only when the light is on; the invariant is kept |
| Lights.PointLight.TurnOn | code/PointLight.hpp:97-101 | the light is on and shines with the remembered intensity |
| Lights.PointLight.TurnOff | code/PointLight.hpp:104-108 | the light is off and shines with 0; the remembered intensity is kept |
| Lights.PointLight.Switch | code/PointLight.hpp:111-121 | an enabled light goes off and a disabled one comes back at the remembered intensity; the invariant is kept |
| Meshes.LoadMeshFromFile | code/Mesh.cpp:134-164 | the outputs have \|positions\|/3 vertices, \|texcoords\|/2 uvs and \|normals\|/3 normals; vertex i is (p[3i], p[3i+1], p[3i+2]), uv i is (t[2i], -t[2i+1]), and normal i likewise |
| Meshes.ComputeTangents | code/Mesh.cpp:176-234 | for a whole number of triangles there is one tangent and one bitangent per vertex; each triangle's three vertices share its bitangent, and each gets its tangent orthogonalised against its own normal |
| Meshes.OrthogonalizeTangents | code/Mesh.cpp:219-233 | the second pass, in place: tangent k is replaced by its Gram-Schmidt, handedness-corrected version against normal k and bitangent k |
| Meshes.DestroyReleases | code/Mesh.hpp:84-94 | the destructor deletes every texture and each of the six vertex-array buffers, and the `shaders` member's destructor then deletes the program |
| Meshes.DestroyKeepsElementBuffer | code/Mesh.hpp:84-94 | no buffer deletion of the destructor names the element buffer |
| Meshes.BoundUnitsHold | code/Mesh.cpp:291-299 | binding texture i on unit i for every i leaves unit i holding texture i, and every higher unit as it was |
| Meshes.TextureBindingsEffect | code/Mesh.cpp:289-300 | the texture loop changes the texture units to exactly those bindings, and nothing a draw depends on besides them |
| Meshes.TextureBindingsUnits | code/Mesh.cpp:289-300 | after the loop, unit i holds textures[i] for every i, and the other units keep their textures |
| Meshes.TextureBindingsSamplers | code/Mesh.cpp:296 | after the loop, the sampler at textureIDs[i] holds i, provided no two samplers share a location |
| Meshes.PointersDataOnly | code/Mesh.cpp:303-326 | describing the six attributes and binding the element buffer only binds buffers and describes attributes |
| Meshes.DrawSetupEffect | code/Mesh.cpp:107-113 | before the attributes are enabled, the mesh's program is current and texture i is on unit i; the raster state, attributes and draws are unchanged |
| Meshes.DrawCallsEffect | code/Mesh.cpp:105-126 | one mesh draw records exactly one indexed draw of the index count, with the mesh's program, attributes 0 .. 5 enabled and texture i on unit i; afterwards 0 .. 5 are off and the raster state is unchanged |
| Meshes.Mesh.constructor | code/Mesh.hpp:82 | a new mesh has no textures, no sampler locations, and the zero matrix as its previous MVP |
| Meshes.Mesh.Update | code/Mesh.hpp:97-100 | it only rebuilds the actor's model matrix |
| Meshes.Mesh.LoadShaders | code/Mesh.cpp:41-48 | the mesh gets a freshly built program and makes it current; textures and buffers are unchanged |
| Meshes.Mesh.SetTexture | code/Mesh.cpp:54-83 | one fresh texture and the location of its sampler are appended to the two lists together, so they stay the same length |
| Meshes.Mesh.SetBasicUniforms | code/Mesh.cpp:86-102 | each per-frame uniform location is the linker's location for its name, queried in source order; no object is created |
| Meshes.Mesh.LoadMesh | code/Mesh.cpp:22-38 | the arrays handed to the indexer are exactly the OBJ arrays reshaped into vectors (v flipped) with, per triangle, the shared bitangent and each vertex's orthogonalised tangent; the indexer's result is stored; seven fresh GL buffers are then filled from it |
| Meshes.Mesh.InitializeGLBuffers | code/Mesh.cpp:238-267 | seven fresh buffers, in source order; each is filled with its array's count; the colour buffer uses the vertex count |
| Meshes.Mesh.UploadBuffer | code/Mesh.cpp:240-242 | one fresh buffer name, bound to its target and filled |
| Meshes.Mesh.Draw | code/Mesh.cpp:105-126 | MVP is projection x view x model before the upload; the previous MVP is uploaded next to it; after the draw the new MVP becomes the previous one |
| Meshes.Mesh.DrawUniforms | code/Mesh.cpp:270-286 | the light arrays, the light count, the matrices, the previous MVP and the 3x3 model-view are uploaded in source order |
| Meshes.Mesh.DrawIndexed | code/Mesh.cpp:115-122 | attributes 0 .. 5 are enabled, described, then one indexed draw; then 0 .. 5 are disabled |
| Meshes.Mesh.DrawTextures | code/Mesh.cpp:289-300 | the loop binds texture i on unit i and points sampler i at i, for every i in order |
| Meshes.Mesh.EnableAttributes | code/Mesh.hpp:130-136 | enables attributes 0 .. 5 (ATTRIBUTE_COUNTER is 6), in order |
| Meshes.Mesh.DisableAttributes | code/Mesh.hpp:139-145 | disables exactly attributes 0 .. 5, in order |
| Meshes.Mesh.DrawAttributes | code/Mesh.cpp:303-326 | each of the six array buffers is bound and described as attribute 0 .. 5 with its vector size |
| Meshes.Mesh.Destroy | code/Mesh.hpp:84-94 | the destructor's texture and buffer deletions and then the `shaders` member's program deletion are issued, and nothing else changes |
| PostProcessing.Attachments | code/MotionBlur.hpp:71-76 | plain and dizzy effects register only colour attachment 0; motion blur registers attachment 0, then attachment 1 |
| PostProcessing.PreProcessCallsAsWritten | code/Postprocess.hpp:68-73 | the pre-process as written is defined exactly when at least two draw buffers are registered |
| PostProcessing.TextureTargetEffect | code/Postprocess.cpp:95-118 | the new texture gets the screen size, is attached at the given attachment of the bound framebuffer and is left bound on the active texture unit; the renderbuffers, the raster state, the program, the attributes and the draws are unchanged |
| PostProcessing.RenderbufferSetupEffect | code/Postprocess.hpp:130-136 | one renderbuffer of the screen size, attached as depth/stencil to the bound framebuffer and left bound; texture sizes, the raster state, the program, the attributes, the texture units and the draws are unchanged |
| PostProcessing.TexturesSectionEffect | code/MotionBlur.hpp:71-76 | the colour texture is attached at colour 0 (and, for motion blur, the speed texture at colour 1), both at the screen size |
| PostProcessing.FramebufferSetupEffect | code/Postprocess.cpp:28-32 | after initialisation the new framebuffer is bound, holds the sized colour (and speed) texture and the sized depth/stencil renderbuffer, and that renderbuffer is left bound |
| PostProcessing.PreProcessEffect | code/Postprocess.hpp:68-73 | the effect's framebuffer is bound, all its registered attachments are its draw buffers, and depth testing is on; nothing else a draw depends on changes |
| PostProcessing.PreProcessAsWrittenOverreads | code/Postprocess.hpp:71 | as written, the pre-process reads past the attachment list for the plain and dizzy effects; for motion blur it issues exactly the corrected calls |
| PostProcessing.ResizeEffect | code/Postprocess.hpp:76-81 | the colour texture (also the speed texture, for motion blur) and the effect's own renderbuffer get the new size; the last texture sized (the speed texture for motion blur, else the colour texture) is left on the active unit; no other size, no attachment, and neither the raster state, the program, the attributes nor the draws change |
| PostProcessing.ResizeTwiceSameSizes | code/Postprocess.hpp:76-81 | resizing twice to the same size records the same sizes, attachments and raster state as resizing once |
| PostProcessing.ResizeTextureStep | code/Postprocess.hpp:78-79 | binding a texture and specifying its image resizes that texture only and leaves it on the active unit |
| PostProcessing.ResizeStorageStep | code/Postprocess.hpp:80 | with the effect's renderbuffer bound first, storage allocation resizes that renderbuffer only |
| PostProcessing.ResizeAsWrittenMissesRenderbuffer | code/Postprocess.hpp:80 | as written, a renderbuffer that is not the bound one keeps its old size (or stays unallocated) |
| PostProcessing.ResizeAfterLaterInitialization | code/Postprocess.hpp:76-81 | after another effect has been initialised, resizing an earlier effect as written leaves that effect's renderbuffer at its old size |
| PostProcessing.DestructorReleases | code/MotionBlur.hpp:54-58 | every destructor releases the framebuffer, the renderbuffer, the colour texture and the shader program; motion blur also releases its speed texture; the subclasses release the base objects and the program twice |
| PostProcessing.CompositeHeadStep | code/Postprocess.cpp:39-40 | the composite starts on the default framebuffer with the effect's program current |
| PostProcessing.RenderTexturesEffect | code/MotionBlur.hpp:88-97 | the colour texture goes on unit 0 first; motion blur then puts the speed texture on unit 1; nothing else a draw depends on changes |
| PostProcessing.CompositeEffect | code/Postprocess.cpp:36-61 | the composite records exactly one 6-vertex draw on the default framebuffer, with the effect's textures on their units and attributes 0 .. n-1 enabled; afterwards exactly those attributes are disabled again |
| PostProcessing.AdvancedFromZero | code/DizzyProcess.hpp:38-41 | n updates of d from a stopped clock give n·d |
| PostProcessing.Postprocess.UniformUploads | code/DizzyProcess.hpp:68-75 | no uniform writes for the plain effect, two for motion blur (samples, intensity), three for the dizzy effect (time, radius, height); all are uniform writes |
| PostProcessing.Postprocess.constructor | code/Postprocess.hpp:49-51 | a new effect has registered no attachments and counted no attributes |
| PostProcessing.Postprocess.DestroyBase | code/Postprocess.hpp:54-59 | the base destructor deletes the framebuffer, the renderbuffer and the colour texture, then its shader member deletes the program |
| PostProcessing.Postprocess.Destroy | code/DizzyProcess.hpp:33-36 | the virtual destructor issues the subclass's release calls, with the base destructor inside them and once more after them |
| PostProcessing.Postprocess.InitializeRenderQuad | code/Postprocess.cpp:65-85 | a fresh vertex array and a fresh buffer holding the screen quad |
| PostProcessing.Postprocess.InitializeShaders | code/Postprocess.hpp:139-145 | a freshly built program from the two shader files, made current |
| PostProcessing.Postprocess.InitializeAttributes | code/Postprocess.hpp:86-92 | "position" is looked up, enabled and described; the attribute counter grows by exactly 1 |
| PostProcessing.Postprocess.InitializeTexture | code/Postprocess.cpp:95-118 | the sampler's location is queried once; one fresh texture is created; its attachment is appended once to the draw buffer list, and earlier entries are kept |
| PostProcessing.Postprocess.TexturesSectionBase | code/Postprocess.hpp:95-99 | the base section registers exactly colour attachment 0, sampled as "colorTexture" |
| PostProcessing.Postprocess.TexturesSectionMotionBlur | code/MotionBlur.hpp:71-76 | the base section first, then colour attachment 1 sampled as "speedTexture": the list grows by [COLOR0, COLOR1] |
| PostProcessing.Postprocess.InitializeTexturesSection | code/Postprocess.cpp:31 | the virtual texture section appends exactly the kind's attachments; the speed fields are untouched except for motion blur |
| PostProcessing.Postprocess.CreateRenderBuffer | code/Postprocess.hpp:130-136 | one fresh depth/stencil renderbuffer of the screen size, attached to the bound framebuffer |
| PostProcessing.Postprocess.CreateFrameBuffer | code/Postprocess.cpp:28-29 | one fresh framebuffer, bound |
| PostProcessing.Postprocess.InitializeProgram | code/Postprocess.cpp:20-25 | quad, shaders, then the attribute, with the counter reset first, so exactly 1 attribute is counted |
| PostProcessing.Postprocess.InitializeTarget | code/Postprocess.cpp:28-32 | framebuffer, texture section, then renderbuffer, with names handed out in that order |
| PostProcessing.Postprocess.InitializeBase | code/Postprocess.cpp:16-33 | the six steps in source order: quad, shaders, attribute, framebuffer, textures, renderbuffer; afterwards the counter is 1 and the kind's attachments are registered |
| PostProcessing.Postprocess.InitializeMotionBlur | code/MotionBlur.hpp:41-52 | the base initialisation; then 8 samples at intensity 0.7; then the two uniform lookups; one attribute and two attachments |
| PostProcessing.Postprocess.InitializeDizzy | code/DizzyProcess.hpp:43-56 | the base initialisation; then a stopped clock, radius 10 and the screen height; then the three uniform lookups; one attachment |
| PostProcessing.Postprocess.Initialize | code/Postprocess.hpp:61-63 | the virtual initialisation: the counter is 1, the kind's attachments are registered, the framebuffer and renderbuffer exist, and the subclass parameters are set |
| PostProcessing.Postprocess.PreProcess | code/Postprocess.hpp:68-73 | (corrected) binds the effect's framebuffer, declares every registered attachment as a draw buffer and enables depth testing |
| PostProcessing.Postprocess.ResizeBase | code/Postprocess.hpp:76-81 | (corrected) resizes the colour texture and the effect's own renderbuffer |
| PostProcessing.Postprocess.Resize | code/MotionBlur.hpp:61-67 | the base resize; then motion blur resizes its speed texture, and the dizzy effect stores the new height (the width affects only the base) |
| PostProcessing.Postprocess.Update | code/DizzyProcess.hpp:38-41 | the dizzy clock advances by exactly the frame time |
| PostProcessing.Postprocess.RenderTextures | code/Postprocess.hpp:106-111 | the colour texture on unit 0 with its sampler at 0; then, for motion blur, the speed texture on unit 1 with sampler 1 |
| PostProcessing.Postprocess.RenderUniforms | code/MotionBlur.hpp:79-85 | nothing for the base; then samples and intensity for motion blur, or time, radius and height for the dizzy effect, in that order |
| PostProcessing.Postprocess.DrawAttributes | code/Postprocess.hpp:114-118 | the quad buffer bound and described as attribute 0 |
| PostProcessing.Postprocess.Draw | code/Postprocess.cpp:36-61 | the default framebuffer and the effect's program come first, then textures before uniforms; attributes 0 .. counter-1 are enabled, one 6-vertex draw is issued, and the same attributes are disabled |
| Views.SelectEffectLastKeyWins | code/View.cpp:294-313 | with no effect key pressed the effect is unchanged; otherwise it is the effect of the last pressed key in the order Num0 .. Num4 |
| Views.SelectEffectIdempotent | code/View.cpp:294-313 | holding the same keys for another frame keeps the same effect |
| Views.Axis | code/View.cpp:244-267 | one pair of opposite keys moves by +step, -step, or 0 when both or neither are held |
| Views.MoveOnKeys | code/View.cpp:244-267 | an actor moved by one pair of keys is moved by exactly its axis offsets; nothing else changes |
| Views.IdleKeysKeepPlace | code/View.cpp:226-277 | with no movement key held, the camera and the bat keep their place and orientation |
| Views.LightKeysKeepConsistent | code/View.cpp:280-291 | Up, Down and Space keep the white light's on/off invariant |
| Views.LightKeysUpDownCancel | code/View.cpp:280-287 | on a light that is on, Up and Down together cancel out |
| Views.LightKeysWhileOff | code/View.cpp:280-283 | on a light that is off, Up makes the remembered intensity 100, whatever it was |
| Views.Mirror | code/View.cpp:195 | the mirrored scale negates y and keeps x and z |
| Views.MirrorTwice | code/View.cpp:195-198 | mirroring twice restores the scale |
| Views.ReflectiveSetupEffect | code/View.cpp:161-171 | after the reflective setup, draws pass the stencil test always, write 1 into it and do not write depth; the draws and the program are unchanged |
| Views.StencilWriteOn | code/View.cpp:163-167 | stencil test on, always passing, replacing on pass |
| Views.DepthWriteOff | code/View.cpp:168-170 | every stencil bit writable, depth writes off; the stencil clear changes no state |
| Views.ReflectionSetupEffect | code/View.cpp:174-183 | after the reflection setup, fragments pass only where the stencil is 1, the stencil is read-only, depth is written and alpha blending is on |
| Views.StencilReadOnly | code/View.cpp:176-178 | stencil passes on 1, no stencil bits written, depth writes on |
| Views.BlendOn | code/View.cpp:181-182 | blending on with the alpha blend function |
| Views.EndReflectionEffect | code/View.cpp:186-190 | blending and the stencil test are off again; nothing else changes |
| Views.ReflectionRestoresRaster | code/View.cpp:161-190 | after the whole sequence, the enabled capabilities and the framebuffer are as before and depth is written; only the stencil settings differ |
| Views.Grown | code/View.cpp:351-353 | vector resize keeps the first entries and fills the new ones with zero |
| Views.Resized | code/View.cpp:351-353 | a resized buffer holds exactly the grown contents |
| Views.Flatten | code/View.cpp:204-216 | two lights' vectors become six consecutive floats |
| Views.StorePair | code/View.cpp:204-209 | the first six floats of the buffer are the two vectors; the rest are untouched |
| Views.MeshDrawRecord | code/Mesh.cpp:105-126 | drawing one mesh adds one draw of that mesh (its program and index count) with the raster state as it was, and keeps earlier draws and the raster state |
| Views.TwoDrawRecords | code/View.cpp:132-133 | two mesh draws add two draws of those meshes, in that order, with the unchanged raster state |
| Views.ThreeDrawRecords | code/View.cpp:131-133 | three mesh draws add three draws of those meshes, in that order, with the unchanged raster state |
| Views.NormalDrawRecords | code/View.cpp:120-126 | the normal draw adds four draws (bat, floor, walls, columns), all with the frame's raster state, which it keeps |
| Views.UnmirroredRecords | code/View.cpp:130-133 | the first part of the reflection draw adds three draws (bat, walls, columns) with the frame's raster state |
| Views.MirrorRecords | code/View.cpp:136-137 | the mirror adds one floor draw that marks the stencil without writing depth, and leaves that state on |
| Views.MirroredRecords | code/View.cpp:140-142 | the reflection adds one bat draw masked by the stencil and blended; then blending and the stencil test are off |
| Views.ReflectedRecords | code/View.cpp:136-142 | mirror then reflection: the floor marks the stencil, then the mirrored bat is drawn where it is marked |
| Views.ReflectionDrawRecords | code/View.cpp:128-143 | the reflection draw adds five draws in order: bat, walls and columns as usual; the floor marking; then the bat masked and blended; blending and the stencil test are off at the end |
| Views.NormalLands | code/View.cpp:120-126 | every draw of the normal draw goes to the frame's framebuffer with depth testing on |
| Views.ReflectionLands | code/View.cpp:128-143 | every draw of the reflection draw, the mirror and the reflection included, goes to the frame's framebuffer with depth testing on |
| Views.SceneLands | code/View.cpp:96-103 | whichever scene the effect selects, its draws go to the frame's framebuffer with depth testing on |
| Views.ResizeSizes | code/Postprocess.hpp:76-81 | (corrected, see Findings) resizing one effect sizes its own targets and leaves another effect's sizes, the attachments, the raster state and the draws alone |
| Views.ResizeBlursSized | code/View.cpp:152-154 | (corrected, see Findings) after the viewport and both blurs' resizes, both blurs' textures and renderbuffers have the new size |
| Views.ResizeThreeSized | code/View.cpp:152-155 | (corrected, see Findings) after the viewport and the three resizes, all three effects' textures and renderbuffers have the new size |
| Views.View.EffectObject | code/View.cpp:70-81 | motion blur maps to `blur`, blur to `normal_blur` and dizzy to `dizzy`; none and reflection map to no object |
| Views.View.PreStageTargets | code/View.cpp:70-86 | (corrected, see Findings) before the scene, the active effect's framebuffer (or the screen for none and reflection) is bound with depth testing on; the draws, program and attributes are untouched |
| Views.View.SceneTargeted | code/View.cpp:67-103 | (corrected, see Findings) a frame's scene adds five draws with the reflection and four otherwise, keeps earlier draws, and every new draw goes to the active effect's framebuffer with depth testing on |
| Views.View.ResizeAllSized | code/View.cpp:146-156 | (corrected, see Findings) after `Resize`, every effect's textures and renderbuffer have the new size; the raster state, draws and attachments are untouched |
| Views.View.CalculateLightingBuffer | code/View.cpp:202-220 | positions [0, 6), colours [0, 6) and intensities [0, 2) hold the white then the red light; every other entry is unchanged; the shaders receive the three lights of the buffer |
| Views.View.LightsInitialization | code/View.cpp:347-362 | three lights; the buffers are grown to 9, 9 and 3 floats; the white and red lights are placed, coloured and given intensities 10000 and 100000 |
| Views.View.CameraInitialization | code/View.cpp:335-344 | the camera is sized to the screen, placed at (-60, -160, -230) and rotated (20, -10, 0), with a 45 degree field of view; speeds are 100 and 200 |
| Views.View.SwitchEffect | code/View.cpp:294-313 | the effect after the key handling is that of the last pressed effect key, in the order Num0 .. Num4 |
| Views.View.TurnCamera | code/View.cpp:226-241 | the camera's rotation changes by the I/K and J/L offsets; nothing else changes |
| Views.View.MoveCamera | code/View.cpp:244-267 | the camera's position changes by the W/S, A/D and F/R offsets; nothing else changes |
| Views.View.TurnBat | code/View.cpp:270-277 | the bat's rotation changes by the Left/Right offset; its position and scale are unchanged |
| Views.View.LightControls | code/View.cpp:280-291 | the white light's switch state follows Up, Down, then Space; its colour and invariant are kept |
| Views.View.Inputs | code/View.cpp:223-314 | one frame's keys: the camera, bat, white light and effect change as their keys say |
| Views.View.DizzyClock | code/View.cpp:48-51 | the dizzy clock advances only while the dizzy effect is active |
| Views.View.UpdateActors | code/View.cpp:57-63 | every actor's model matrix matches its current transform; no transform changes |
| Views.View.PlaceLightsAndActors | code/View.cpp:53-63 | the white light sits opposite the camera; the red light's intensity is (1 + sine) x 100000; all model matrices are current |
| Views.View.Advance | code/View.cpp:45-51 | total time advances by the frame time, the keys are handled, and the dizzy clock advances only while dizzy is active |
| Views.View.Update | code/View.cpp:43-64 | one frame's update: time, keys, the gated dizzy clock, the lights, and current model matrices for all seven actors; the light invariants are kept |
| Views.View.Resize | code/View.cpp:146-156 | (corrected, see Findings) the screen size and the camera's aspect follow; the viewport is set; then the three effects are resized; the dizzy effect stores the height |
| Views.View.PostProcessInitialization | code/View.cpp:317-332 | no effect is active; the three effects are initialised with their shaders at the screen size, in order; all their framebuffers and renderbuffers exist |
| Views.View.InitializeBlurs | code/View.cpp:321-327 | motion blur, then the plain blur, initialised with their shaders |
| Views.View.PreProcessStage | code/View.cpp:70-86 | (corrected, see Findings) the active effect's `PreProcess`, or the default framebuffer with depth testing on |
| Views.View.CompositeStage | code/View.cpp:106-117 | the active effect's `Draw` on the same object; nothing for none and reflection |
| Views.View.PrepareReflectiveDraws | code/View.cpp:161-171 | issues the reflective setup |
| Views.View.PrepareReflectionDraws | code/View.cpp:174-183 | issues the reflection setup |
| Views.View.EndReflection | code/View.cpp:186-190 | issues blend off, then stencil test off |
| Views.View.DrawMeshReflection | code/View.cpp:193-199 | the mesh is drawn with the bat's scale mirrored; afterwards its scale is restored exactly only when the mesh is the bat; its model matrix stays mirrored |
| Views.View.NormalDraw | code/View.cpp:120-126 | bat, floor, walls, columns drawn in order; each remembers its new MVP |
| Views.View.DrawUnmirrored | code/View.cpp:130-133 | bat, walls, columns drawn in order; each remembers its new MVP |
| Views.View.DrawMirror | code/View.cpp:136-137 | the reflective setup, then the floor draw |
| Views.View.DrawMirrored | code/View.cpp:140-142 | the reflection setup, the mirrored bat, then the end of the reflection; the bat's transform is unchanged |
| Views.View.ReflectionDraw | code/View.cpp:128-143 | the five draws and three state runs in source order; the mirrored bat's previous MVP is the one its first draw stored |
| Views.View.DrawScene | code/View.cpp:96-103 | the reflection draw for REFLECTION, the normal draw for every other effect |
| Views.View.Draw | code/View.cpp:67-118 | (corrected, see Findings) pre-process, clear, the scene with the lights packed before any mesh draw, then the composite on the same effect object |
| Views.View.RenderFrame | code/View.cpp:91-117 | the lights are packed, the scene is drawn with the camera's matrices, and the active effect composites |
| Views.View.DrawAndComposite | code/View.cpp:96-117 | the scene, then the composite of the active effect |
| Views.View.constructor | code/View.cpp:21-40 | no effect active, total time 0, the given screen size, camera speeds 100 and 200, and every effect initialised |
| Views.View.SetUp | code/View.cpp:25-39 | (corrected, see Findings) the constructor's body: the view invariant holds, total time is 0, no effect is active, speeds are 100 and 200, and the log grows by depth test, culling, depth function and clear colour, then the resize calls, then the three effects' initialisations in order |
| Views.View.RasterCameraAndLights | code/View.cpp:25-35 | total time 0; depth test, culling, depth function and clear colour logged; the camera sized to the screen at (-60, -160, -230), rotated (20, -10, 0), 45 degrees; the white light at (300, 200, 50), white, intensity 10000; the red light at (-300, 200, 50), colour (1, 0.4, 0.4), intensity 100000 |
| Views.View.CameraAndLights | code/View.cpp:34-35 | the camera and both lights placed, coloured and given their intensities as above; the third light's buffer slots are zero (black and dark) |
| Views.View.ScreenAndEffects | code/View.cpp:37-39 | (corrected, see Findings) the log grows by the resize calls, then the three effects' initialisations; the camera follows the screen size; no effect is active and the view invariant holds |

## Left out

- ShaderManager (shader file reading, compilation and linking) is not part of this model. Building a program is one logged call, its destructor's `glDeleteProgram` is one logged call, and uniform and attribute lookups read fixed location tables given to the context.
- tinyobjloader, stb_image and the vertex indexer `indexVBO_TBN` are foreign code. The parsed OBJ arrays are an input; the image size is a parameter of `SetTexture`; the indexer is a function parameter of `LoadMesh`.
- glm numerics are not modelled: matrices are symbolic terms. `1.0f / x` and `glm::normalize` in the tangent computation are function parameters, and so is the sine in `View::Update`.
- Floats are reals: no float32 rounding.
- GL object names are naturals handed out from 1 by the context; the driver may pick other names.
- The SFML window, `main.cpp`, its event loop and the loading screen are not part of this model.
- Keyboard polling: the keys held during a frame are a set passed to `Update`.
- `View::MeshInitialization` (loading four OBJ files and their textures) is not modelled as a method. The view is built over four meshes that are already loaded; `Mesh.LoadMesh`, `LoadShaders`, `SetTexture` and `SetBasicUniforms` model its steps for one mesh.
- Meshes.ComputeTangents: requires a whole number of triangles and at least as many uvs and normals as vertices. The source reads past its arrays otherwise, and that behaviour is not modelled.
- Cameras.Camera.constructor: the screen size starts at 0, where the source leaves it uninitialised until `SetScreenSize`.
- Actor getters (`GetPosition`, `GetRotation`, `GetScale`), `Camera.GetProjectionMatrix` and `PointLight` state access are functions returning the fields, with no contract of their own.
- `LightingBuffer::MAX_LIGHT_NUMBER` (8) is declared and, as in the source, not enforced.
- The third light the shaders receive is taken from buffer slots nothing writes; it stays zero, which the model states but does not give a name.
- The dizzy effect's `radius` is never changed after `Initialize`; this is shown only by the modifies frames, not by a separate lemma.
- Views.View.DrawMeshReflection: as in the source, the bat's model matrix stays mirrored until the next `Update` rebuilds it.
- The effects are resized before they are initialised, in constructor order (code/View.cpp:37-39). In the source their handles are still uninitialised at that point, so the resize binds indeterminate names. The model starts every handle at 0. The early resize therefore binds texture 0 on the active unit, records a size for texture 0 and binds renderbuffer 0; storage allocation with renderbuffer 0 bound is ignored. Initialisation then creates the real objects, and the later sizes come from their own calls.
- PostProcessing.Postprocess.constructor: the source constructor is empty, so the GL handles, the uniform and attribute locations and `attributeCounter` are uninitialised until `Initialize`. The model starts handles at 0, locations at -1 and the counter at 0.
- Lights.LightingBuffer.constructor: `numberOfLights` is uninitialised in the source until `LightsInitialization` sets it to 3. The model starts it at 0; the three vectors start empty in both.
- Locations are signed in the model. `attPosition` and `postProcessTextureID` are `GLuint` in the source, so a missing location is 0xFFFFFFFF there. For `attPosition`, `glEnableVertexAttribArray` and `glVertexAttribPointer` then raise GL_INVALID_VALUE and change nothing. The model keeps -1 and `Apply` ignores the call, so the resulting state is the same; the GL error flag is not modelled.
- The destructors are modelled as the GL calls they issue (`Destroy`, `DestructorCalls`), including the program deletion by each destructor's shader member and the double release of the base objects and the program. C++ object lifetime is not modelled.
- Views.View: the view is modelled over the corrected `PreProcess` and `Resize` of the two Findings; as written, the plain and dizzy pre-pass reads past the end of its draw-buffer list and the resize leaves the blurs' renderbuffers at their old size.
- The clear colour, `glDepthFunc` and the viewport rectangle are issued as calls but have no modelled effect on the state.

## Findings

| source | as written | input that shows it | evidently intended | confidence | as-written member | corrected member |
|---|---|---|---|---|---|---|
| code/Postprocess.hpp:71 | `PreProcess` always declares two draw buffers, read from `drawingBuffers[0]` on | the plain blur or the dizzy effect: only colour attachment 0 is registered, so the second entry is read past the end of the vector | declare exactly the registered attachments (`drawingBuffers.size()`) | high; not executed | PostProcessing.PreProcessAsWrittenOverreads | PostProcessing.PreProcessEffect |
| code/Postprocess.hpp:80 | `Resize` allocates storage for whichever renderbuffer is bound, without binding the effect's own | initialise motion blur, then the plain blur and the dizzy effect, then resize: the dizzy renderbuffer is the bound one, so the two blurs keep depth/stencil buffers of the old size | bind `renderDepthStencilBuffer` before `glRenderbufferStorage` | high; not executed | PostProcessing.ResizeAfterLaterInitialization | PostProcessing.ResizeEffect |

# SDL OpenGL render backend, modelled in Dafny

This project models the bookkeeping of SDL's legacy OpenGL 2D render backend
(`src/render/opengl/SDL_render_gl.c`): everything the backend decides for
itself around the GL calls it makes. GL itself is an append-only trace of
`Event` values, carried in the `trace` field of the renderer
(`Renderer.RenderData`) or returned by the command handlers as the calls they
made. Most GL calls become one event each. These are folded or omitted:

- glPixelStorei(GL_UNPACK_ALIGNMENT, 1) before texture uploads is not recorded.
- glPixelStorei(GL_UNPACK_ROW_LENGTH, ...) travels as the `rowLength` of the glTexSubImage2D event it applies to.
- The glTexParameteri calls of texture creation (scale mode and wrapping) are not recorded.
- glGetError is not an event; the pending error codes are renderer state.

The parts modelled are:

- **Translation tables** (`translate.dfy`, module `Translate`):
  - SDL blend factors and operations to GL enums;
  - the blend-mode support test;
  - SDL pixel formats to GL upload formats;
  - GL error codes to their names.
- **Texture sizing and layout arithmetic** (`layout.dfy`, module `TextureLayout`):
  - `power_of_2`;
  - the allocation policy: non-power-of-two textures, then rectangle textures, then rounding up;
  - the streaming buffer size;
  - the auxiliary chroma textures;
  - the planes and offsets of texture updates;
  - the lock offset.
- **Renderer and texture data** (`renderer.dfy`, module `Renderer`):
  - the framebuffer cache keyed by size (a linked list, here a sequence) and its teardown;
  - the debug error list and the glGetError queue;
  - texture creation, update, lock, unlock and destruction.
- **Command-queue executor** (`executor.dfy`, module `Executor`):
  - `SetDrawState`, `SetCopyState` and the `GL_RunCommandQueue` loop;
  - the executor's "last applied" cache, which elides redundant state changes;
  - the Y flip of viewport and scissor;
  - line-loop detection and the endpoint of open line strips.
- **Vertex layout of rotated copies** (`queue.dfy`, module `Queue`): `GL_QueueCopyEx`.
- **Read-back** (`readback.dfy`, module `ReadBack`): `GL_RenderReadPixels` and its in-place row flip.

`common.dfy` (module `GLTypes`) holds the shared vocabulary:

- pixel formats, blend modes, shaders, rectangles and colours;
- the `Event` datatype.

The source is partly pure and partly imperative, and the model follows the same split:

- **Functions:** the tables and formulas.
- **Methods with loops and invariants**, each proved against a specification function:
  - `power_of_2`;
  - the framebuffer search and teardown;
  - the error loops;
  - the vertex loops;
  - the command loop;
  - the row flip.
- **Class fields updated through `modifies` frames:** the driver data and the texture data.

The quirks of the code are modelled as written:

- SetDrawState leaves the texturing flag false even on the enable path (line 1206).
- The NV12/NV21 streaming buffer gets twice the chroma plane size, as YV12/IYUV does (line 699).
- Clear brackets glClear with the scissor test according to the clipping flag at the start of the run, not the current clip flag (line 1407).
- The viewport command builds its projection from the renderer's viewport, not the new rectangle (line 1364).
- Destroying a texture deletes the auxiliary textures only for planar (`yuv`) textures, not for NV12/NV21 (line 1658).

One defect is modelled both ways: the endpoint of an open line strip is read past the polyline's own points (lines 1449-1471). `Executor.LineEventsAsWritten` keeps the code as written, and the rest of the model uses the corrected `Executor.LineEvents`; see "## Findings".

## Model

| member | source | states |
|---|---|---|
| GLTypes.PackColor | src/render/opengl/SDL_render_gl.c:1168-1172 | the packed (a<<24)\|(r<<16)\|(g<<8)\|b colour word fits in a Uint32 |
| GLTypes.PackColorRoundTrip | src/render/opengl/SDL_render_gl.c:1168-1172 | unpacking the packed word gives back all four channels: packing loses nothing |
| GLTypes.PackColorInjective | src/render/opengl/SDL_render_gl.c:1172-1179 | two colours pack to the same word exactly when they are equal, so the cache compares colours |
| Translate.GetBlendFunc | src/render/opengl/SDL_render_gl.c:550-576 | GL_INVALID_ENUM exactly for inputs outside the ten SDL blend factors; every other result is a GL blend factor |
| Translate.GetBlendFuncInjective | src/render/opengl/SDL_render_gl.c:550-576 | distinct SDL factors map to distinct GL factors |
| Translate.GetBlendEquation | src/render/opengl/SDL_render_gl.c:578-590 | GL_INVALID_ENUM exactly for operations other than ADD, SUBTRACT and REV_SUBTRACT; the others map to the three GL equations |
| Translate.GetBlendEquationInjective | src/render/opengl/SDL_render_gl.c:578-590 | distinct supported operations map to distinct GL equations |
| Translate.SupportsBlendMode | src/render/opengl/SDL_render_gl.c:592-614 | a mode is supported iff its four factors are among the ten mapped ones, both operations are ADD, SUBTRACT or REV_SUBTRACT, and the colour and alpha operations are equal |
| Translate.SupportsBlendModeCases | src/render/opengl/SDL_render_gl.c:592-614 | NONE is supported, INVALID is not, a mode whose two operations differ never is, and any mode of valid factors with one shared supported operation is |
| Translate.ConvertFormat | src/render/opengl/SDL_render_gl.c:627-656 | a format is convertible iff it is ARGB8888, YV12, IYUV, NV12 or NV21; the YUV formats upload as single-byte luminance |
| Translate.TranslateError | src/render/opengl/SDL_render_gl.c:170-187 | "UNKNOWN" exactly for codes outside the eight GL error codes; the known names start with "GL_" |
| Translate.TranslateErrorInjective | src/render/opengl/SDL_render_gl.c:170-187 | different known codes get different names |
| TextureLayout.NextPow2Spec | src/render/opengl/SDL_render_gl.c:616-625 | the rounded size is a power of two, at least the input, and its half is below the input (or it is 1) |
| TextureLayout.NextPow2Unique | src/render/opengl/SDL_render_gl.c:616-625 | any power of two with those two properties is the rounded size, so the rounding is the least power of two covering the input |
| TextureLayout.PowerOf2 | src/render/opengl/SDL_render_gl.c:616-625 | the doubling loop returns the least power of two that is at least the input (1 for inputs up to 1) |
| TextureLayout.AllocatedSize | src/render/opengl/SDL_render_gl.c:725-740 | with non-power-of-two or rectangle support the texture is allocated at the requested size; otherwise each side is the least covering power of two; the UV scale is 1, the texel size, or w/tw and h/th accordingly |
| TextureLayout.NextPow2Idempotent | src/render/opengl/SDL_render_gl.c:736-737 | rounding an already rounded size changes nothing |
| TextureLayout.AuxTextureSizes | src/render/opengl/SDL_render_gl.c:797-851 | YV12/IYUV get exactly two auxiliary textures, NV12/NV21 exactly one, other formats none; each side is half the allocated side rounded up |
| TextureLayout.ChromaRectCovers | src/render/opengl/SDL_render_gl.c:886-888 | for an even-aligned rectangle, the chroma rectangle (x/2, y/2, (w+1)/2, (h+1)/2) scaled back up starts at the same place and covers the luma rectangle with at most one sample to spare |
| TextureLayout.UpdatePlan | src/render/opengl/SDL_render_gl.c:869-911 | the main plane is read at offset 0; chroma planes use the chroma rectangle and row length (pitch+1)/2; the second plane starts at rect.h*pitch and a third one chroma plane later; YV12 fills V before U, IYUV U before V; NV12/NV21 send one plane of 2-byte pairs |
| TextureLayout.FullUpdateTilesBuffer | src/render/opengl/SDL_render_gl.c:687-700 | updating a whole multi-plane streaming texture reads its planes back to back, and the last ends exactly at the size of the allocated streaming buffer |
| TextureLayout.UpdateYUVPlan | src/render/opengl/SDL_render_gl.c:928-951 | three uploads: Y with the Y pitch, then U and V into their own textures with the chroma rectangle and their own pitches |
| TextureLayout.LockedRowsInside | src/render/opengl/SDL_render_gl.c:960-964 | every row of a rectangle locked inside the texture starts at a non-negative offset from rect.y*pitch + rect.x*bpp and ends inside the h*pitch main plane |
| Renderer.DeleteFramebufferEvents | src/render/opengl/SDL_render_gl.c:1690-1697 | the teardown deletes exactly one framebuffer per cached node |
| Renderer.UploadEvents | src/render/opengl/SDL_render_gl.c:869-911 | an update makes two recorded calls per plane upload, glBindTexture and glTexSubImage2D; the row length set with glPixelStorei is part of the latter |
| Renderer.UploadEventsPairs | src/render/opengl/SDL_render_gl.c:869-911 | upload i binds its plane's texture and then sends its rectangle at base plus its offset with its row length, in plan order |
| Renderer.RenderData.constructor | src/render/opengl/SDL_render_gl.c:414-518 | the context exists exactly when its creation succeeded, and every capability needs it; debug output is used only on a debug context that has the extension; rectangle textures only without non-power-of-two support; the framebuffer cache, error lists and trace start empty |
| Renderer.RenderData.GetFBO | src/render/opengl/SDL_render_gl.c:324-344 | returns a node of the requested size; a cached one leaves list and trace unchanged; on a miss exactly one fresh node is prepended with one glGenFramebuffers; sizes stay unique |
| Renderer.RenderData.FreeFramebuffers | src/render/opengl/SDL_render_gl.c:1689-1697 | the walk deletes every cached framebuffer in list order and leaves the list empty |
| Renderer.RenderData.FreeFirstFramebuffer | src/render/opengl/SDL_render_gl.c:1691-1696 | one step deletes the head framebuffer and unlinks it, keeping the cache invariant |
| Renderer.RenderData.DestroyRenderer | src/render/opengl/SDL_render_gl.c:1667-1703 | the shader context is destroyed when present; with a GL context every framebuffer is deleted, then the context; without one the list is kept |
| Renderer.RenderData.ActivateRenderer | src/render/opengl/SDL_render_gl.c:279-293 | 0 when the context can be made current, else -1 with the error state untouched; on success with debugging on, the recorded debug messages (with debug output) or the glGetError queue (without) are cleared and the other is kept, so no error is left for a check to find; with debugging off nothing changes |
| Renderer.RenderData.RaiseErrors | src/render/opengl/SDL_render_gl.c:295-309 | errors raised by GL calls join the glGetError queue and, with debug output, reach the callback as error-type messages; afterwards a check finds errors iff it did before or debugging is on and some were raised |
| Renderer.RenderData.HandleDebugMessage | src/render/opengl/SDL_render_gl.c:295-322 | an error-type message is appended when the list can grow; anything else leaves the list unchanged |
| Renderer.RenderData.ClearErrors | src/render/opengl/SDL_render_gl.c:189-214 | nothing without a debug context; with debug output the message list is emptied; otherwise the glGetError queue is drained |
| Renderer.RenderData.GetError | src/render/opengl/SDL_render_gl.c:237-239 | glGetError yields GL_NO_ERROR exactly when no error is pending |
| Renderer.RenderData.CheckAllErrors | src/render/opengl/SDL_render_gl.c:216-251 | without debug nothing is reported; with debug output one report per recorded message under the prefix, then the list is cleared; otherwise one report per pending code named by TranslateError, under "generic" for an empty prefix; -1 exactly when something was reported |
| Renderer.RenderData.CheckError | src/render/opengl/SDL_render_gl.c:216-257 | the status is -1 exactly when debugging is on and a debug message (with debug output) or a glGetError code (without) was pending, else 0; afterwards nothing is pending, and with debugging off nothing is touched |
| Renderer.RenderData.DrainErrors | src/render/opengl/SDL_render_gl.c:236-248 | every pending code is reported once, in order, and the queue ends empty |
| Renderer.ReportMessages | src/render/opengl/SDL_render_gl.c:227-232 | one report per recorded message, in order, under the caller's prefix |
| Renderer.RenderData.CreateTexture | src/render/opengl/SDL_render_gl.c:658-854 | fails for targets without framebuffer support and for unconvertible formats (both iff); past those, out of memory exactly when the driver data or a streaming buffer cannot be allocated, leaving nothing behind; created exactly when every allocation succeeds and none of the three error checks after glGenTextures, glTexImage2D and the auxiliary textures finds a raised error (with debugging off they never do); on success the texture data and the exact GL calls follow the allocation policy, buffer size and auxiliary textures |
| Renderer.RenderData.CreateTextureData | src/render/opengl/SDL_render_gl.c:682-854 | out of memory exactly when a streaming buffer cannot be allocated, leaving nothing behind; created exactly when that allocation succeeds and no check finds a raised error; success makes the framebuffer (for targets), the main texture and the auxiliary textures, in that order |
| Renderer.RenderData.StreamingBuffer | src/render/opengl/SDL_render_gl.c:687-706 | only streaming textures get a pitch of w*bpp and a buffer of the streaming size; the step fails exactly when that allocation fails |
| Renderer.RenderData.TargetFramebuffer | src/render/opengl/SDL_render_gl.c:708-712 | a target takes a framebuffer of its own size, adding one only when none is cached; other textures get none |
| Renderer.RenderData.CreateTextureObjects | src/render/opengl/SDL_render_gl.c:714-853 | driver data is attached iff the check after glGenTextures passes; created iff all three checks pass, each failing exactly when debugging is on and errors were raised since the previous one; on success the data holds the name, UV scale, buffer, framebuffer and exactly the auxiliary names the format needs |
| Renderer.RenderData.CreateTextureImages | src/render/opengl/SDL_render_gl.c:722-853 | the driver data is attached; created iff neither the check after glTexImage2D nor the final one finds a raised error; on success the main image, then the auxiliary textures with their names |
| Renderer.RenderData.GenTexture | src/render/opengl/SDL_render_gl.c:715 | glGenTextures hands out a fresh name |
| Renderer.RenderData.CreateAuxTextures | src/render/opengl/SDL_render_gl.c:797-851 | YV12/IYUV get two fresh names (U then V), NV12/NV21 one, other formats none, with their glTexImage2D calls |
| Renderer.RenderData.MainAllocation | src/render/opengl/SDL_render_gl.c:725-740 | the size computed with power_of_2 is the allocation policy's size |
| Renderer.RenderData.UpdateTexture | src/render/opengl/SDL_render_gl.c:856-915 | the update's GL calls are the plan's uploads between enabling and disabling the texture target; the status is -1 exactly when debugging is on and the upload raised errors, or the context could not be made current while errors were pending; nothing is left pending |
| Renderer.RenderData.UpdateTextureYUV | src/render/opengl/SDL_render_gl.c:917-952 | the three planes are uploaded from their own buffers between enable and disable; the status is -1 exactly when debugging is on and the uploads raised errors, or the context could not be made current while errors were pending |
| Renderer.RenderData.DestroyTexture | src/render/opengl/SDL_render_gl.c:1644-1665 | activation clears pending errors when the context can be made current and keeps them otherwise; a texture without driver data is then left alone; otherwise its main texture is deleted when named, U and V only for planar textures, and the driver data is dropped |
| Renderer.LockTexture | src/render/opengl/SDL_render_gl.c:954-966 | the locked rectangle is remembered; the offset is rect.y*pitch + rect.x*bpp with the buffer's pitch |
| Renderer.UnlockTexture | src/render/opengl/SDL_render_gl.c:968-980 | the locked rectangle is re-uploaded from the offset LockTexture handed out, with the buffer pitch, and no error is left pending |
| Executor.SetDrawState | src/render/opengl/SDL_render_gl.c:1163-1209 | the calls are exactly DrawStateEvents (colour, blend, shader, texturing, each only when it differs from the cache) and the cache becomes DrawStateNext: the command's colour and blend, its shader when shaders exist, and a texturing flag that is never set; no call exactly when the cache already matches |
| Executor.DrawStateNoClear | src/render/opengl/SDL_render_gl.c:1163-1209 | the draw state never calls glClear, and disables the texture target only when the texturing flag was set |
| Executor.TexturingChange | src/render/opengl/SDL_render_gl.c:1200-1208 | the texture target is enabled or disabled exactly when (texture != NULL) differs from the flag |
| Executor.DrawStateElision | src/render/opengl/SDL_render_gl.c:1175-1208 | nothing is emitted exactly when the cache already matches the command |
| Executor.DrawStateColorAndShader | src/render/opengl/SDL_render_gl.c:1175-1198 | glColor4f iff the packed colour changed, and then as the first call; no other colour is set; shader selection iff shaders exist and the shader changed, and only of that shader |
| Executor.DrawStateBlend | src/render/opengl/SDL_render_gl.c:1181-1193 | no blend call for an unchanged mode; glDisable for NONE; otherwise enable, glBlendFuncSeparate and glBlendEquation of the translated components |
| Executor.DrawStateTexturing | src/render/opengl/SDL_render_gl.c:1200-1208 | enable/disable of the target as the last call, as (texture != NULL) requires; only state calls; a disable only when the flag was set and there is no texture, an enable only when it was clear and there is one |
| Executor.ColorChange | src/render/opengl/SDL_render_gl.c:1175-1179 | glColor4f exactly when the packed colour differs |
| Executor.BlendChange | src/render/opengl/SDL_render_gl.c:1181-1193 | blend calls exactly when the mode differs: a disable for NONE, else enable plus function and equation |
| Executor.ShaderChange | src/render/opengl/SDL_render_gl.c:1195-1198 | GL_SelectShader exactly when shaders exist and the shader differs |
| Executor.ChooseShader | src/render/opengl/SDL_render_gl.c:1216-1255 | SHADER_RGB unless shaders exist, the texture is yuv or nv12 and the mode is known; then the shader's conversion is the mode and its family follows yuv, NV12 or NV21 |
| Executor.ShaderDeterminedByFamilyAndMode | src/render/opengl/SDL_render_gl.c:1222-1253 | family and conversion mode name one shader, so the choice is unique |
| Executor.BindingEvents | src/render/opengl/SDL_render_gl.c:1259-1276 | V on unit 2 and U on unit 1 for planar textures, UV on unit 1 for NV12/NV21, and always ending with the main texture on unit 0 |
| Executor.SetCopyState | src/render/opengl/SDL_render_gl.c:1211-1277 | the calls are exactly CopyStateEvents: the draw state for the chosen shader, then BindingEvents unless this texture is already bound; the cache becomes DrawStateNext for that shader, this texture becomes the bound one, and nothing else in the executor's locals changes |
| Executor.CopyStateElision | src/render/opengl/SDL_render_gl.c:1211-1277 | a copy makes no state or binding call exactly when the cache matches it and its texture is the bound one |
| Executor.CopyStateKeepsBinding | src/render/opengl/SDL_render_gl.c:1259 | a copy of the bound texture makes no glActiveTextureARB and no glBindTexture call |
| Executor.CopyStateBindings | src/render/opengl/SDL_render_gl.c:1259-1276 | a copy of another texture binds, right after the draw state, V on unit 2 then U on unit 1 for planar textures or UV on unit 1 for NV12/NV21, and ends with the main texture on unit 0 |
| Executor.CopyStateNoClear | src/render/opengl/SDL_render_gl.c:1211-1277 | the copy state never calls glClear, and disables the texture target only when the texturing flag was set |
| Executor.FlipYInvolution | src/render/opengl/SDL_render_gl.c:1360-1362 | flipping y twice restores it, so the window flip loses no position |
| Executor.ScissorInsideViewport | src/render/opengl/SDL_render_gl.c:1388-1390 | a clip rectangle inside the viewport yields a scissor box inside the GL viewport box, for window and target alike |
| Executor.ViewportEvents | src/render/opengl/SDL_render_gl.c:1358-1369 | the GL viewport has y = drawableh - vp.y - vp.h for the window and vp.y for a target; an ortho projection is built only for a non-empty viewport, and from the renderer's viewport |
| Executor.VertexEvents | src/render/opengl/SDL_render_gl.c:1423-1427 | one glVertex2f per point, point i from the pair at first + 2i |
| Executor.VertexRun | src/render/opengl/SDL_render_gl.c:1424-1426 | the vertex loop emits exactly VertexEvents |
| Executor.RectEvents | src/render/opengl/SDL_render_gl.c:1493-1495 | one glRectf per rectangle, rectangle i from the four words at first + 4i |
| Executor.RectRun | src/render/opengl/SDL_render_gl.c:1493-1495 | the rectangle loop emits exactly RectEvents |
| Executor.EndpointVertices | src/render/opengl/SDL_render_gl.c:1462-1484 | Mac OS X/Windows add the last point; elsewhere at most two points, none for coinciding endpoints, and the right-most and bottom-most endpoint each when the endpoints differ on that axis |
| Executor.LineLoopShape | src/render/opengl/SDL_render_gl.c:1435-1441 | a closed polyline (more than two points, first equal to last) is one GL_LINE_LOOP through its first count-1 points |
| Executor.StripShape | src/render/opengl/SDL_render_gl.c:1448-1452 | an open polyline's strip goes through all count points in order |
| Executor.LineStripShape | src/render/opengl/SDL_render_gl.c:1442-1485 | an open polyline is a GL_LINE_STRIP through all points, then a GL_POINTS batch for the open endpoint |
| Executor.LineEventsKinds | src/render/opengl/SDL_render_gl.c:1431-1487 | the line command makes only glBegin, glEnd and glVertex calls after its state |
| Executor.ClosedLoopDropsRepeatedPoint | src/render/opengl/SDL_render_gl.c:1435-1436 | a closed polyline's vertices are the loop's vertices plus the repeated first point, so the loop draws the same segments |
| Executor.QuadEvents | src/render/opengl/SDL_render_gl.c:1510-1519 | the copy quad makes no glClear and no glDisable |
| Executor.QuadCorners | src/render/opengl/SDL_render_gl.c:1510-1519 | one triangle strip of four corners, each after its texture coordinate, in the order (min,min), (max,min), (min,max), (max,max) |
| Executor.CopyExEvents | src/render/opengl/SDL_render_gl.c:1538-1552 | the rotated copy makes no glClear and no glDisable |
| Executor.ExecSetViewport | src/render/opengl/SDL_render_gl.c:1355-1372 | the projection is reprogrammed only for a new rectangle, which is then cached |
| Executor.ExecSetClipRect | src/render/opengl/SDL_render_gl.c:1374-1393 | the calls are exactly ClipEvents; the clip flag becomes the command's, and its rectangle is remembered only when clipping is on |
| Executor.ClipEventsFacts | src/render/opengl/SDL_render_gl.c:1374-1393 | the scissor test is enabled exactly when clipping turns on and disabled exactly when it turns off; the scissor box of the new rectangle is programmed exactly when clipping is on and the rectangle changed; no call at all exactly when neither changed |
| Executor.ExecClear | src/render/opengl/SDL_render_gl.c:1395-1417 | the cached clear colour becomes the command's; the calls are ClearEvents with the clipping flag from the start of the run |
| Executor.ClearEventsColor | src/render/opengl/SDL_render_gl.c:1401-1415 | glClearColor exactly when the colour changed; only the scissor test is enabled or disabled |
| Executor.ClearEventsCount | src/render/opengl/SDL_render_gl.c:1407-1415 | a clear command makes exactly one glClear |
| Executor.ClearEventsScissor | src/render/opengl/SDL_render_gl.c:1407-1415 | with clipping on, glClear sits between disabling and re-enabling the scissor test; with it off, the scissor test is not touched |
| Executor.ExecDrawPoints | src/render/opengl/SDL_render_gl.c:1419-1429 | the calls are exactly the draw state for SHADER_SOLID followed by one GL_POINTS batch of the command's points; only the draw cache changes, to DrawStateNext |
| Executor.ExecDrawLines | src/render/opengl/SDL_render_gl.c:1431-1487 | the calls are exactly the draw state for SHADER_SOLID followed by LineEvents (corrected endpoint, see ## Findings); only the draw cache changes, to DrawStateNext |
| Executor.LineRun | src/render/opengl/SDL_render_gl.c:1435-1485 | the vertex part emitted by the loops equals LineEvents (corrected endpoint, see ## Findings) |
| Executor.LineEventsAsWritten | src/render/opengl/SDL_render_gl.c:1431-1487 | as the code is written, closed polylines and the strip itself are drawn as intended; only the endpoint batch differs |
| Executor.EndpointReadPastCommand | src/render/opengl/SDL_render_gl.c:1449-1471 | for the open polyline (0,0)-(5,0) followed in the buffer by (7,7) and (9,9), the code as written draws (9,9) twice as the endpoint where (5,0) is meant |
| Executor.StripEndpointIsPolylineEnd | src/render/opengl/SDL_render_gl.c:1462-1484 | every point of the endpoint batch of an open polyline is its first or last point |
| Executor.ExecFillRects | src/render/opengl/SDL_render_gl.c:1489-1497 | the calls are exactly the draw state for SHADER_SOLID followed by one glRectf per rectangle; only the draw cache changes, to DrawStateNext |
| Executor.ExecCopy | src/render/opengl/SDL_render_gl.c:1499-1521 | the calls are exactly the copy state followed by the quad; the cache becomes DrawStateNext for the chosen shader, the texture becomes the bound one, and nothing else changes |
| Executor.ExecCopyEx | src/render/opengl/SDL_render_gl.c:1523-1554 | the calls are exactly the copy state followed by the rotated quad's calls; the cache becomes DrawStateNext for the chosen shader, the texture becomes the bound one, and nothing else changes |
| Executor.DrawBody | src/render/opengl/SDL_render_gl.c:1419-1554 | the vertex, rectangle and quad calls of a drawing command include no glClear and no glDisable |
| Executor.SolidStep | src/render/opengl/SDL_render_gl.c:1419-1497 | a point, line or rectangle command makes its draw state for SHADER_SOLID, then its body |
| Executor.StepFacts | src/render/opengl/SDL_render_gl.c:1349-1558 | each command sets only the locals its kind owns (viewport; clip flag and rectangle; clear colour; for drawing commands colour, blend and, with shaders, their shader; for copies the bound texture), makes one glClear iff it is a clear, never sets the texturing flag, and disables texturing only when the flag was set |
| Executor.Execute | src/render/opengl/SDL_render_gl.c:1349-1558 | one iteration leaves exactly the locals and makes exactly the calls of Step, whose cases are the handlers' contracts |
| Executor.PreludeMatchesInitialState | src/render/opengl/SDL_render_gl.c:1306-1346 | before the loop GL gets the renderer's clear and draw colour, its viewport with y flipped, the scissor test as the clipping flag says, texturing off, and its clip rectangle's scissor box last: the state the locals start from |
| Executor.TracksStep | src/render/opengl/SDL_render_gl.c:1348-1561 | one command keeps every local (viewport, clip flag, clip rectangle, clear colour, bound texture, draw colour, blend and shader) equal to the last value its kind of command set, texturing off, and the clear count in step |
| Executor.RunFacts | src/render/opengl/SDL_render_gl.c:1348-1561 | a whole queue makes one glClear per clear command and no texture disable, and leaves every local holding the last value its kind of command set, or the renderer's initial value |
| Executor.RunElidesUnchangedDrawState | src/render/opengl/SDL_render_gl.c:1163-1209 | a point, line or rectangle command with the colour and blend of the last drawing command, after one that used the solid shader, adds only its vertex calls to the queue's calls |
| Executor.RunCopyReEnablesTexturing | src/render/opengl/SDL_render_gl.c:1200-1208 | a copy of the bound texture with colour, blend and shader already set still adds a glEnable of the texture target before its quad, because the texturing flag is never left set |
| Executor.RunElidesRepeatedViewport | src/render/opengl/SDL_render_gl.c:1355-1372 | a viewport command repeating the current viewport changes no local and makes no call |
| Executor.RunElidesRepeatedClip | src/render/opengl/SDL_render_gl.c:1374-1393 | a clip command repeating the current flag, and with clipping on the current rectangle, changes no local and makes no call |
| Executor.RunCommands | src/render/opengl/SDL_render_gl.c:1348-1561 | the loop's final locals and collected calls are exactly those of Run, the fold of Step over the commands from the initial locals |
| Executor.RunCommandQueue | src/render/opengl/SDL_render_gl.c:1279-1564 | -1 with no GL calls when the context cannot be made current; otherwise the prelude, then exactly the calls of Run, with Run's final locals, and the status -1 exactly when debugging is on and the queue's GL calls raised errors |
| ReadBack.Reversed | src/render/opengl/SDL_render_gl.c:1611-1626 | row i of the flipped buffer is original row h-1-i |
| ReadBack.ReversedPermutes | src/render/opengl/SDL_render_gl.c:1618-1624 | the flip only swaps rows: the buffer keeps the same rows |
| ReadBack.ReversedInvolution | src/render/opengl/SDL_render_gl.c:1611-1626 | flipping twice restores the buffer |
| ReadBack.ReversedMiddle | src/render/opengl/SDL_render_gl.c:1617-1625 | for an odd height the middle row stays in place |
| ReadBack.FlipRows | src/render/opengl/SDL_render_gl.c:1611-1626 | the h/2 swaps of the dst/src cursors leave row i holding original row h-1-i |
| ReadBack.ReadY | src/render/opengl/SDL_render_gl.c:1603-1604 | for the window the read rectangle's GL bottom edge plus its height is the drawable height minus rect.y |
| ReadBack.ReadRowsTopDown | src/render/opengl/SDL_render_gl.c:1603-1626 | with the y chosen for glReadPixels and the flip applied only for the window, buffer row i is the drawable row SDL calls rect.y + i |
| ReadBack.ReadRows | src/render/opengl/SDL_render_gl.c:1603-1626 | the read and flipped buffer holds the rectangle's rows top-down, for window and target alike |
| ReadBack.RenderReadPixels | src/render/opengl/SDL_render_gl.c:1566-1634 | an unconvertible format gives -1, an empty rectangle 0, a failed allocation -1, all with no GL call; otherwise pack alignment 1, row length w and glReadPixels at the flipped y; the converter receives the rows top-down exactly when the error check is clean, that is unless debugging is on and the read raised errors or, with the context not made current, errors were pending; otherwise -1 |
| Queue.CopyExVertices | src/render/opengl/SDL_render_gl.c:1118-1160 | eleven words, with the given texture coordinates at 4..7 |
| Queue.QueueCopyEx | src/render/opengl/SDL_render_gl.c:1103-1161 | fails exactly when no vertex space can be allocated; otherwise stores eleven words |
| Queue.CopyExCoversDestination | src/render/opengl/SDL_render_gl.c:1121-1137 | for every flip, the executor translates by dst + centre and rotates by the angle, and the corners then span exactly the destination rectangle on each axis |
| Queue.CopyExFlipSwaps | src/render/opengl/SDL_render_gl.c:1121-1137 | a horizontal flip swaps minx and maxx and nothing else; a vertical flip swaps miny and maxy and nothing else |

## Left out

- The effects of GL calls. They are trace events; what the driver does with them is not modelled. Reading pixels takes the drawable's rows as an input.
- Context creation, making the context current, swap interval, extension queries and function loading in GL_CreateRenderer. These are foreign calls. Their outcomes are parameters: `makeCurrentOk` for every operation that activates the renderer, and the constructor's extension flags.
- Floating point:
  - colours scaled by 1/255 (the trace keeps the packed word);
  - the UV computation and the `texw`/`texh` floats (kept as the `UvScale` they are computed from);
  - rotation angles and vertex coordinates, which are integers here.
- GL_QueueDrawPoints, GL_QueueFillRects, GL_QueueCopy and GL_QueueSetViewport: the vertex words are inputs to the executor.
- Draw commands index the vertex data with `first` as an element index, where the source uses a byte offset.
- GL_SetRenderTarget, GL_RenderPresent, GL_BindTexture/GL_UnbindTexture and GL_GetOutputSize: these are not part of this model.
- The UYVY format and the Mac OS X storage hints. UYVY is an unconvertible format here.
- The Mac OS X/Windows line-endpoint variant: a parameter (`lastPointOpen`) picks the branch.
- SDL_ConvertPixels, SDL_GetYUVConversionModeForResolution and the GL_SelectShader internals. These are external; their results are inputs (`convertStatus`, `yuvMode`, the selected shader recorded as an event).
- Chaining debug messages to the previous callback, logging, and the text of SDL_SetError. A report keeps only its prefix and message.
- Allocation failures. Each is a boolean parameter giving the failure outcome.
- Which GL call raises which error: the errors raised between two error checks are a parameter (`raised`, or `genErrors`, `imageErrors` and `finalErrors` in GL_CreateTexture). Errors raised by the framebuffer creation in GL_CreateTexture are not modelled, since the check at line 714 discards them. The queue keeps every raised code, where GL keeps at most one flag per code; the debug callback is assumed to store every raised message without running out of memory.
- Renderer.RenderData.CheckError: keeps only the status of CheckAllErrors; the reports are in CheckAllErrors' contract.
- Executor.RunCommandQueue: the commands' calls are collected in `emitted` and appended to the trace after the loop, not one by one; the resulting trace is the same.
- Executor.RunCommandQueue: requires the run's context to carry the renderer's shader flag and texture target, which the source reads from the same driver data.
- Executor.ExecDrawLines: requires at least one point, which the command queue guarantees for line commands.
- ReadBack.RenderReadPixels: the rectangle is required to lie inside the drawable with non-negative size, as the caller clips it to the viewport before calling the backend.
- TextureLayout.PowerOf2: integers are unbounded, so the C `int` overflow of `value <<= 1` for inputs above 2^30 is not modelled; the result is the least covering power of two for every input.
- TextureLayout.FullUpdateTilesBuffer: the buffer size h*pitch plus the chroma planes is an unbounded integer here; the C code computes it in `int`, which overflows for buffers of 2 GiB or more.
- Renderer.LockTexture: the offset rect.y*pitch + rect.x*bpp is an unbounded integer here; the C code computes it in `int`, which overflows for buffers of 2 GiB or more.
- Executor.LineEventsAsWritten: defined only when the vertex buffer holds count more points after the polyline; beyond the end of the buffer the C code reads out of bounds, which is not modelled.
- Blend modes other than NONE and INVALID are given by their six components, so the 32-bit packing of SDL_ComposeCustomBlendMode is not modelled.

## Findings

| source | as written | input that shows it | evidently intended | confidence | as-written member | corrected member |
|---|---|---|---|---|---|---|
| src/render/opengl/SDL_render_gl.c:1449-1471 | the strip loop advances `verts` two words per point, and the endpoint batch then reads verts[0], verts[1], verts[(count-1)*2] and verts[count*2-1] through that advanced pointer: the count points after the polyline | an open polyline (0,0)-(5,0) followed in the vertex buffer by (7,7) and (9,9), without lastPointOpen: the endpoint batch draws (9,9) twice instead of (5,0) | the endpoint batch reads the polyline's own first and last points | not executed | Executor.LineEventsAsWritten, Executor.EndpointReadPastCommand | Executor.LineEvents, Executor.StripEndpointIsPolylineEnd |

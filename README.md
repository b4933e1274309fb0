# WebXR layers playground — a Dafny model

The playground shows compressed (KTX2) textures in immersive WebXR sessions as
composition layers. A texture can be a cube map, a stereo cube map split across
two files, an equirectangular image or a stereo one, and an image can also become
a quad. This project models the layer-handling core of four of its scripts:

- `main.js` has three layer wrapper classes: `WebXRCubeLayer`,
  `WebXREquirectangularLayer` and `WebXRQuadLayer`.
  - Each one derives the `XRWebGLBinding.create…Layer` request from its own fields.
  - Each one lazily fills two module-level slots, `glBinding` and `xrSpace`.
- `index.js` is the viewer page. Its parts are:
  - the KTX2 load callback, which evaluates the texture's format through a format table;
  - the `layers` registry that callback fills, including the merge of the two halves of a stereo cube map;
  - the guarded creation functions (`createEquireLayer`, `createCubeLayer` and their by-index forms);
  - `setLayer`, which makes the session's layer stack the chosen layer beneath the stack's previous last entry (WebXR composites the stack's first entry at the bottom);
  - the quad image loader;
  - the per-frame redraw, which uploads the right texture, face and eye into every active layer the browser flags as needing a redraw.
- `indext.js` and `hd-test-index.js` are two test pages. They share one structure:
  - a catalogue of wrappers per source type;
  - a `layers` / `layersToDraw` / `layersOBJ` registry;
  - one hand-made stereo equirect `layer`, created by `makeLayer`;
  - the switch operations `renderByIndex` and `selectActiveLayerByName`;
  - a guarded per-frame upload into `layer`.

  The two files differ in three places: the layer `makeLayer` requests, what the load callback does with an equirectangular texture, and the upload `animate` issues.
  `indext.js` also has two byte-slicing helpers: `extractSubImageData` and `extractBottomHalfTexture`.

## How the model is organised

- **Exceptions.** A JavaScript exception is part of the model's result.
  - Functions return `Result` or `Batch.error`.
  - Page methods return `Outcome.Threw(TypeError | ReferenceError)`.
  - The model covers every `TypeError` that the source can raise on a null binding, a null space, a missing extension object, a missing texture or mip level, or an undefined `data`.
- **Objects.** The wrapper objects and page state are Dafny classes.
  - Aliasing between `layers[name]`, `activeLayers[i]` and `layersOBJ[name]` is preserved.
  - Their contents are compared through value views (`LayerView`).
- **GL uploads.** GL texture uploads are recorded in order in a `GLContext` object, as abstract `Upload` events. The pixels they write are not modelled.

| module | file | models |
|---|---|---|
| `Common` | common.dfy | `Option`, `Result`, `Outcome`, JS error kinds |
| `Platform` | platform.dfy | browser-provided handles: binding, space, texture data, KTX2 textures, images |
| `Formats` | formats.dfy | `supportedCompressedFormats` and `eval` of its entries |
| `RenderState` | render_state.dfy | the `updateRenderState({ layers: [chosen, last] })` rule |
| `TextureSlices` | texture_slices.dfy | `extractSubImageData`, `extractBottomHalfTexture` |
| `LayerWrappers` | layer_wrappers.dfy | the three wrapper classes of main.js and their binding cache |
| `Redraw` | redraw.dfy | the draw functions and the redraw loop of index.js |
| `Viewer` | viewer_page.dfy | the state and operations of index.js |
| `Switcher` | switcher_page.dfy | the state and operations of indext.js and hd-test-index.js (a `page` constant picks the file) |

## Model

| member | source | states |
|---|---|---|
| Formats.Lookup | index.js:113-120 | The table has an entry exactly for codes 37496, 37492, 37808 and 1023. Code 1023 names the free identifier `srgb` on the viewer page and `gl.RGBA` on the test pages. |
| Formats.Eval | index.js:144 | Only an absent entry evaluates to undefined, and every value is one of the four WebGL format enums. Only the free identifier `srgb` throws ReferenceError. A TypeError comes exactly from an ETC2 entry without the ETC extension or the ASTC entry without the ASTC extension. |
| Formats.Resolve | index.js:144 | An unknown code yields no format and throws nothing. It throws exactly in three cases: viewer code 1023 (ReferenceError), an ETC2 code without the ETC extension, and the ASTC code without the ASTC extension (both TypeError). The ETC2 codes evaluate to themselves, 37808 evaluates to the ASTC 4x4 sRGB enum, and test-page 1023 evaluates to RGBA. |
| RenderState.ShowUnderLast | index.js:500-505 | The new stack has exactly two entries: the chosen layer first, so composited at the bottom, then the previous stack's last entry above it. |
| RenderState.ShowAllKeepsBase | indext.js:734-739 | After any non-empty run of switches, the stack is the last chosen layer beneath the entry that was last before the run. That entry survives every switch as the top of the stack. |
| RenderState.ShowUnderLastForgetsPrevious | index.js:500-505 | Showing twice is the same as showing only the second choice. |
| TextureSlices.Clamped | indext.js:786 | `subarray` clamps both ends to the array length. The result is the exact slice when in range, the tail when the end is past it, and empty when the start is past it. |
| TextureSlices.ClampedThenZeros | indext.js:781-786 | Setting a clamped row into a zeroed buffer yields the reference padded row: source bytes, then zeros. |
| TextureSlices.SubImage | indext.js:780-789 | The extracted image has `alignedHeight` rows of `alignedWidth*4` bytes. |
| TextureSlices.SubImageByte | indext.js:782-787 | Output byte `r*alignedWidth*4 + c` is input byte `r*textureWidth*4 + c`, or 0 when that lies past the input. |
| TextureSlices.SubImageCopiesRow | indext.js:783-786 | When the input is long enough, output row `r` is exactly the input slice that starts at `r*textureWidth*4` and is `alignedWidth*4` bytes long. |
| TextureSlices.CopyInto | indext.js:786 | `set` overwrites exactly the target range and leaves every other byte unchanged. |
| TextureSlices.ImageBytes | indext.js:781 | The allocated buffer size is `alignedWidth*alignedHeight*4`. |
| TextureSlices.RowStart | indext.js:783 | The source offset of row `r` is `r*textureWidth*4`. |
| TextureSlices.CopyRow | indext.js:783-788 | One loop pass extends the buffer's contents from `r` rows to `r + 1` rows of the sub-image. |
| TextureSlices.ExtractSubImageData | indext.js:780-789 | Returns a fresh array whose contents equal the sub-image specification for the whole aligned size. |
| TextureSlices.BottomHalfIndices | indext.js:793-802 | The start index is `w*h*blockSize/32` and the end index is `w*h*blockSize/16`, both rounded down, with `0 <= start <= end`. |
| TextureSlices.FloorOfQuotient | indext.js:805 | `slice`'s truncation of the float index equals integer division. |
| TextureSlices.ExtractBottomHalfTexture | indext.js:791-808 | The result is the slice between the two indices when the input is long enough. It is never longer than half the input plus one. |
| TextureSlices.BottomHalfOfAlignedImage | indext.js:793-805 | For block-aligned sizes, the start is exactly half the end and equals `(h/8)*(w/4)*blockSize`, which is the result's length. |
| LayerWrappers.CubeRequest | main.js:157-183 | Throws TypeError exactly without a texture face 0, binding or space. Otherwise requests one face's size with stereo/mono layout by `stereo`, format 37840 and not static. |
| LayerWrappers.EquirectRequest | main.js:216-238 | Throws TypeError exactly without a binding, texture, mip 0 or space. Otherwise mip 0's width. The height is halved (truncated) for stereo-top-bottom and whole for mono. The format is the wrapper's, RGBA by default, and the layer is static. |
| LayerWrappers.QuadRequest | main.js:270-292 | Throws TypeError exactly without a binding, image or space. Otherwise the image's size, mono, RGBA, not static. |
| LayerWrappers.RequestOf | main.js:157-183 | The request `createLayer()` sends for each class (also main.js:216-238 and 270-292). Without the binding or the space it throws TypeError, and it throws nothing else. The class decides the kind requested: a cube tag a cube layer, an equirect tag an equirect layer, anything else a quad, always in the cached space. |
| LayerWrappers.FirstPresent | main.js:160-161 | The reference definition: the first non-null value of a history, and null only when every value is null. |
| LayerWrappers.CacheHoldsFirstFetched | main.js:160-161 | Starting from null, a guarded slot holds the first non-null value its getter ever returned. |
| LayerWrappers.CacheNeverOverwritten | main.js:218-219 | Once set, a slot is never overwritten, whatever its getter returns. |
| LayerWrappers.BindingCache.Refresh | main.js:272-273 | Each slot calls its getter only while it is null, and a set slot keeps its value. |
| LayerWrappers.LayerWrapper.Cube | main.js:147-154 | Stores every constructor argument, with tag `WebXRCubeLayer` and no equirect texture, image or radius. |
| LayerWrappers.LayerWrapper.Equirect | main.js:204-213 | Stores every constructor argument, with tag `WebXREquirectangularLayer` and no cube textures or image. |
| LayerWrappers.LayerWrapper.Quad | main.js:255-267 | Stores the image, with tag `WebXRQuadLayer`, a null layer and `stereo` never set. |
| LayerWrappers.LayerWrapper.IsStereo | main.js:193-195 | Undefined exactly for a quad. |
| LayerWrappers.LayerWrapper.CreateLayer | main.js:157-183 | Refreshes the caches, then sends the request derived from its fields. A throw leaves `layer` as it was. Success stores the new layer with the equirect radius or the quad size. |
| LayerWrappers.LayoutFollowsIsStereo | main.js:176 | A requested layout is stereo exactly when `isStereo()` is true. A quad is always mono. |
| Redraw.ReadyFaces | index.js:395-400 | Counts the leading faces, at most six, that have a level 0: every counted face has one, and the count stops short of six only at the end of the faces or at a face without levels. |
| Redraw.FaceUploads | index.js:395-400 | Upload k sends level 0 of face k to cube target k of the fixed order. A texture with fewer than six faces, or a face without a level 0, throws TypeError after the faces before it. |
| Redraw.DrawEquirect | index.js:365-382 | Throws TypeError exactly without mip 0, binding or layer, and then uploads nothing. Otherwise one 2D upload of mip 0 at its own size in the wrapper's format. |
| Redraw.DrawCube | index.js:384-436 | Without face 0, binding or layer: TypeError and nothing uploaded. Mono: the faces, in order, throwing exactly when fewer than six faces have a level 0. Stereo: the left eye gets `Cube_Texture`'s faces, then the right eye gets `Cube_Texture_Right`'s, all at face 0's width. It returns exactly when both eyes have six faces with level 0. A left face without level 0 throws before any right-eye upload, and so does a missing right texture. |
| Redraw.DrawQuad | index.js:438-456 | Throws TypeError exactly without binding, layer or image. Otherwise one RGBA 2D upload of the image. |
| Redraw.DrawLayer | index.js:351-363 | The `type` tag picks the draw: `WebXREquirectangularLayer` draws as `DrawEquirect`, `WebXRCubeLayer` as `DrawCube` and `WebXRQuadLayer` as `DrawQuad`. An unknown `type` draws nothing and does not throw. Every upload goes to the wrapper's own layer. |
| Redraw.Visit | index.js:332-337 | One pass of the redraw loop keeps the uploads so far and only appends. A null layer throws TypeError, and an unflagged layer is skipped. What it adds goes to that view's flagged layer, and the only error is a TypeError. |
| Redraw.Frame | index.js:332-337 | The redraw loop over the active layers, pass by pass, stopping at the first exception. The only exception it can raise is a TypeError. |
| Redraw.Redrawn | index.js:332-337 | Selects only active layers that exist and need a redraw. |
| Redraw.FrameFailsOnlyOnFailingPass | index.js:332-337 | A frame throws exactly when some pass would: a null layer, or a draw that throws. |
| Redraw.FrameDrawsExactlyRedrawn | index.js:332-337 | A frame that does not throw uploads, in order, exactly what drawing each flagged layer uploads. |
| Redraw.FrameOnlyTouchesRedrawn | index.js:332-337 | Whatever happens, every upload goes to a layer the browser flagged. |
| Viewer.Register | index.js:148-209 | Adds at most the source's own name and changes no other entry. A stereo half fills only its own slot of an existing entry. The first half creates a stereo cube with the other slot null. The other kinds replace the entry, and unknown kinds change nothing. |
| Viewer.Load | index.js:136-218 | No extension means no change. The callback throws exactly when the format evaluation throws, with the same error, and then nothing is registered. Otherwise the entry is registered with the evaluated format. |
| Viewer.StereoHalvesMerge | index.js:150-178 | The two halves of a stereo cube merge into one entry holding both textures, in either arrival order. The entry keeps the format of the first arrival. |
| Viewer.SrgbNeverRegistered | index.js:118 | With an extension, a code-1023 texture always ends the callback with a ReferenceError. |
| Viewer.ViewerPage.constructor | index.js:21-22 | Empty registries (`layers`, `activeLayers`), empty texture arrays and no `activeWebXRLayer` (index.js:108-110), the projection layer alone on the stack, empty caches and an empty upload log. |
| Viewer.ViewerPage.OnReferenceSpace | index.js:320-323 | Sets the binding and the space. |
| Viewer.ViewerPage.OnTextureLoaded | index.js:136-218 | The registry's views become `Load`'s result, or stay the same on a throw. Existing wrappers keep their identity except the one a whole-entry source replaces. New wrappers are fresh. |
| Viewer.ViewerPage.RegisterStereoHalf | index.js:150-178 | The views become `Register`'s result, and every existing wrapper keeps its identity. |
| Viewer.ViewerPage.RegisterWhole | index.js:179-209 | The views become `Register`'s result with a fresh wrapper under the name, and the other wrappers keep their identity. |
| Viewer.ViewerPage.CreateLayer | index.js:481-484 | An unknown name throws TypeError. Otherwise the named wrapper's layer follows `createLayer`, and every other view is unchanged. |
| Viewer.ViewerPage.SetLayer | index.js:492-509 | Missing name or layer: TypeError and the stack unchanged. Otherwise the stack becomes the layer beneath the previous last entry, and only slot 0 of `activeLayers` is overwritten with the entry. |
| Viewer.ViewerPage.ShowRegistered | index.js:161-207 | The button `createLayer(name); setLayer(name)` (index.js:481-509). An unknown name throws TypeError. Otherwise the caches are refreshed, and the button returns exactly when the entry's request succeeds. Then the entry's layer is the new composition layer with id `newId`, every other entry is unchanged, the stack is that layer beneath the previous last entry, and only slot 0 of `activeLayers` becomes the entry. On a throw the views, the stack and `activeLayers` are unchanged. |
| Viewer.ViewerPage.CreateAndShow | index.js:224-233 | The shared tail of the creation functions: the caches refreshed, the request from the wrapper's fields, and the new layer recorded and shown, or nothing shown on a throw. |
| Viewer.ViewerPage.CreateEquireLayer | index.js:221-236 | Evaluating the format can throw before any wrapper exists. Otherwise a stereo or mono equirect wrapper is created and shown. |
| Viewer.ViewerPage.CreateCubeLayer | index.js:252-273 | Same as above, for a cube wrapper of one or two textures. |
| Viewer.ViewerPage.CreateEqrtLayerByIndex | index.js:238-248 | An index past the end returns null and changes nothing. A negative index reads an undefined texture and throws TypeError, changing nothing. Otherwise the element is created and shown with the evaluated format. |
| Viewer.ViewerPage.CreateCubeLayerByIndex | index.js:276-285 | Same as above, for a mono cube from the cube texture array. |
| Viewer.ViewerPage.CreateCubeLayerByIndexStereo | index.js:288-303 | An index past the end, or two textures of different formats, return null and change nothing. A negative index throws TypeError. Otherwise a stereo cube of the two textures is created and shown. |
| Viewer.ViewerPage.OnQuadImageLoaded | index.js:658-671 | A quad wrapper is registered under the URL and activated, and its request follows `createQuadLayer` through the caches. |
| Viewer.ViewerPage.Animate | index.js:310-337 | The media layer is requested once a session exists whose render state has a `layers` member (index.js:315). The upload log grows by exactly the frame's uploads, and the outcome is the frame's exception. |
| Viewer.ViewerPage.RedrawActive | index.js:332-337 | The loop issues exactly `Frame` of the active layers' views and throws exactly when `Frame` does. |
| Switcher.MakeLayerRequest | indext.js:164-173 | Throws TypeError exactly without a binding or space, or on hd-test-index.js without the ASTC extension. Otherwise a static stereo-top-bottom equirect: 7168 wide with half of 7168 per eye in RGBA (indext.js), or 4096×4096 ASTC (hd-test-index.js:198-207). |
| Switcher.UploadDue | indext.js:494 | The guard of the upload (also hd-test-index.js:402): it holds exactly when a session exists and `layer` is a composition layer the browser flagged. The projection layer is never flagged. |
| Switcher.FrameUpload | indext.js:494-524 | Nothing happens unless a session exists and the layer is flagged. Exactly the missing binding (and, on hd-test-index.js:402-455, the missing extension or `data`) throws, uploading nothing. Otherwise exactly one upload into the layer: a framebuffer copy or the `data` ASTC image. |
| Switcher.UploadFillsMadeLayer | indext.js:514 | The upload fills the made layer's whole top-bottom texture: one view wide, two views high, in the requested format. |
| Switcher.TestLoad | indext.js:349-365 | Throws exactly on a texture without mip levels or a format evaluation that throws. Returns early exactly without an extension. Otherwise proceeds with the evaluated format. |
| Switcher.TestLoadNeverReferenceError | indext.js:326-333 | The test pages' table never makes the callback throw ReferenceError: code 1023 proceeds as RGBA. |
| Switcher.SwitcherPage.constructor | indext.js:19-24 | The test page's globals (also indext.js:69-70, 86 and 156): empty `layers`, `layersToDraw`, `layersOBJ` and catalogues, no binding, space, `layer` or `data`, the projection layer alone on the stack, empty caches and an empty upload log. |
| Switcher.SwitcherPage.OnReferenceSpace | indext.js:483-490 | Sets the binding and the space. |
| Switcher.SwitcherPage.MakeLayer | indext.js:160-186 | On success `layer` is the requested stereo equirect with radius 40, shown beneath the stack's last entry. On a throw nothing changes. |
| Switcher.SwitcherPage.OnTextureLoaded | indext.js:368-378 | indext.js catalogues a fresh mono equirect wrapper under the name. hd-test-index.js:332-341 keeps mip 0's data. Other entries are untouched. |
| Switcher.SwitcherPage.CreateEquirectangularLayer | indext.js:718-723 | An unknown name throws TypeError. Otherwise the catalogued wrapper's layer follows `createLayer`, and its other fields (texture, stereo flag, format, radius) stay as they were. On success it is appended to `layers` and `layersToDraw` and entered in `layersOBJ`. |
| Switcher.SwitcherPage.SelectActiveLayerByName | indext.js:731-742 | An unregistered name throws TypeError with the stack unchanged. Otherwise the stack is its layer beneath the previous last entry. |
| Switcher.SwitcherPage.RenderByIndex | indext.js:679-686 | An index out of range throws TypeError with the stack unchanged. Otherwise the stack is that wrapper's layer beneath the previous last entry. |
| Switcher.SwitcherPage.Animate | indext.js:479-492 | The media layer is requested once a session exists whose render state has a `layers` member (indext.js:479, hd-test-index.js:387). The log grows by exactly `FrameUpload`'s uploads, and the outcome is its exception. |

## Left out

- **Three.js and UI.** The scene, camera, controls, controllers, buttons and their offsets, the HTML overlay and window resizing are presentation only.
- **Floating-point values.** Layer angles, poses and transforms are floating point and are not modelled.
  - The geometry of a layer is only its `radius` or quad size.
- **Raw GL plumbing.**
  - `Framebuffer`, `attachToBuffer`, `initialize`, `initializeCompressed`, `makeTexture`, `makeBox` and `checkGLError` create GL objects whose pixels are not modelled.
  - The framebuffer copy of indext.js is an abstract upload event.
  - GL errors, such as an incomplete framebuffer or a wrong size, are reported through `gl.getError` and never throw, so they do not appear.
- **The page state.** Every page method requires the page's `Valid()` invariant and preserves it. `Valid()` is a model invariant, not a check in the source.
- **Unused or write-only state.**
  - The `needsRedraw` globals are written but never read.
  - The arrays `compressed360Textures` and `compressedCubeTextures` of index.js are never filled by the source. The by-index creators are modelled over them as they stand.
  - The inner `drawEquirectangular` of the test pages' `animate` is never called.
  - The chunked-upload globals (`uploadInProgress`, `currentChunk`, …) are never used on the modelled paths.
- **Viewer.ViewerPage destroyLayer.** `destroyLayer` (index.js:486-490) always throws before it changes anything (it calls a method the layer object does not have). It is not a member of the model.
- **Getters.** `getASTC` / `getETC` are imported by main.js (main.js:10) but are never exported by index.js, so module loading would fail. The model keeps only `getGLBinding` and `getXRSpace`.
  - main.js imports these from index.js. On the test pages the wrappers therefore fetch index.js's exported binding and space, which the model passes in as `exportedBinding` / `exportedSpace`.
- **Layer identity.** Every created layer carries the id the caller passes as `newId`. Ids are assumed fresh: the browser's layers are distinct objects, but the model does not require a new id to differ from the ids in use. `needsRedraw` and the layer stack compare layers by id.
- **Object keys.** `name in layers` / `layersOBJ[name]` also match inherited `Object.prototype` names such as `"toString"`. The model treats the registries as plain maps.
- **The session.** The XR session is assumed present wherever the source uses it without a test. `animate` takes its presence, and whether its render state has a `layers` member, as parameters. `getSubImage` on an ended or wrong frame is not modelled.
- **Layer factory and render state.** `XRWebGLBinding.create…Layer` and `updateRenderState` are modelled as never throwing. The `NotSupportedError` of a session without the layers feature, the `InvalidStateError` of an ended session and the `TypeError` for a layer listed twice in `layers` are not modelled.
- **indext.js `TextureLoader` callback (indext.js:90-118).** It reads canvas pixels into `data` and `rgba`. Canvas access is I/O, so `data` on indext.js is left to that callback and not modelled.
- **Source lists and loaders.** The `sources` lists, `ktx2Loader.load` and the image loads are I/O. Their completions are the model's entry points (`OnTextureLoaded`, `OnQuadImageLoaded`).
- **Default arguments.** `createEquirectangularLayer`'s defaults (a fixed cube map name and `cubeLayers`) are not modelled. Callers pass both arguments.
- **Redraw.DrawEquirect** does not model the stereo branch, which only logs.
- **TextureSlices.ExtractBottomHalfTexture** takes the block size as a natural number. A non-integer block size, which the source never passes, is not modelled.

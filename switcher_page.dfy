/** The two test pages, indext.js and hd-test-index.js. Both keep a catalogue
    of wrappers per source type, a `layers` / `layersToDraw` / `layersOBJ`
    registry of the wrappers whose layer was created, a single hand-made
    stereo equirect `layer`, and switch the session's stack between them.
    `TestPage` selects where the two files differ: the layer `makeLayer`
    requests, what the KTX2 load callback does with an equirectangular
    texture, and the upload `animate` issues for `layer`. */
module Switcher {
  import opened Common
  import opened Platform
  import opened Formats
  import opened LayerWrappers
  import opened RenderState
  import opened Redraw

  /** Which of the two files a page object stands for. */
  datatype TestPage = IndexT | HdTest

  /** `eqrtRadius` (indext.js:20, hd-test-index.js:20), also the `radius`
      `makeLayer` gives its layer. */
  const EQRT_RADIUS: int := 40

  /** The globals `width` and `height` of indext.js (indext.js:157-158): the
      side of the square texture behind the stereo layer. */
  const SIDE: nat := 7168

  /** JavaScript truthiness of a string: only the empty string is falsy,
      so the `isStatic: "false"` of hd-test-index.js converts to true. */
  function StringTruthy(s: string): bool {
    s != ""
  }

  /** What `makeLayer` passes to `glBinding.createEquirectLayer`
      (indext.js:164-173, hd-test-index.js:198-207). Calling through an
      unset binding, reading the ASTC constant of a missing extension and an
      unset `space` all throw TypeError. */
  function MakeLayerRequest(page: TestPage, binding: Option<Binding>, space: Option<Space>, ext: Extensions)
    : (r: Result<LayerInit>)
    ensures r.Err? <==> binding.None? || space.None? || (page.HdTest? && !ext.astc)
    ensures r.Err? ==> r.error == TypeError
    ensures r.Ok? ==>
              r.value.kind == EquirectKind && r.value.space == space.value
              && r.value.layout == "stereo-top-bottom" && r.value.isStatic
    // indext.js: each eye is one half of the SIDE x SIDE texture, in RGBA
    ensures r.Ok? && page.IndexT? ==>
              r.value.viewPixelWidth == SIDE && 2 * r.value.viewPixelHeight == SIDE && r.value.colorFormat == RGBA
    // hd-test-index.js: 4096 x 4096 per eye, ASTC 4x4 compressed
    ensures r.Ok? && page.HdTest? ==>
              r.value.viewPixelWidth == 4096 && r.value.viewPixelHeight == 4096
              && r.value.colorFormat == COMPRESSED_SRGB8_ALPHA8_ASTC_4x4
  {
    if binding.None? then Err(TypeError)
    else if page.HdTest? && !ext.astc then Err(TypeError)
    else if space.None? then Err(TypeError)
    else if page.IndexT? then
      Ok(LayerInit(EquirectKind, space.value, 7168, 7168 / 2, "stereo-top-bottom", RGBA, StringTruthy("true")))
    else
      Ok(LayerInit(EquirectKind, space.value, 4096, 4096, "stereo-top-bottom", COMPRESSED_SRGB8_ALPHA8_ASTC_4x4,
                   StringTruthy("false")))
  }

  /** Whether the upload of `animate` runs: a session, a `layer`, and that
      layer flagged by the browser as needing a redraw (indext.js:494,
      hd-test-index.js:402). */
  predicate UploadDue(sessionPresent: bool, layer: Option<XRLayer>, needs: set<nat>): (r: bool)
    // without a session or a layer nothing is due, and the projection layer is never flagged
    ensures r ==> sessionPresent && layer.Some? && layer.value.CompositionLayer? && layer.value.id in needs
    ensures sessionPresent && layer.Some? && layer.value.CompositionLayer? && layer.value.id in needs ==> r
  {
    sessionPresent && layer.Some? && NeedsRedraw(layer.value, needs)
  }

  /** The guarded upload of `animate` into `layer`'s sub-image: indext.js
      copies the SIDE x SIDE framebuffer (indext.js:494-524); hd-test-index.js
      uploads `data` as one 4096 x 8192 ASTC image (hd-test-index.js:402-455).
      `getSubImage` through an unset binding, the ASTC constant of a missing
      extension and an undefined `data` throw TypeError before anything is
      uploaded. */
  function FrameUpload(page: TestPage, sessionPresent: bool, layer: Option<XRLayer>, needs: set<nat>,
                       binding: Option<Binding>, ext: Extensions, data: Option<DataRef>): (r: Batch)
    // nothing happens unless the guard holds
    ensures !UploadDue(sessionPresent, layer, needs) ==> r == Batch([], None)
    // the failing cases, and a failure uploads nothing
    ensures r.error.Some? <==>
              UploadDue(sessionPresent, layer, needs)
              && (binding.None? || (page.HdTest? && (!ext.astc || data.None?)))
    ensures r.error.Some? ==> r.error.value == TypeError && r.uploads == []
    // otherwise exactly one upload, into this layer's texture
    ensures UploadDue(sessionPresent, layer, needs) && r.error.None? ==>
              |r.uploads| == 1 && r.uploads[0].layerId == layer.value.id
              && r.uploads[0].eye == DefaultEye && r.uploads[0].target == TEXTURE_2D
    ensures page.IndexT? ==> forall u :: u in r.uploads ==> u.FramebufferCopy?
    ensures page.HdTest? ==> forall u :: u in r.uploads ==> u.CompressedUpload? && u.data == data.value
  {
    if !UploadDue(sessionPresent, layer, needs) then Batch([], None)
    else if binding.None? then Batch([], Some(TypeError))
    else if page.IndexT? then
      Batch([FramebufferCopy(layer.value.id, DefaultEye, TEXTURE_2D, SIDE, SIDE)], None)
    else if !ext.astc || data.None? then Batch([], Some(TypeError))
    else
      Batch([CompressedUpload(layer.value.id, DefaultEye, TEXTURE_2D, 4096, 8192,
                              Some(COMPRESSED_SRGB8_ALPHA8_ASTC_4x4), data.value)], None)
  }

  /** On both pages the upload into the layer `makeLayer` made fills its
      whole stereo-top-bottom texture: one view wide, two views high, and on
      hd-test-index.js in the format the layer was requested with. */
  lemma UploadFillsMadeLayer(page: TestPage, sessionPresent: bool, needs: set<nat>, id: nat,
                             binding: Option<Binding>, space: Option<Space>, ext: Extensions, data: Option<DataRef>)
    requires MakeLayerRequest(page, binding, space, ext).Ok?
    ensures var init := MakeLayerRequest(page, binding, space, ext).value;
            var layer := CompositionLayer(id, init, Sphere(EQRT_RADIUS));
            var r := FrameUpload(page, sessionPresent, Some(layer), needs, binding, ext, data);
            r.uploads != [] ==>
              (r.uploads[0].FramebufferCopy? || r.uploads[0].CompressedUpload?)
              && r.uploads[0].width == init.viewPixelWidth
              && r.uploads[0].height == 2 * init.viewPixelHeight
              && (r.uploads[0].CompressedUpload? ==> r.uploads[0].format == Some(init.colorFormat))
  {
  }

  /** How far the test pages' KTX2 load callback gets before acting
      (indext.js:349-365, hd-test-index.js:313-328). */
  datatype LoadStep =
    | Failed(error: JsError)        // an exception ended the callback
    | Skipped                       // no compressed-texture extension: early return
    | Proceeds(format: Option<int>) // the evaluated format

  /** The callback logs `texture.mipmaps[0]`'s size first (a texture without
      mip levels makes that throw), returns without an extension, then
      evaluates the format through the test pages' table. */
  function TestLoad(ext: Extensions, texture: Texture): (r: LoadStep)
    ensures r.Failed? <==>
              |texture.mipmaps| == 0 || ((ext.astc || ext.etc) && Resolve(TestPageTable, texture.format, ext).Err?)
    ensures r.Failed? ==> r.error == TypeError
    ensures r.Skipped? <==> |texture.mipmaps| > 0 && !ext.astc && !ext.etc
    ensures r.Proceeds? ==> r.format == Resolve(TestPageTable, texture.format, ext).value
  {
    if |texture.mipmaps| == 0 then Failed(TypeError)
    else if !ext.astc && !ext.etc then Skipped
    else
      var format := Resolve(TestPageTable, texture.format, ext);
      if format.Err? then Failed(format.error) else Proceeds(format.value)
  }

  /** Unlike the viewer page's table, the test pages' table never makes the
      load callback throw a ReferenceError: its code 1023 entry is RGBA. */
  lemma {:induction false} TestLoadNeverReferenceError(ext: Extensions, texture: Texture)
    ensures TestLoad(ext, texture) != Failed(ReferenceError)
    ensures |texture.mipmaps| > 0 && texture.format == 1023 && (ext.astc || ext.etc) ==>
              TestLoad(ext, texture) == Proceeds(Some(RGBA))
  {
    if |texture.mipmaps| > 0 && (ext.astc || ext.etc) {
      assert Resolve(TestPageTable, texture.format, ext) != Err(ReferenceError);
    }
  }

  /** The module state of indext.js / hd-test-index.js (and the main.js
      caches every page shares). */
  class SwitcherPage {
    const page: TestPage
    const ext: Extensions
    const cache: BindingCache
    const gl: GLContext
    var glBinding: Option<Binding>
    var xrSpace: Option<Space>
    var layer: Option<XRLayer>          // the global `layer` of `makeLayer`
    var layers: seq<LayerWrapper>
    var layersToDraw: seq<LayerWrapper>
    var layersOBJ: map<string, LayerWrapper>
    var equirectangularLayers: map<string, LayerWrapper>
    var cubeLayers: map<string, LayerWrapper>
    var data: Option<DataRef>           // undefined until a texture provides it
    var renderStack: seq<XRLayer>       // xrSession.renderState.layers
    var mediaLayerRequested: bool       // session.hasMediaLayer

    /** The registry keeps `layersToDraw` equal to `layers`, holds only
        wrappers whose layer exists, and every `layersOBJ` entry is one of
        them; the session stack is never empty. */
    predicate Valid()
      reads this, layers
    {
      |renderStack| > 0
      && layersToDraw == layers
      && (forall i :: 0 <= i < |layers| ==> layers[i].layer.Some?)
      && (forall n :: n in layersOBJ ==> layersOBJ[n] in layers)
      && (forall n :: n in equirectangularLayers ==> equirectangularLayers[n].Valid())
      && (forall n :: n in cubeLayers ==> cubeLayers[n].Valid())
    }

    /** Page start-up, with the renderer's projection layer as the session's
        only layer. */
    constructor(page: TestPage, ext: Extensions)
      ensures Valid() && fresh(cache) && fresh(gl)
      ensures this.page == page && this.ext == ext
      ensures layers == [] && layersToDraw == [] && layersOBJ == map[]
      ensures equirectangularLayers == map[] && cubeLayers == map[]
      ensures glBinding == None && xrSpace == None && layer == None && data == None
      ensures cache.glBinding == None && cache.xrSpace == None && gl.issued == []
      ensures renderStack == [ProjectionLayer] && !mediaLayerRequested
    {
      this.page := page;
      this.ext := ext;
      cache := new BindingCache();
      gl := new GLContext();
      glBinding := None;
      xrSpace := None;
      layer := None;
      layers := [];
      layersToDraw := [];
      layersOBJ := map[];
      equirectangularLayers := map[];
      cubeLayers := map[];
      data := None;
      renderStack := [ProjectionLayer];
      mediaLayerRequested := false;
    }

    /** The reference-space promise of `animate` resolving
        (indext.js:483-490, hd-test-index.js:391-398). */
    method OnReferenceSpace(binding: Binding, space: Space)
      modifies this`glBinding, this`xrSpace
      ensures glBinding == Some(binding) && xrSpace == Some(space)
    {
      glBinding := Some(binding);
      xrSpace := Some(space);
    }

    /** `makeLayer()`: request the stereo equirect layer, keep it in the
        global `layer` and show it beneath the stack's last entry. */
    method MakeLayer(newId: nat) returns (outcome: Outcome)
      requires Valid()
      modifies this`layer, this`renderStack
      ensures Valid()
      ensures var request := MakeLayerRequest(page, glBinding, xrSpace, ext);
              (request.Err? ==> outcome == Threw(TypeError) && layer == old(layer) && renderStack == old(renderStack))
              && (request.Ok? ==>
                    outcome == Returned
                    && layer == Some(CompositionLayer(newId, request.value, Sphere(EQRT_RADIUS)))
                    && renderStack == ShowUnderLast(layer.value, old(renderStack)))
    {
      var request := MakeLayerRequest(page, glBinding, xrSpace, ext);
      if request.Err? {
        return Threw(request.error);
      }
      layer := Some(CompositionLayer(newId, request.value, Sphere(EQRT_RADIUS)));
      renderStack := ShowUnderLast(layer.value, renderStack);
      return Returned;
    }

    /** The KTX2 load callback of `createCompressedTextureLayer(image)`: only
        an equirectangular source has an effect. indext.js catalogues a new
        mono equirect wrapper under the source's name (indext.js:368-378);
        hd-test-index.js keeps mip level 0's data for `animate`
        (hd-test-index.js:332-341). */
    method OnTextureLoaded(name: string, kind: string, texture: Texture) returns (outcome: Outcome)
      requires Valid()
      modifies this`equirectangularLayers, this`data
      ensures Valid()
      ensures var step := TestLoad(ext, texture);
              (step.Failed? ==> outcome == Threw(step.error))
              && (!step.Failed? ==> outcome == Returned)
              // what an equirectangular source does, per page
              && (step.Proceeds? && kind == "equirectangular" && page.IndexT? ==>
                    equirectangularLayers.Keys == old(equirectangularLayers).Keys + {name}
                    && fresh(equirectangularLayers[name])
                    && equirectangularLayers[name].View()
                         == LayerView(EQUIRECT_TAG, None, None, None, Some(texture), None, Some(false),
                                      step.format, Some(EQRT_RADIUS)))
              && (step.Proceeds? && kind == "equirectangular" && page.HdTest? ==>
                    data == Some(texture.mipmaps[0].data))
              // everything else is left as it was
              && (!(step.Proceeds? && kind == "equirectangular" && page.IndexT?) ==>
                    equirectangularLayers == old(equirectangularLayers))
              && (!(step.Proceeds? && kind == "equirectangular" && page.HdTest?) ==> data == old(data))
      ensures forall n :: n in old(equirectangularLayers) && n != name ==>
                n in equirectangularLayers && equirectangularLayers[n] == old(equirectangularLayers)[n]
    {
      var step := TestLoad(ext, texture);
      if step.Failed? {
        return Threw(step.error);
      }
      if step.Skipped? {
        return Returned;
      }
      if kind == "equirectangular" {
        if page.IndexT? {
          var w := new LayerWrapper.Equirect(None, Some(texture), false, step.format, EQRT_RADIUS);
          equirectangularLayers := equirectangularLayers[name := w];
        } else {
          data := Some(texture.mipmaps[0].data);
        }
      }
      return Returned;
    }

    /** The catalogue `createEquirectangularLayer` takes its wrapper from:
        its `imagetype` argument is `cubeLayers` or `equirectangularLayers`. */
    function Catalogue(fromCubes: bool): map<string, LayerWrapper>
      reads this
    {
      if fromCubes then cubeLayers else equirectangularLayers
    }

    /** `createEquirectangularLayer(imagename, imagetype)` (indext.js:718-723,
        hd-test-index.js:519-524): create the catalogued wrapper's layer
        through the main.js caches, which the call refreshes from the
        binding and space that module imports, then append the wrapper to
        `layersToDraw` and `layers` and register it under its name. A name
        missing from the catalogue and a failing request throw before any
        registration. */
    method CreateEquirectangularLayer(name: string, fromCubes: bool, exportedBinding: Option<Binding>,
                                      exportedSpace: Option<Space>, newId: nat)
      returns (outcome: Outcome)
      requires Valid()
      modifies cache, this`layers, this`layersToDraw, this`layersOBJ,
               (if name in Catalogue(fromCubes) then {Catalogue(fromCubes)[name]} else {})
      ensures Valid()
      ensures name !in Catalogue(fromCubes) ==>
                outcome == Threw(TypeError) && unchanged(cache)
                && layers == old(layers) && layersOBJ == old(layersOBJ)
      ensures name in Catalogue(fromCubes) ==>
                var w := Catalogue(fromCubes)[name];
                var request := RequestOf(old(w.View()), cache.glBinding, cache.xrSpace);
                cache.glBinding == KeepFirst(old(cache.glBinding), exportedBinding)
                && cache.xrSpace == KeepFirst(old(cache.xrSpace), exportedSpace)
                && (request.Err? ==>
                      outcome == Threw(TypeError) && w.layer == old(w.layer)
                      && layers == old(layers) && layersOBJ == old(layersOBJ))
                && (request.Ok? ==>
                      outcome == Returned
                      && w.layer == Some(CompositionLayer(newId, request.value, GeometryOf(old(w.View()))))
                      && layers == old(layers) + [w] && layersOBJ == old(layersOBJ)[name := w])
      // the wrapper's texture, stereo flag, format and radius are untouched
      ensures name in Catalogue(fromCubes) ==>
                Catalogue(fromCubes)[name].View()
                  == old(Catalogue(fromCubes)[name].View()).(layer := Catalogue(fromCubes)[name].layer)
      ensures Catalogue(fromCubes) == old(Catalogue(fromCubes))
    {
      var catalogue := if fromCubes then cubeLayers else equirectangularLayers;
      if name !in catalogue {
        return Threw(TypeError);
      }
      var w := catalogue[name];
      outcome := w.CreateLayer(cache, exportedBinding, exportedSpace, newId);
      if outcome != Returned {
        return;
      }
      layersToDraw := layersToDraw + [w];
      layers := layers + [w];
      layersOBJ := layersOBJ[name := w];
    }

    /** `selectActiveLayerByName(name)` (indext.js:731-742,
        hd-test-index.js:532-543): show the registered wrapper's layer
        beneath the stack's last entry; an unregistered name throws. */
    method SelectActiveLayerByName(name: string) returns (outcome: Outcome)
      requires Valid()
      modifies this`renderStack
      ensures Valid()
      ensures name !in layersOBJ ==> outcome == Threw(TypeError) && renderStack == old(renderStack)
      ensures name in layersOBJ ==>
                outcome == Returned && layersOBJ[name].layer.Some?
                && renderStack == ShowUnderLast(layersOBJ[name].layer.value, old(renderStack))
    {
      if name !in layersOBJ {
        return Threw(TypeError);
      }
      var w := layersOBJ[name];
      renderStack := ShowUnderLast(w.layer.value, renderStack);
      return Returned;
    }

    /** `renderByIndex(index)` (indext.js:679-686, hd-test-index.js:483-490):
        show the layer of `layers[index]`; an index outside the array reads
        `undefined.layer` and throws. */
    method RenderByIndex(index: int) returns (outcome: Outcome)
      requires Valid()
      modifies this`renderStack
      ensures Valid()
      ensures !(0 <= index < |layers|) ==> outcome == Threw(TypeError) && renderStack == old(renderStack)
      ensures 0 <= index < |layers| ==>
                outcome == Returned && layers[index].layer.Some?
                && renderStack == ShowUnderLast(layers[index].layer.value, old(renderStack))
    {
      if !(0 <= index < |layers|) {
        return Threw(TypeError);
      }
      renderStack := ShowUnderLast(layers[index].layer.value, renderStack);
      return Returned;
    }

    /** One call of `animate`: request the media layer once per session
        whose render state has a `layers` member, `layersSupported`
        (indext.js:479-492, hd-test-index.js:387-400), then the guarded
        upload into `layer`. */
    method Animate(sessionPresent: bool, layersSupported: bool, needs: set<nat>) returns (outcome: Outcome)
      requires Valid()
      modifies this`mediaLayerRequested, gl
      ensures Valid()
      ensures mediaLayerRequested == (old(mediaLayerRequested) || (sessionPresent && layersSupported))
      ensures var batch := FrameUpload(page, sessionPresent, layer, needs, glBinding, ext, data);
              gl.issued == old(gl.issued) + batch.uploads
              && outcome == (if batch.error.Some? then Threw(batch.error.value) else Returned)
    {
      if sessionPresent && layersSupported && !mediaLayerRequested {
        mediaLayerRequested := true;
      }
      var batch := FrameUpload(page, sessionPresent, layer, needs, glBinding, ext, data);
      gl.issued := gl.issued + batch.uploads;
      outcome := if batch.error.Some? then Threw(batch.error.value) else Returned;
    }
  }
}

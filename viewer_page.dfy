/** The viewer page, index.js: the `layers` registry filled by the KTX2 load
    callback, the `activeLayers` array the frame loop draws, the guarded
    creation functions, and the session's layer stack. */
module Viewer {
  import opened Common
  import opened Platform
  import opened Formats
  import opened LayerWrappers
  import opened RenderState
  import opened Redraw

  /** `eqrtRadius` (index.js:16). */
  const EQRT_RADIUS: int := 40

  /** One entry of the `sources` list; an absent `leftSide` is false. */
  datatype Source = Source(name: string, url: string, kind: string, leftSide: bool)

  /** The fields of a freshly constructed `WebXRCubeLayer`. */
  function CubeView(left: Option<Texture>, right: Option<Texture>, stereo: bool, format: Option<int>): LayerView {
    LayerView(CUBE_TAG, None, left, right, None, None, Some(stereo), format, None)
  }

  /** The fields of a freshly constructed `WebXREquirectangularLayer` of the viewer. */
  function EquirectView(texture: Texture, stereo: bool, format: Option<int>): LayerView {
    LayerView(EQUIRECT_TAG, None, None, None, Some(texture), None, Some(stereo), format, Some(EQRT_RADIUS))
  }

  /** The source types the load callback registers. */
  predicate Registers(kind: string) {
    kind == "stereoCubeMap" || kind == "cubeMap" || kind == "equirectangular" || kind == "stereoEquirectangular"
  }

  /** The registry, as values, after the load callback of `s` got past its
      guards with format `format` (index.js:148-209). */
  function Register(reg: map<string, LayerView>, s: Source, texture: Texture, format: Option<int>)
    : (r: map<string, LayerView>)
    // at most the source's own name is added, and no other entry changes
    ensures r.Keys == reg.Keys + (if Registers(s.kind) then {s.name} else {})
    ensures forall n :: n in reg && n != s.name ==> r[n] == reg[n]
    // a stereo half for a registered name fills only its own slot of that entry
    ensures s.kind == "stereoCubeMap" && s.name in reg && s.leftSide ==>
              r[s.name] == reg[s.name].(cubeTexture := Some(texture))
    ensures s.kind == "stereoCubeMap" && s.name in reg && !s.leftSide ==>
              r[s.name] == reg[s.name].(cubeTextureRight := Some(texture))
    // the first stereo half creates a stereo cube entry, the other slot null
    ensures s.kind == "stereoCubeMap" && s.name !in reg ==>
              r[s.name] == CubeView(if s.leftSide then Some(texture) else None,
                                    if s.leftSide then None else Some(texture), true, format)
    // the other kinds replace whatever the name held
    ensures s.kind == "cubeMap" ==> r[s.name] == CubeView(Some(texture), None, false, format)
    ensures s.kind == "equirectangular" ==> r[s.name] == EquirectView(texture, false, format)
    ensures s.kind == "stereoEquirectangular" ==> r[s.name] == EquirectView(texture, true, format)
    ensures !Registers(s.kind) ==> r == reg
  {
    if s.kind == "stereoCubeMap" then
      if s.name in reg then
        if s.leftSide then reg[s.name := reg[s.name].(cubeTexture := Some(texture))]
        else reg[s.name := reg[s.name].(cubeTextureRight := Some(texture))]
      else if s.leftSide then reg[s.name := CubeView(Some(texture), None, true, format)]
      else reg[s.name := CubeView(None, Some(texture), true, format)]
    else if s.kind == "cubeMap" then reg[s.name := CubeView(Some(texture), None, false, format)]
    else if s.kind == "equirectangular" then reg[s.name := EquirectView(texture, false, format)]
    else if s.kind == "stereoEquirectangular" then reg[s.name := EquirectView(texture, true, format)]
    else reg
  }

  /** The whole load callback (index.js:136-218): nothing happens without a
      compressed-texture extension; evaluating the format can throw, and then
      nothing is registered. */
  function Load(reg: map<string, LayerView>, ext: Extensions, s: Source, texture: Texture)
    : (r: Result<map<string, LayerView>>)
    ensures !ext.astc && !ext.etc ==> r == Ok(reg)
    ensures r.Err? <==> (ext.astc || ext.etc) && Resolve(ViewerTable, texture.format, ext).Err?
    ensures r.Err? ==> r.error == Resolve(ViewerTable, texture.format, ext).error
    ensures r.Ok? && (ext.astc || ext.etc) ==> r.value == Register(reg, s, texture, Resolve(ViewerTable, texture.format, ext).value)
  {
    if !ext.astc && !ext.etc then Ok(reg)
    else
      var format := Resolve(ViewerTable, texture.format, ext);
      if format.Err? then Err(format.error) else Ok(Register(reg, s, texture, format.value))
  }

  /** The two halves of a stereo cube map merge into one stereo entry
      holding both textures, whichever arrives first; the entry keeps the
      format of the first arrival. */
  lemma StereoHalvesMerge(reg: map<string, LayerView>, name: string, leftUrl: string, rightUrl: string,
                          left: Texture, right: Texture, leftFormat: Option<int>, rightFormat: Option<int>)
    requires name !in reg
    ensures
      var l := Source(name, leftUrl, "stereoCubeMap", true);
      var r := Source(name, rightUrl, "stereoCubeMap", false);
      Register(Register(reg, l, left, leftFormat), r, right, rightFormat)
        == reg[name := CubeView(Some(left), Some(right), true, leftFormat)]
      && Register(Register(reg, r, right, rightFormat), l, left, leftFormat)
        == reg[name := CubeView(Some(left), Some(right), true, rightFormat)]
  {
  }

  /** A file reaches the registry only with a compressed-texture extension
      and a format the page can evaluate: an sRGB (code 1023) texture never
      does, since its table entry names an undefined identifier. */
  lemma {:induction false} SrgbNeverRegistered(reg: map<string, LayerView>, ext: Extensions, s: Source, texture: Texture)
    requires texture.format == 1023 && (ext.astc || ext.etc)
    ensures Load(reg, ext, s, texture) == Err(ReferenceError)
  {
    assert Resolve(ViewerTable, 1023, ext) == Err(ReferenceError);
  }

  /** The wrappers of a registry, as values. */
  function Views(m: map<string, LayerWrapper>): (r: map<string, LayerView>)
    reads m.Values
  {
    map n | n in m :: m[n].View()
  }

  /** The wrappers of `activeLayers`, as values, in array order. */
  function ActiveViews(ws: seq<LayerWrapper>): (r: seq<LayerView>)
    reads set w | w in ws
    ensures |r| == |ws| && forall i :: 0 <= i < |ws| ==> r[i] == ws[i].View()
  {
    if ws == [] then [] else [ws[0].View()] + ActiveViews(ws[1..])
  }

  lemma {:induction false} FrameStopsAtError(views: seq<LayerView>, k: nat, needs: set<nat>, binding: Option<Binding>)
    requires k <= |views| && Frame(views[..k], needs, binding).error.Some?
    ensures Frame(views, needs, binding) == Frame(views[..k], needs, binding)
    decreases |views| - k
  {
    if k < |views| {
      assert views[..k + 1][..k] == views[..k];
      FrameStopsAtError(views, k + 1, needs, binding);
    } else {
      assert views[..k] == views;
    }
  }

  /** A pass appends its uploads to whatever the earlier passes issued. */
  lemma VisitAfter(before: Batch, v: LayerView, needs: set<nat>, binding: Option<Binding>)
    requires before.error.None?
    ensures var alone := Visit(Batch([], None), v, needs, binding);
            Visit(before, v, needs, binding) == Batch(before.uploads + alone.uploads, alone.error)
  {
    if v.layer.Some? && NeedsRedraw(v.layer.value, needs) {
      var drawn := DrawLayer(v, binding);
      assert [] + drawn.uploads == drawn.uploads;
    } else if v.layer.Some? {
      assert before.uploads + [] == before.uploads;
    }
  }

  /** The frame over one more view is the earlier frame followed by that
      view's pass; so a log holding `base` and the earlier frame's uploads
      holds `base` and the longer frame's uploads once that pass's uploads
      are appended. */
  lemma FrameExtends(views: seq<LayerView>, i: nat, needs: set<nat>, binding: Option<Binding>, base: seq<Upload>)
    requires i < |views| && Frame(views[..i], needs, binding).error.None?
    ensures var alone := Visit(Batch([], None), views[i], needs, binding);
            Frame(views[..i + 1], needs, binding)
              == Batch(Frame(views[..i], needs, binding).uploads + alone.uploads, alone.error)
    ensures var alone := Visit(Batch([], None), views[i], needs, binding);
            base + Frame(views[..i + 1], needs, binding).uploads
              == (base + Frame(views[..i], needs, binding).uploads) + alone.uploads
  {
    assert views[..i + 1][..i] == views[..i];
    VisitAfter(Frame(views[..i], needs, binding), views[i], needs, binding);
  }

  /** The module state of index.js (and the main.js caches it shares). */
  class ViewerPage {
    const ext: Extensions
    const cache: BindingCache
    const gl: GLContext
    var glBinding: Option<Binding>
    var xrSpace: Option<Space>
    var layers: map<string, LayerWrapper>
    var activeLayers: seq<LayerWrapper>
    var compressed360Textures: seq<Texture>
    var compressedCubeTextures: seq<Texture>
    var activeWebXRLayer: Option<LayerWrapper>
    var renderStack: seq<XRLayer>   // xrSession.renderState.layers
    var mediaLayerRequested: bool   // session.hasMediaLayer
    /** The name each registered wrapper was registered under. */
    ghost var owner: map<LayerWrapper, string>

    /** The session stack is never empty, and distinct names hold distinct
        wrapper objects (each registration constructs a new one). */
    ghost predicate Valid()
      reads this
    {
      |renderStack| > 0
      && (forall n :: n in layers ==> layers[n] in owner && owner[layers[n]] == n)
      && (forall n :: n in layers ==> layers[n].Valid())
      && (forall i :: 0 <= i < |activeLayers| ==> activeLayers[i].Valid())
    }

    /** Page start-up, with the renderer's projection layer as the session's
        only layer. */
    constructor(ext: Extensions)
      ensures Valid() && fresh(cache) && fresh(gl)
      ensures this.ext == ext && layers == map[] && activeLayers == [] && activeWebXRLayer == None
      ensures compressed360Textures == [] && compressedCubeTextures == []
      ensures glBinding == None && xrSpace == None && cache.glBinding == None && cache.xrSpace == None
      ensures renderStack == [ProjectionLayer] && !mediaLayerRequested && gl.issued == []
    {
      this.ext := ext;
      cache := new BindingCache();
      glBinding := None;
      xrSpace := None;
      layers := map[];
      owner := map[];
      activeLayers := [];
      compressed360Textures := [];
      compressedCubeTextures := [];
      activeWebXRLayer := None;
      renderStack := [ProjectionLayer];
      mediaLayerRequested := false;
      gl := new GLContext();
    }

    /** The reference-space promise of `animate` resolving (index.js:320-323). */
    method OnReferenceSpace(binding: Binding, space: Space)
      modifies this`glBinding, this`xrSpace
      ensures glBinding == Some(binding) && xrSpace == Some(space)
    {
      glBinding := Some(binding);
      xrSpace := Some(space);
    }

    /** The KTX2 load callback of `createCompressedTextureLayer(source)`. A
        stereo half for a registered name updates that very object, so an
        active layer sharing it sees the new texture. */
    method OnTextureLoaded(source: Source, texture: Texture) returns (outcome: Outcome)
      requires Valid()
      modifies this`layers, this`owner, (if source.name in layers then {layers[source.name]} else {})
      ensures Valid()
      ensures var loaded := Load(old(Views(layers)), ext, source, texture);
              (loaded.Err? ==> outcome == Threw(loaded.error) && layers == old(layers) && Views(layers) == old(Views(layers)))
              && (loaded.Ok? ==> outcome == Returned && Views(layers) == loaded.value)
      ensures forall n :: n in old(layers) && (n != source.name || source.kind == "stereoCubeMap") ==>
                n in layers && layers[n] == old(layers)[n]
      ensures forall n :: n in layers && n !in old(layers) ==> fresh(layers[n])
    {
      if !ext.astc && !ext.etc {
        return Returned;
      }
      var format := Resolve(ViewerTable, texture.format, ext);
      if format.Err? {
        return Threw(format.error);
      }
      RegisterLoaded(source, texture, format.value);
      return Returned;
    }

    /** The registering half of the load callback (index.js:148-209), once
        the format is known. */
    method RegisterLoaded(source: Source, texture: Texture, f: Option<int>)
      requires Valid()
      modifies this`layers, this`owner, (if source.name in layers then {layers[source.name]} else {})
      ensures Valid()
      ensures Views(layers) == Register(old(Views(layers)), source, texture, f)
      ensures forall n :: n in old(layers) && (n != source.name || source.kind == "stereoCubeMap") ==>
                n in layers && layers[n] == old(layers)[n]
      ensures forall n :: n in layers && n !in old(layers) ==> fresh(layers[n])
    {
      if source.kind == "stereoCubeMap" {
        RegisterStereoHalf(source, texture, f);
      } else if Registers(source.kind) {
        RegisterWhole(source, texture, f);
      }
    }

    /** A stereo cube half: fill the slot of the registered entry, or
        register a new stereo cube holding only this half (index.js:150-178). */
    method RegisterStereoHalf(source: Source, texture: Texture, f: Option<int>)
      requires Valid() && source.kind == "stereoCubeMap"
      modifies this`layers, this`owner, (if source.name in layers then {layers[source.name]} else {})
      ensures Valid()
      ensures Views(layers) == Register(old(Views(layers)), source, texture, f)
      ensures forall n :: n in old(layers) ==> n in layers && layers[n] == old(layers)[n]
      ensures forall n :: n in layers && n !in old(layers) ==> fresh(layers[n])
    {
      var name := source.name;
      ghost var before := Views(layers);
      if name in layers {
        FillCubeSlot(name, texture, source.leftSide);
      } else {
        var w := new LayerWrapper.Cube(None, if source.leftSide then Some(texture) else None,
                                       if source.leftSide then None else Some(texture), true, f);
        assert w.View() == CubeView(if source.leftSide then Some(texture) else None,
                                    if source.leftSide then None else Some(texture), true, f);
        Put(name, w);
        assert Views(layers) == before[name := w.View()];
      }
    }

    /** A mono cube map or an equirectangular image: a new wrapper replaces
        whatever the name held (index.js:179-209). */
    method RegisterWhole(source: Source, texture: Texture, f: Option<int>)
      requires Valid() && source.kind != "stereoCubeMap" && Registers(source.kind)
      modifies this`layers, this`owner
      ensures Valid()
      ensures Views(layers) == Register(old(Views(layers)), source, texture, f)
      ensures forall n :: n in old(layers) && n != source.name ==> n in layers && layers[n] == old(layers)[n]
      ensures forall n :: n in layers && n !in old(layers) ==> fresh(layers[n])
    {
      var w;
      if source.kind == "cubeMap" {
        w := new LayerWrapper.Cube(None, Some(texture), None, false, f);
      } else {
        w := new LayerWrapper.Equirect(None, Some(texture), source.kind == "stereoEquirectangular", f, EQRT_RADIUS);
      }
      Put(source.name, w);
    }

    /** `layers[name] = w` for a newly constructed wrapper. */
    method Put(name: string, w: LayerWrapper)
      requires Valid() && w.Valid() && w !in layers.Values
      modifies this`layers, this`owner
      ensures Valid()
      ensures layers == old(layers)[name := w]
      ensures Views(layers) == old(Views(layers))[name := w.View()]
    {
      ghost var before := Views(layers);
      layers := layers[name := w];
      owner := owner[w := name];
      forall n | n in layers
        ensures Views(layers)[n] == before[name := w.View()][n]
      {
      }
      assert Views(layers).Keys == before[name := w.View()].Keys;
    }

    /** `layers[name].Cube_Texture = texture` (left half) or
        `layers[name].Cube_Texture_Right = texture` (right half). */
    method FillCubeSlot(name: string, texture: Texture, leftSide: bool)
      requires Valid() && name in layers
      modifies layers[name]
      ensures Valid() && layers == old(layers)
      ensures Views(layers) == old(Views(layers))[name := if leftSide
                                                          then old(Views(layers))[name].(cubeTexture := Some(texture))
                                                          else old(Views(layers))[name].(cubeTextureRight := Some(texture))]
    {
      ghost var before := Views(layers);
      ghost var updated := if leftSide then before[name].(cubeTexture := Some(texture))
                           else before[name].(cubeTextureRight := Some(texture));
      var w := layers[name];
      if leftSide {
        w.cubeTexture := Some(texture);
      } else {
        w.cubeTextureRight := Some(texture);
      }
      assert w.View() == updated;
      forall n | n in layers
        ensures Views(layers)[n] == before[name := updated][n]
      {
        if n != name {
          assert layers[n] != w;
        }
      }
      assert Views(layers).Keys == before[name := updated].Keys;
    }

    /** `createLayer(name)` (index.js:481-484): create the XR layer of a
        registered wrapper through the main.js caches, which it refreshes
        from this page's binding and space. Only that entry's `layer` changes. */
    method CreateLayer(name: string, newId: nat) returns (outcome: Outcome)
      requires Valid()
      modifies cache, (if name in layers then {layers[name]} else {})
      ensures Valid()
      ensures name !in layers ==> outcome == Threw(TypeError) && unchanged(cache)
      ensures name in layers ==>
                cache.glBinding == KeepFirst(old(cache.glBinding), glBinding)
                && cache.xrSpace == KeepFirst(old(cache.xrSpace), xrSpace)
                && var request := RequestOf(old(Views(layers))[name], cache.glBinding, cache.xrSpace);
                   (request.Err? ==> outcome == Threw(TypeError) && Views(layers) == old(Views(layers)))
                   && (request.Ok? ==>
                         outcome == Returned
                         && Views(layers) == old(Views(layers))[name := old(Views(layers))[name].(
                              layer := Some(CompositionLayer(newId, request.value, GeometryOf(old(Views(layers))[name]))))])
    {
      if name !in layers {
        return Threw(TypeError);
      }
      outcome := CreateEntry(name, newId);
    }

    /** `createLayer()` on the wrapper registered under `name`; every other
        entry keeps its value. */
    method CreateEntry(name: string, newId: nat) returns (outcome: Outcome)
      requires Valid() && name in layers
      modifies cache, layers[name]
      ensures Valid()
      ensures cache.glBinding == KeepFirst(old(cache.glBinding), glBinding)
      ensures cache.xrSpace == KeepFirst(old(cache.xrSpace), xrSpace)
      ensures Views(layers) == old(Views(layers))[name := layers[name].View()]
      ensures layers[name].View() == old(layers[name].View()).(layer := layers[name].layer)
      ensures var request := RequestOf(old(layers[name].View()), cache.glBinding, cache.xrSpace);
              (request.Err? ==> outcome == Threw(TypeError) && layers[name].layer == old(layers[name].layer))
              && (request.Ok? ==>
                    outcome == Returned
                    && layers[name].layer
                       == Some(CompositionLayer(newId, request.value, GeometryOf(old(layers[name].View())))))
    {
      ghost var before := Views(layers);
      var w := layers[name];
      outcome := w.CreateLayer(cache, glBinding, xrSpace, newId);
      forall n | n in layers
        ensures Views(layers)[n] == before[name := w.View()][n]
      {
        if n != name {
          assert layers[n] != w;
        }
      }
      assert Views(layers).Keys == before[name := w.View()].Keys;
    }

    /** `setLayer(name)` (index.js:492-509): show the entry's layer beneath
        the stack's last entry, then make it `activeLayers[0]`. A missing
        entry or a layer not yet created makes the call throw first. */
    method SetLayer(name: string) returns (outcome: Outcome)
      requires Valid()
      modifies this`renderStack, this`activeLayers
      ensures Valid()
      ensures name !in layers || layers[name].layer.None? ==>
                outcome == Threw(TypeError) && renderStack == old(renderStack) && activeLayers == old(activeLayers)
      ensures name in layers && layers[name].layer.Some? ==>
                outcome == Returned
                && renderStack == ShowUnderLast(layers[name].layer.value, old(renderStack))
                // only slot 0 is overwritten (an empty array grows to one slot)
                && (|old(activeLayers)| == 0 ==> activeLayers == [layers[name]])
                && (|old(activeLayers)| > 0 ==> activeLayers == old(activeLayers)[0 := layers[name]])
    {
      if name !in layers || layers[name].layer.None? {
        return Threw(TypeError);
      }
      var w := layers[name];
      renderStack := ShowUnderLast(w.layer.value, renderStack);
      if |activeLayers| == 0 {
        activeLayers := [w];
      } else {
        activeLayers := activeLayers[0 := w];
      }
      return Returned;
    }

    /** The "set layer" button of a registered source (index.js:161-207):
        `createLayer(name); setLayer(name)`. An unknown name throws in
        `createLayer`; otherwise the button returns exactly when the entry's
        request succeeds, and then the freshly created layer is the bottom of
        the stack, beneath the previous last entry, and `activeLayers[0]`.
        On a throw the registry views, the stack and `activeLayers` are as
        they were. */
    method ShowRegistered(name: string, newId: nat) returns (outcome: Outcome)
      requires Valid()
      modifies cache, this`renderStack, this`activeLayers, (if name in layers then {layers[name]} else {})
      ensures Valid()
      ensures name !in layers ==> outcome == Threw(TypeError) && unchanged(cache)
      ensures name in layers ==>
                cache.glBinding == KeepFirst(old(cache.glBinding), glBinding)
                && cache.xrSpace == KeepFirst(old(cache.xrSpace), xrSpace)
                && (outcome == Returned <==> RequestOf(old(Views(layers))[name], cache.glBinding, cache.xrSpace).Ok?)
      ensures outcome == Returned ==>
                name in layers
                && var request := RequestOf(old(Views(layers))[name], cache.glBinding, cache.xrSpace);
                   var created := CompositionLayer(newId, request.value, GeometryOf(old(Views(layers))[name]));
                   request.Ok?
                   && Views(layers) == old(Views(layers))[name := old(Views(layers))[name].(layer := Some(created))]
                   && renderStack == ShowUnderLast(created, old(renderStack))
                   && (|old(activeLayers)| == 0 ==> activeLayers == [layers[name]])
                   && (|old(activeLayers)| > 0 ==> activeLayers == old(activeLayers)[0 := layers[name]])
      ensures outcome != Returned ==>
                outcome == Threw(TypeError)
                && Views(layers) == old(Views(layers))
                && renderStack == old(renderStack) && activeLayers == old(activeLayers)
    {
      outcome := CreateLayer(name, newId);
      if outcome != Returned {
        return;
      }
      assert layers[name].View() == Views(layers)[name];
      outcome := SetLayer(name);
    }

    /** The effect of `createEquireLayer` / `createCubeLayer` on a wrapper
        with fields `template` whose `format` is the evaluation result
        `format`: evaluating the format may throw first; then the new
        wrapper's `createLayer()` may throw; otherwise the wrapper becomes
        `activeWebXRLayer` and its layer is shown beneath the stack's last entry. */
    twostate predicate CreatedAndShown(format: Result<Option<int>>, template: LayerView, newId: nat, outcome: Outcome)
      reads this, cache, (if activeWebXRLayer.Some? then {activeWebXRLayer.value} else {})
    {
      if format.Err? then
        outcome == Threw(format.error) && unchanged(cache)
        && activeWebXRLayer == old(activeWebXRLayer) && renderStack == old(renderStack)
      else
        var view := template.(format := format.value);
        var request := RequestOf(view, cache.glBinding, cache.xrSpace);
        cache.glBinding == KeepFirst(old(cache.glBinding), glBinding)
        && cache.xrSpace == KeepFirst(old(cache.xrSpace), xrSpace)
        && if request.Err? then
             outcome == Threw(request.error) && activeWebXRLayer == old(activeWebXRLayer) && renderStack == old(renderStack)
           else
             var layer := CompositionLayer(newId, request.value, GeometryOf(view));
             outcome == Returned && activeWebXRLayer.Some? && fresh(activeWebXRLayer.value)
             && activeWebXRLayer.value.View() == view.(layer := Some(layer))
             && |old(renderStack)| > 0 && renderStack == ShowUnderLast(layer, old(renderStack))
    }

    /** Construct a wrapper, create its layer and show it (the common tail of
        index.js:224-233 and index.js:264-272). */
    method CreateAndShow(w: LayerWrapper, newId: nat) returns (outcome: Outcome)
      requires Valid() && w.Valid()
      modifies cache, w`layer, this`activeWebXRLayer, this`renderStack
      ensures Valid()
      ensures cache.glBinding == KeepFirst(old(cache.glBinding), glBinding)
      ensures cache.xrSpace == KeepFirst(old(cache.xrSpace), xrSpace)
      ensures var request := RequestOf(old(w.View()), cache.glBinding, cache.xrSpace);
              (request.Err? ==> outcome == Threw(request.error)
                                && activeWebXRLayer == old(activeWebXRLayer) && renderStack == old(renderStack))
              && (request.Ok? ==>
                    var layer := CompositionLayer(newId, request.value, GeometryOf(old(w.View())));
                    outcome == Returned && activeWebXRLayer == Some(w)
                    && w.View() == old(w.View()).(layer := Some(layer))
                    && renderStack == ShowUnderLast(layer, old(renderStack)))
    {
      outcome := w.CreateLayer(cache, glBinding, xrSpace, newId);
      if outcome != Returned {
        return;
      }
      activeWebXRLayer := Some(w);
      renderStack := ShowUnderLast(w.layer.value, renderStack);
    }

    /** `createEquireLayer(texture, stereo)` (index.js:221-236). */
    method CreateEquireLayer(texture: Texture, stereo: bool, newId: nat) returns (outcome: Outcome)
      requires Valid()
      modifies cache, this`activeWebXRLayer, this`renderStack
      ensures Valid()
      ensures CreatedAndShown(Resolve(ViewerTable, texture.format, ext), EquirectView(texture, stereo, None), newId, outcome)
    {
      var format := Resolve(ViewerTable, texture.format, ext);
      if format.Err? {
        return Threw(format.error);
      }
      var w := new LayerWrapper.Equirect(None, Some(texture), stereo, format.value, EQRT_RADIUS);
      outcome := CreateAndShow(w, newId);
    }

    /** `createCubeLayer(texture, texture_right, stereo)` (index.js:252-273):
        the right texture is kept only for a stereo layer. */
    method CreateCubeLayer(texture: Texture, textureRight: Option<Texture>, stereo: bool, newId: nat)
      returns (outcome: Outcome)
      requires Valid()
      modifies cache, this`activeWebXRLayer, this`renderStack
      ensures Valid()
      ensures CreatedAndShown(Resolve(ViewerTable, texture.format, ext),
                              CubeView(Some(texture), if stereo then textureRight else None, stereo, None),
                              newId, outcome)
    {
      var format := Resolve(ViewerTable, texture.format, ext);
      if format.Err? {
        return Threw(format.error);
      }
      var w;
      if !stereo {
        w := new LayerWrapper.Cube(None, Some(texture), None, false, format.value);
      } else {
        w := new LayerWrapper.Cube(None, Some(texture), textureRight, true, format.value);
      }
      outcome := CreateAndShow(w, newId);
    }

    /** `createEqrtLayerByIndex(index, stereo)` (index.js:238-248). An index
        past the end returns null and changes nothing; a negative one reads
        `undefined.format` and throws. */
    method CreateEqrtLayerByIndex(index: int, stereo: bool, newId: nat) returns (outcome: Outcome)
      requires Valid()
      modifies cache, this`activeWebXRLayer, this`renderStack
      ensures Valid()
      ensures index >= |compressed360Textures| ==>
                outcome == ReturnedNull && unchanged(cache)
                && activeWebXRLayer == old(activeWebXRLayer) && renderStack == old(renderStack)
      ensures index < 0 ==>
                outcome == Threw(TypeError) && unchanged(cache)
                && activeWebXRLayer == old(activeWebXRLayer) && renderStack == old(renderStack)
      ensures 0 <= index < |compressed360Textures| ==>
                var texture := compressed360Textures[index];
                CreatedAndShown(Resolve(ViewerTable, texture.format, ext), EquirectView(texture, stereo, None), newId, outcome)
    {
      if index >= |compressed360Textures| {
        return ReturnedNull;
      }
      if index < 0 {
        return Threw(TypeError);
      }
      var o := CreateEquireLayer(compressed360Textures[index], stereo, newId);
      return o;
    }

    /** `createCubeLayerByIndex(index)` (index.js:276-285). */
    method CreateCubeLayerByIndex(index: int, newId: nat) returns (outcome: Outcome)
      requires Valid()
      modifies cache, this`activeWebXRLayer, this`renderStack
      ensures Valid()
      ensures index >= |compressedCubeTextures| ==>
                outcome == ReturnedNull && unchanged(cache)
                && activeWebXRLayer == old(activeWebXRLayer) && renderStack == old(renderStack)
      ensures index < 0 ==>
                outcome == Threw(TypeError) && unchanged(cache)
                && activeWebXRLayer == old(activeWebXRLayer) && renderStack == old(renderStack)
      ensures 0 <= index < |compressedCubeTextures| ==>
                var texture := compressedCubeTextures[index];
                CreatedAndShown(Resolve(ViewerTable, texture.format, ext), CubeView(Some(texture), None, false, None),
                                newId, outcome)
    {
      if index >= |compressedCubeTextures| {
        return ReturnedNull;
      }
      if index < 0 {
        return Threw(TypeError);
      }
      var o := CreateCubeLayer(compressedCubeTextures[index], None, false, newId);
      return o;
    }

    /** `createCubeLayerByIndexStereo(left, right)` (index.js:288-303): both
        indices must be in range and both textures must have the same
        format; otherwise null is returned and nothing changes. */
    method CreateCubeLayerByIndexStereo(left: int, right: int, newId: nat) returns (outcome: Outcome)
      requires Valid()
      modifies cache, this`activeWebXRLayer, this`renderStack
      ensures Valid()
      ensures (left >= |compressedCubeTextures| || right >= |compressedCubeTextures|
               || (0 <= left && 0 <= right && compressedCubeTextures[left].format != compressedCubeTextures[right].format)) ==>
                outcome == ReturnedNull && unchanged(cache)
                && activeWebXRLayer == old(activeWebXRLayer) && renderStack == old(renderStack)
      ensures left < |compressedCubeTextures| && right < |compressedCubeTextures| && (left < 0 || right < 0) ==>
                outcome == Threw(TypeError) && unchanged(cache)
                && activeWebXRLayer == old(activeWebXRLayer) && renderStack == old(renderStack)
      ensures 0 <= left < |compressedCubeTextures| && 0 <= right < |compressedCubeTextures|
              && compressedCubeTextures[left].format == compressedCubeTextures[right].format ==>
                var l := compressedCubeTextures[left];
                CreatedAndShown(Resolve(ViewerTable, l.format, ext),
                                CubeView(Some(l), Some(compressedCubeTextures[right]), true, None), newId, outcome)
    {
      if left >= |compressedCubeTextures| || right >= |compressedCubeTextures| {
        return ReturnedNull;
      }
      if left < 0 || right < 0 {
        return Threw(TypeError);
      }
      if compressedCubeTextures[left].format != compressedCubeTextures[right].format {
        return ReturnedNull;
      }
      var o := CreateCubeLayer(compressedCubeTextures[left], Some(compressedCubeTextures[right]), true, newId);
      return o;
    }

    /** The image `onload` handler of `createQuadLayer(url)` (index.js:658-671):
        a new quad wrapper is created, registered under the URL (replacing
        any entry there), appended to `activeLayers` and shown beneath the stack's last entry. */
    method OnQuadImageLoaded(url: string, width: nat, height: nat, newId: nat) returns (outcome: Outcome)
      requires Valid()
      modifies cache, this`layers, this`owner, this`activeLayers, this`renderStack
      ensures Valid()
      ensures cache.glBinding == KeepFirst(old(cache.glBinding), glBinding)
      ensures cache.xrSpace == KeepFirst(old(cache.xrSpace), xrSpace)
      ensures var request := QuadRequest(cache.glBinding, cache.xrSpace, Some(ImageElement(url, width, height)));
              (request.Err? ==>
                 outcome == Threw(TypeError)
                 && layers == old(layers) && activeLayers == old(activeLayers) && renderStack == old(renderStack))
              && (request.Ok? ==>
                    var layer := CompositionLayer(newId, request.value, QuadSize(2, 1));
                    outcome == Returned
                    && layers.Keys == old(layers).Keys + {url} && fresh(layers[url])
                    && (forall n :: n in old(layers) && n != url ==> layers[n] == old(layers)[n])
                    && layers[url].View()
                       == LayerView(QUAD_TAG, Some(layer), None, None, None, Some(ImageElement(url, width, height)),
                                    None, None, None)
                    && activeLayers == old(activeLayers) + [layers[url]]
                    && renderStack == ShowUnderLast(layer, old(renderStack)))
    {
      var w := new LayerWrapper.Quad(ImageElement(url, width, height));
      outcome := w.CreateLayer(cache, glBinding, xrSpace, newId);
      if outcome != Returned {
        return;
      }
      RegisterActive(url, w);
    }

    /** `layers[url] = w; activeLayers.push(w)` and the stack update, for a
        wrapper whose layer exists and that is not yet registered. */
    method RegisterActive(url: string, w: LayerWrapper)
      requires Valid() && w.Valid() && w.layer.Some? && w !in layers.Values
      modifies this`layers, this`owner, this`activeLayers, this`renderStack
      ensures Valid()
      ensures layers == old(layers)[url := w] && activeLayers == old(activeLayers) + [w]
      ensures renderStack == ShowUnderLast(w.layer.value, old(renderStack))
    {
      layers := layers[url := w];
      owner := owner[w := url];
      activeLayers := activeLayers + [w];
      renderStack := ShowUnderLast(w.layer.value, renderStack);
    }

    /** One call of `animate` (index.js:310-337): the first frame of a
        session whose render state has a `layers` member
        (`layersSupported`) asks for the reference space, then every active layer whose
        XR layer needs a redraw is drawn, in array order. An exception in a
        pass ends the frame. */
    method Animate(sessionPresent: bool, layersSupported: bool, needs: set<nat>) returns (outcome: Outcome)
      requires Valid()
      modifies this`mediaLayerRequested, gl
      ensures Valid()
      ensures mediaLayerRequested == (old(mediaLayerRequested) || (sessionPresent && layersSupported))
      ensures var frame := Frame(ActiveViews(activeLayers), needs, glBinding);
              gl.issued == old(gl.issued) + frame.uploads
              && outcome == (if frame.error.Some? then Threw(frame.error.value) else Returned)
    {
      if sessionPresent && layersSupported && !mediaLayerRequested {
        mediaLayerRequested := true;
      }
      outcome := RedrawActive(needs);
    }

    /** The redraw loop of `animate` over `activeLayers`. */
    method RedrawActive(needs: set<nat>) returns (outcome: Outcome)
      modifies gl
      ensures var frame := Frame(ActiveViews(activeLayers), needs, glBinding);
              gl.issued == old(gl.issued) + frame.uploads
              && outcome == (if frame.error.Some? then Threw(frame.error.value) else Returned)
    {
      var views := ActiveViews(activeLayers);
      ghost var done := Frame([], needs, glBinding);
      var i := 0;
      while i < |views|
        invariant 0 <= i <= |views|
        invariant done == Frame(views[..i], needs, glBinding)
        invariant done.error.None? && gl.issued == old(gl.issued) + done.uploads
      {
        var error := PassAt(views, i, needs, old(gl.issued));
        done := Frame(views[..i + 1], needs, glBinding);
        if error.Some? {
          FrameStopsAtError(views, i + 1, needs, glBinding);
          return Threw(error.value);
        }
        i := i + 1;
      }
      assert views[..i] == views;
      return Returned;
    }

    /** Pass `i` of the loop, on top of the uploads of the passes before it:
        afterwards the log holds the frame over one more view. */
    method PassAt(views: seq<LayerView>, i: nat, needs: set<nat>, ghost base: seq<Upload>)
      returns (error: Option<JsError>)
      requires i < |views| && Frame(views[..i], needs, glBinding).error.None?
      requires gl.issued == base + Frame(views[..i], needs, glBinding).uploads
      modifies gl
      ensures gl.issued == base + Frame(views[..i + 1], needs, glBinding).uploads
      ensures error == Frame(views[..i + 1], needs, glBinding).error
    {
      error := Pass(views[i], needs);
      FrameExtends(views, i, needs, glBinding, base);
    }

    /** One pass of the redraw loop: the wrapper's layer must exist; it is
        drawn when it needs a redraw. */
    method Pass(v: LayerView, needs: set<nat>) returns (error: Option<JsError>)
      modifies gl
      ensures var pass := Visit(Batch([], None), v, needs, glBinding);
              gl.issued == old(gl.issued) + pass.uploads && error == pass.error
    {
      if v.layer.None? {
        return Some(TypeError);
      }
      if NeedsRedraw(v.layer.value, needs) {
        var drawn := DrawLayer(v, glBinding);
        assert [] + drawn.uploads == drawn.uploads;
        gl.issued := gl.issued + drawn.uploads;
        return drawn.error;
      }
      return None;
    }
  }
}

/** The three layer wrapper classes of main.js (`WebXRCubeLayer`,
    `WebXREquirectangularLayer`, `WebXRQuadLayer`), the creation requests
    they derive from their fields, and the lazily filled module-level
    `glBinding` / `xrSpace` of main.js. */
module LayerWrappers {
  import opened Common
  import opened Platform
  import Formats

  /** The `type` tags the constructors set (main.js:153, 210, 262). */
  const CUBE_TAG: string := "WebXRCubeLayer"
  const EQUIRECT_TAG: string := "WebXREquirectangularLayer"
  const QUAD_TAG: string := "WebXRQuadLayer"

  /** The colour format every cube layer is requested with (main.js:177). */
  const CUBE_COLOR_FORMAT: int := 37840

  /** Which `XRWebGLBinding.create…Layer` call a request goes to. */
  datatype LayerKind = CubeKind | EquirectKind | QuadKind

  /** The members of the layer-init dictionary the pages pass, after
      WebIDL conversion: an absent `colorFormat` is the dictionary default
      RGBA, an absent `isStatic` is false, and a string `isStatic` is
      converted by truthiness. */
  datatype LayerInit = LayerInit(
    kind: LayerKind,
    space: Space,
    viewPixelWidth: nat,
    viewPixelHeight: nat,
    layout: string,
    colorFormat: int,
    isStatic: bool)

  /** Geometry assigned after creation: an equirect layer's `radius`, a
      quad's `width`/`height`. Angles and poses are floating point and not
      part of this model. */
  datatype Geometry = NoGeometry | Sphere(radius: int) | QuadSize(width: int, height: int)

  /** A layer object of the session: the renderer's own projection layer,
      or a composition layer created through the binding (`id` tells
      created layers apart). */
  datatype XRLayer = ProjectionLayer | CompositionLayer(id: nat, init: LayerInit, geometry: Geometry)

  /** JavaScript truthiness of the stored `stereo` (undefined is falsy). */
  function Truthy(b: Option<bool>): bool {
    b.Some? && b.value
  }

  /** What `WebXRCubeLayer.createLayer` passes to `createCubeLayer`. Reading
      face 0 of a missing texture, calling through a null binding and a null
      `space` all throw TypeError. */
  function CubeRequest(binding: Option<Binding>, space: Option<Space>, texture: Option<Texture>, stereo: bool)
    : (r: Result<LayerInit>)
    ensures r.Err? <==> texture.None? || |texture.value.faces| == 0 || binding.None? || space.None?
    ensures r.Err? ==> r.error == TypeError
    ensures r.Ok? ==>
              r.value.kind == CubeKind && r.value.space == space.value
              // the view is exactly one face
              && r.value.viewPixelWidth == texture.value.faces[0].width
              && r.value.viewPixelHeight == texture.value.faces[0].height
              && (r.value.layout == "stereo" <==> stereo)
              && (r.value.layout == "mono" <==> !stereo)
              // whatever the texture's format, the layer is ASTC 4x4 sRGB, and dynamic
              && r.value.colorFormat == CUBE_COLOR_FORMAT
              && !r.value.isStatic
  {
    if texture.None? || |texture.value.faces| == 0 || binding.None? || space.None? then Err(TypeError)
    else
      var face := texture.value.faces[0];
      Ok(LayerInit(CubeKind, space.value, face.width, face.height,
                   if stereo then "stereo" else "mono", CUBE_COLOR_FORMAT, false))
  }

  /** What `WebXREquirectangularLayer.createLayer` passes to
      `createEquirectLayer`. The height is divided as a double and then
      converted to `unsigned long`, which truncates. */
  function EquirectRequest(binding: Option<Binding>, space: Option<Space>, texture: Option<Texture>,
                           stereo: bool, format: Option<int>)
    : (r: Result<LayerInit>)
    ensures r.Err? <==> binding.None? || texture.None? || |texture.value.mipmaps| == 0 || space.None?
    ensures r.Err? ==> r.error == TypeError
    ensures r.Ok? ==>
              var mip0 := texture.value.mipmaps[0];
              r.value.kind == EquirectKind && r.value.space == space.value
              && r.value.viewPixelWidth == mip0.width
              // stereo: each eye gets half of the top-bottom image (rounded down)
              && (stereo ==> 2 * r.value.viewPixelHeight <= mip0.height < 2 * r.value.viewPixelHeight + 2)
              && (!stereo ==> r.value.viewPixelHeight == mip0.height)
              && (r.value.layout == "stereo-top-bottom" <==> stereo)
              && (r.value.layout == "mono" <==> !stereo)
              && (format.Some? ==> r.value.colorFormat == format.value)
              && (format.None? ==> r.value.colorFormat == Formats.RGBA)
              && r.value.isStatic
  {
    if binding.None? || texture.None? || |texture.value.mipmaps| == 0 || space.None? then Err(TypeError)
    else
      var mip0 := texture.value.mipmaps[0];
      Ok(LayerInit(EquirectKind, space.value, mip0.width,
                   if stereo then mip0.height / 2 else mip0.height,
                   if stereo then "stereo-top-bottom" else "mono",
                   if format.Some? then format.value else Formats.RGBA,
                   true))   // isStatic: "true"
  }

  /** What `WebXRQuadLayer.createLayer` passes to `createQuadLayer`. */
  function QuadRequest(binding: Option<Binding>, space: Option<Space>, image: Option<ImageElement>)
    : (r: Result<LayerInit>)
    ensures r.Err? <==> binding.None? || image.None? || space.None?
    ensures r.Err? ==> r.error == TypeError
    ensures r.Ok? ==>
              r.value.kind == QuadKind && r.value.space == space.value
              && r.value.viewPixelWidth == image.value.width
              && r.value.viewPixelHeight == image.value.height
              && r.value.layout == "mono"
              && r.value.colorFormat == Formats.RGBA
              && !r.value.isStatic
  {
    if binding.None? || image.None? || space.None? then Err(TypeError)
    else Ok(LayerInit(QuadKind, space.value, image.value.width, image.value.height, "mono", Formats.RGBA, false))
  }

  /** The fields of one wrapper object, as a value. `radius` exists on
      equirect wrappers only, `image` on quads only. */
  datatype LayerView = LayerView(
    typeTag: string,
    layer: Option<XRLayer>,
    cubeTexture: Option<Texture>,
    cubeTextureRight: Option<Texture>,
    equirectTexture: Option<Texture>,
    image: Option<ImageElement>,
    stereo: Option<bool>,
    format: Option<int>,
    radius: Option<int>)

  /** The request `createLayer()` sends for a wrapper with fields `v`,
      given the cached binding and space. */
  function RequestOf(v: LayerView, binding: Option<Binding>, space: Option<Space>): (r: Result<LayerInit>)
    // every class needs both cached handles, and fails only with a TypeError
    ensures binding.None? || space.None? ==> r == Err(TypeError)
    ensures r.Err? ==> r.error == TypeError
    // the class decides the kind of layer requested; any other tag requests a quad
    ensures r.Ok? ==>
              r.value.space == space.value
              && (r.value.kind == CubeKind <==> v.typeTag == CUBE_TAG)
              && (r.value.kind == EquirectKind <==> v.typeTag == EQUIRECT_TAG)
  {
    if v.typeTag == CUBE_TAG then CubeRequest(binding, space, v.cubeTexture, Truthy(v.stereo))
    else if v.typeTag == EQUIRECT_TAG then EquirectRequest(binding, space, v.equirectTexture, Truthy(v.stereo), v.format)
    else QuadRequest(binding, space, v.image)
  }

  /** What `createLayer()` assigns to the new layer after creating it. */
  function GeometryOf(v: LayerView): Geometry {
    if v.typeTag == EQUIRECT_TAG && v.radius.Some? then Sphere(v.radius.value)
    else if v.typeTag == QUAD_TAG then QuadSize(2, 1)
    else NoGeometry
  }

  /** One getter-guarded cache slot: `if (!slot) slot = getter()`. */
  function KeepFirst<T>(cached: Option<T>, fetched: Option<T>): Option<T> {
    if cached.Some? then cached else fetched
  }

  /** The slot after a run of `createLayer` calls whose getter returned
      `history[0]`, `history[1]`, … in turn. */
  function CacheAfter<T>(cached: Option<T>, history: seq<Option<T>>): Option<T>
    decreases |history|
  {
    if history == [] then cached else CacheAfter(KeepFirst(cached, history[0]), history[1..])
  }

  /** The first non-null value in a history, independently of any cache. */
  function FirstPresent<T>(history: seq<Option<T>>): (r: Option<T>)
    ensures r.None? <==> forall i :: 0 <= i < |history| ==> history[i].None?
    ensures r.Some? ==> exists i :: 0 <= i < |history| && history[i] == r
                                    && forall j :: 0 <= j < i ==> history[j].None?
    decreases |history|
  {
    if history == [] then None
    else if history[0].Some? then history[0]
    else
      var rest := FirstPresent(history[1..]);
      assert forall i :: 1 <= i < |history| ==> history[i] == history[1..][i - 1];
      rest
  }

  /** Starting from null, the slot ends up holding the first non-null value
      the getter ever returned (and stays null while the getter does). */
  lemma {:induction false} CacheHoldsFirstFetched<T>(history: seq<Option<T>>)
    ensures CacheAfter(None, history) == FirstPresent(history)
    decreases |history|
  {
    if history != [] {
      if history[0].Some? {
        CacheNeverOverwritten(history[0].value, history[1..]);
      } else {
        CacheHoldsFirstFetched(history[1..]);
      }
    }
  }

  /** Once set, the slot is never overwritten, whatever the getter returns. */
  lemma {:induction false} CacheNeverOverwritten<T>(v: T, history: seq<Option<T>>)
    ensures CacheAfter(Some(v), history) == Some(v)
    decreases |history|
  {
    if history != [] {
      CacheNeverOverwritten(v, history[1..]);
    }
  }

  /** main.js's module-level `glBinding` and `xrSpace` (main.js:13-14). */
  class BindingCache {
    var glBinding: Option<Binding>
    var xrSpace: Option<Space>

    constructor()
      ensures glBinding == None && xrSpace == None
    {
      glBinding := None;
      xrSpace := None;
    }

    /** The guarded refresh every `createLayer` starts with: each slot asks
        its getter only while it is null. */
    method Refresh(exportedBinding: Option<Binding>, exportedSpace: Option<Space>)
      modifies this
      ensures glBinding == KeepFirst(old(glBinding), exportedBinding)
      ensures xrSpace == KeepFirst(old(xrSpace), exportedSpace)
      ensures old(glBinding).Some? ==> glBinding == old(glBinding)
      ensures old(xrSpace).Some? ==> xrSpace == old(xrSpace)
    {
      if glBinding.None? { glBinding := exportedBinding; }
      if xrSpace.None? { xrSpace := exportedSpace; }
    }
  }

  /** One object of the three wrapper classes; `typeTag` is its `type`.
      `Cube_Texture` and `Cube_Texture_Right` are `var`s because the viewer
      page fills them after construction; every other field is only
      written by the constructor, except `layer`, which `CreateLayer` sets. */
  class LayerWrapper {
    const typeTag: string
    var layer: Option<XRLayer>
    var cubeTexture: Option<Texture>
    var cubeTextureRight: Option<Texture>
    const equirectTexture: Option<Texture>
    const image: Option<ImageElement>
    const stereo: Option<bool>
    const format: Option<int>
    const radius: Option<int>

    /** The shape each constructor gives the fields it owns. */
    predicate Valid() {
      (typeTag == CUBE_TAG && stereo.Some? && equirectTexture.None? && image.None? && radius.None?)
      || (typeTag == EQUIRECT_TAG && stereo.Some? && image.None? && radius.Some?)
      || (typeTag == QUAD_TAG && stereo.None? && image.Some? && equirectTexture.None?
          && format.None? && radius.None?)
    }

    /** `new WebXRCubeLayer(layer, Cube_Texture, Cube_Texture_Right, stereo, format)` */
    constructor Cube(layer: Option<XRLayer>, cubeTexture: Option<Texture>, cubeTextureRight: Option<Texture>,
                     stereo: bool, format: Option<int>)
      ensures Valid() && typeTag == CUBE_TAG
      ensures this.layer == layer && this.cubeTexture == cubeTexture && this.cubeTextureRight == cubeTextureRight
      ensures this.stereo == Some(stereo) && this.format == format
      ensures equirectTexture == None && image == None && radius == None
    {
      typeTag := CUBE_TAG;
      this.layer := layer;
      this.cubeTexture := cubeTexture;
      this.cubeTextureRight := cubeTextureRight;
      this.stereo := Some(stereo);
      this.format := format;
      equirectTexture := None;
      image := None;
      radius := None;
    }

    /** `new WebXREquirectangularLayer(layer, Equirectangular_Texture, stereo, format, radius)` */
    constructor Equirect(layer: Option<XRLayer>, texture: Option<Texture>, stereo: bool, format: Option<int>, radius: int)
      ensures Valid() && typeTag == EQUIRECT_TAG
      ensures this.layer == layer && equirectTexture == texture
      ensures this.stereo == Some(stereo) && this.format == format && this.radius == Some(radius)
      ensures cubeTexture == None && cubeTextureRight == None && image == None
    {
      typeTag := EQUIRECT_TAG;
      this.layer := layer;
      equirectTexture := texture;
      this.stereo := Some(stereo);
      this.format := format;
      this.radius := Some(radius);
      cubeTexture := None;
      cubeTextureRight := None;
      image := None;
    }

    /** `new WebXRQuadLayer(image)`: `stereo` is never assigned. */
    constructor Quad(image: ImageElement)
      ensures Valid() && typeTag == QUAD_TAG
      ensures layer == None && this.image == Some(image) && stereo == None
      ensures cubeTexture == None && cubeTextureRight == None && equirectTexture == None
      ensures format == None && radius == None
    {
      typeTag := QUAD_TAG;
      layer := None;
      this.image := Some(image);
      stereo := None;
      cubeTexture := None;
      cubeTextureRight := None;
      equirectTexture := None;
      format := None;
      radius := None;
    }

    /** `isStereo()`: the stored `stereo`, undefined for a quad. */
    function IsStereo(): (r: Option<bool>)
      ensures Valid() ==> (r.None? <==> typeTag == QUAD_TAG)
    {
      stereo
    }

    /** The object's fields as a value. */
    function View(): LayerView
      reads this
    {
      LayerView(typeTag, layer, cubeTexture, cubeTextureRight, equirectTexture, image, stereo, format, radius)
    }

    /** `createLayer()`: refresh the main.js caches, then create the layer
        through the cached binding. `newId` names the object the browser
        returns. When the request throws, `this.layer` keeps its value. */
    method CreateLayer(cache: BindingCache, exportedBinding: Option<Binding>, exportedSpace: Option<Space>, newId: nat)
      returns (outcome: Outcome)
      modifies this`layer, cache
      ensures View() == old(View()).(layer := layer)
      ensures cache.glBinding == KeepFirst(old(cache.glBinding), exportedBinding)
      ensures cache.xrSpace == KeepFirst(old(cache.xrSpace), exportedSpace)
      ensures RequestOf(old(View()), cache.glBinding, cache.xrSpace).Err? ==>
                outcome == Threw(TypeError) && layer == old(layer)
      ensures RequestOf(old(View()), cache.glBinding, cache.xrSpace).Ok? ==>
                outcome == Returned
                && layer == Some(CompositionLayer(newId, RequestOf(old(View()), cache.glBinding, cache.xrSpace).value,
                                                  GeometryOf(old(View()))))
    {
      cache.Refresh(exportedBinding, exportedSpace);
      var request := RequestOf(View(), cache.glBinding, cache.xrSpace);
      if request.Err? {
        return Threw(request.error);
      }
      layer := Some(CompositionLayer(newId, request.value, GeometryOf(View())));
      outcome := Returned;
    }
  }

  /** The layout a wrapper requests is a stereo layout exactly when its
      `isStereo()` reports true; a quad is always mono and reports
      undefined. */
  lemma LayoutFollowsIsStereo(w: LayerWrapper, binding: Option<Binding>, space: Option<Space>)
    requires w.Valid() && RequestOf(w.View(), binding, space).Ok?
    ensures RequestOf(w.View(), binding, space).value.layout != "mono" <==> w.IsStereo() == Some(true)
    ensures w.typeTag == QUAD_TAG ==> RequestOf(w.View(), binding, space).value.layout == "mono" && w.IsStereo().None?
  {
  }
}

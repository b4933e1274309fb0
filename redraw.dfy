/** The per-frame redraw of the viewer page (index.js:332-446): which
    active layers are drawn, the dispatch on the wrapper's `type`, and which
    texture, face and eye each GL upload takes. GL calls are recorded as
    abstract upload events; their pixel effect is not modelled. */
module Redraw {
  import opened Common
  import opened Platform
  import opened LayerWrappers

  /** GL texture targets. */
  const TEXTURE_2D: int := 0x0DE1

  /** The six cube faces, in the order the draw code uploads them. */
  datatype Face = PositiveX | NegativeX | PositiveY | NegativeY | PositiveZ | NegativeZ

  const FACE_ORDER: seq<Face> := [PositiveX, NegativeX, PositiveY, NegativeY, PositiveZ, NegativeZ]

  /** `gl.TEXTURE_CUBE_MAP_POSITIVE_X` … `gl.TEXTURE_CUBE_MAP_NEGATIVE_Z`. */
  function FaceTarget(f: Face): int {
    match f
    case PositiveX => 0x8515
    case NegativeX => 0x8516
    case PositiveY => 0x8517
    case NegativeY => 0x8518
    case PositiveZ => 0x8519
    case NegativeZ => 0x851A
  }

  /** The `eye` argument of `getSubImage`: omitted, "left" or "right". */
  datatype Eye = DefaultEye | LeftEye | RightEye

  /** One GL upload into the colour texture of a layer's sub-image. */
  datatype Upload =
      /** `compressedTexSubImage2D(target, 0, 0, 0, width, height, format, data)`;
          an undefined format is `None`. */
    | CompressedUpload(layerId: nat, eye: Eye, target: int, width: nat, height: nat, format: Option<int>, data: DataRef)
      /** `texSubImage2D(target, 0, 0, 0, gl.RGBA, gl.UNSIGNED_BYTE, image)` */
    | ImageUpload(layerId: nat, eye: Eye, target: int, image: ImageElement)
      /** `copyTexSubImage2D(target, 0, 0, 0, 0, 0, width, height)` from the bound framebuffer */
    | FramebufferCopy(layerId: nat, eye: Eye, target: int, width: nat, height: nat)

  /** The uploads a call made, and the exception that ended it, if any. */
  datatype Batch = Batch(uploads: seq<Upload>, error: Option<JsError>)

  /** The WebGL context, as far as the layers use it: the texture uploads
      issued through it so far, in order. */
  class GLContext {
    var issued: seq<Upload>

    constructor()
      ensures issued == []
    {
      issued := [];
    }
  }

  /** Whether `getSubImage(layer, …)` can be called on the view's layer: it
      exists and is a layer created through the binding. */
  predicate HasSubImage(v: LayerView) {
    v.layer.Some? && v.layer.value.CompositionLayer?
  }

  /** `layer.needsRedraw`, which the browser sets: the ids in `needs`. */
  predicate NeedsRedraw(l: XRLayer, needs: set<nat>) {
    l.CompositionLayer? && l.id in needs
  }

  /** Every upload of `uploads` goes to the layer with id `id`. */
  predicate AllFor(uploads: seq<Upload>, id: nat) {
    forall i :: 0 <= i < |uploads| ==> uploads[i].layerId == id
  }

  /** How many faces, counting from face 0 and at most six, can be read up
      to their level 0: each of them exists and has a mip level, and the
      next one (if fewer than six) is missing or has none. */
  function ReadyFaces(faces: seq<CubeFace>): (r: nat)
    ensures r <= 6 && r <= |faces|
    ensures forall k :: 0 <= k < r ==> |faces[k].mipmaps| > 0
    ensures r < 6 ==> r == |faces| || |faces[r].mipmaps| == 0
    decreases |faces|
  {
    if faces == [] || |faces[0].mipmaps| == 0 then 0
    else
      var rest := ReadyFaces(faces[1..]);
      assert forall k :: 1 <= k <= rest ==> faces[k] == faces[1..][k - 1];
      Min(6, 1 + rest)
  }

  /** Reference definition of one eye of a cube draw: upload k sends level 0
      of face `faces[k]` to target `FACE_ORDER[k]`, for each of the ready
      faces. */
  function FaceSpec(id: nat, eye: Eye, width: nat, format: Option<int>, faces: seq<CubeFace>): seq<Upload> {
    seq(ReadyFaces(faces), k requires 0 <= k < ReadyFaces(faces) =>
      CompressedUpload(id, eye, FaceTarget(FACE_ORDER[k]), width, width, format, faces[k].mipmaps[0].data))
  }

  /** The six `compressedTexSubImage2D` calls of one eye, from face `k` on;
      reading a face the texture does not have, or level 0 of a face without
      mip levels, throws after the earlier faces went out. */
  function FaceUploads(id: nat, eye: Eye, width: nat, format: Option<int>, faces: seq<CubeFace>, k: nat): (r: Batch)
    requires k <= ReadyFaces(faces)
    ensures r.uploads == FaceSpec(id, eye, width, format, faces)[k..]
    ensures r.error.Some? <==> ReadyFaces(faces) < 6
    ensures r.error.Some? ==> r.error.value == TypeError
    decreases 6 - k
  {
    if k == 6 then Batch([], None)
    else if k >= |faces| || |faces[k].mipmaps| == 0 then Batch([], Some(TypeError))
    else
      var rest := FaceUploads(id, eye, width, format, faces, k + 1);
      var spec := FaceSpec(id, eye, width, format, faces);
      assert spec[k..] == [spec[k]] + spec[k + 1..];
      Batch([CompressedUpload(id, eye, FaceTarget(FACE_ORDER[k]), width, width, format, faces[k].mipmaps[0].data)]
              + rest.uploads,
            rest.error)
  }

  /** `drawWebXREquirectangularLayer`: one upload of mip level 0 into the
      layer's 2D texture. The stereo branch only logs. */
  function DrawEquirect(v: LayerView, binding: Option<Binding>): (r: Batch)
    ensures r.error.Some? <==>
              v.equirectTexture.None? || |v.equirectTexture.value.mipmaps| == 0 || binding.None? || !HasSubImage(v)
    ensures r.error.None? ==>
              var mip0 := v.equirectTexture.value.mipmaps[0];
              r.uploads == [CompressedUpload(v.layer.value.id, DefaultEye, TEXTURE_2D, mip0.width, mip0.height, v.format, mip0.data)]
    ensures r.error.Some? ==> r.uploads == [] && r.error.value == TypeError
  {
    if v.equirectTexture.None? || |v.equirectTexture.value.mipmaps| == 0 then Batch([], Some(TypeError))
    else if binding.None? || !HasSubImage(v) then Batch([], Some(TypeError))
    else
      var mip0 := v.equirectTexture.value.mipmaps[0];
      Batch([CompressedUpload(v.layer.value.id, DefaultEye, TEXTURE_2D, mip0.width, mip0.height, v.format, mip0.data)], None)
  }

  /** `drawWebXRCubeLayer`. The face width of the left (or only) texture is
      used for every upload. Mono: one sub-image, six faces. Stereo: the
      "left" sub-image gets `Cube_Texture`'s faces, then the "right" one
      gets `Cube_Texture_Right`'s. */
  function DrawCube(v: LayerView, binding: Option<Binding>): (r: Batch)
    ensures r.error.Some? ==> r.error.value == TypeError
    // nothing is uploaded when face 0, the binding or the layer is missing
    ensures v.cubeTexture.None? || |v.cubeTexture.value.faces| == 0 || binding.None? || !HasSubImage(v) ==>
              r == Batch([], Some(TypeError))
    ensures v.cubeTexture.Some? && |v.cubeTexture.value.faces| > 0 && binding.Some? && HasSubImage(v) ==>
              var id := v.layer.value.id;
              var left := v.cubeTexture.value.faces;
              var width := left[0].width;
              // mono: face k of the texture goes to slot FACE_ORDER[k]
              (!Truthy(v.stereo) ==>
                 r.uploads == FaceSpec(id, DefaultEye, width, v.format, left)
                 && (r.error.Some? <==> ReadyFaces(left) < 6))
              // stereo: the left eye takes Cube_Texture, then the right eye Cube_Texture_Right
              && (Truthy(v.stereo) ==>
                    ReadyFaces(left) <= |r.uploads|
                    && r.uploads[..ReadyFaces(left)] == FaceSpec(id, LeftEye, width, v.format, left)
                    && (r.error.None? <==>
                          ReadyFaces(left) == 6 && v.cubeTextureRight.Some?
                          && ReadyFaces(v.cubeTextureRight.value.faces) == 6)
                    && (ReadyFaces(left) == 6 && v.cubeTextureRight.Some? ==>
                          r.uploads[6..] == FaceSpec(id, RightEye, width, v.format, v.cubeTextureRight.value.faces))
                    && (ReadyFaces(left) < 6 || v.cubeTextureRight.None? ==> |r.uploads| == ReadyFaces(left)))
  {
    if v.cubeTexture.None? || |v.cubeTexture.value.faces| == 0 then Batch([], Some(TypeError))
    else if binding.None? || !HasSubImage(v) then Batch([], Some(TypeError))
    else
      var id := v.layer.value.id;
      var faces := v.cubeTexture.value.faces;
      var width := faces[0].width;
      if !Truthy(v.stereo) then FaceUploads(id, DefaultEye, width, v.format, faces, 0)
      else
        var left := FaceUploads(id, LeftEye, width, v.format, faces, 0);
        if left.error.Some? then left
        else if v.cubeTextureRight.None? then Batch(left.uploads, Some(TypeError))
        else
          var right := FaceUploads(id, RightEye, width, v.format, v.cubeTextureRight.value.faces, 0);
          Batch(left.uploads + right.uploads, right.error)
  }

  /** `drawWebXRQuadLayer`: the image goes into the layer's 2D texture as RGBA. */
  function DrawQuad(v: LayerView, binding: Option<Binding>): (r: Batch)
    ensures r.error.Some? <==> binding.None? || !HasSubImage(v) || v.image.None?
    ensures r.error.None? ==> r.uploads == [ImageUpload(v.layer.value.id, DefaultEye, TEXTURE_2D, v.image.value)]
    ensures r.error.Some? ==> r.uploads == [] && r.error.value == TypeError
  {
    if binding.None? || !HasSubImage(v) || v.image.None? then Batch([], Some(TypeError))
    else Batch([ImageUpload(v.layer.value.id, DefaultEye, TEXTURE_2D, v.image.value)], None)
  }

  /** `drawWebXRLayer`: dispatch on the `type` tag. */
  function DrawLayer(v: LayerView, binding: Option<Binding>): (r: Batch)
    // each known tag selects its own draw function
    ensures v.typeTag == EQUIRECT_TAG ==> r == DrawEquirect(v, binding)
    ensures v.typeTag == CUBE_TAG ==> r == DrawCube(v, binding)
    ensures v.typeTag == QUAD_TAG ==> r == DrawQuad(v, binding)
    // an unknown tag draws nothing and does not throw
    ensures v.typeTag != EQUIRECT_TAG && v.typeTag != CUBE_TAG && v.typeTag != QUAD_TAG ==> r == Batch([], None)
    // whatever is drawn goes to this layer's own sub-images
    ensures r.uploads != [] ==> HasSubImage(v) && AllFor(r.uploads, v.layer.value.id)
    ensures r.error.Some? ==> r.error.value == TypeError
  {
    if v.typeTag == EQUIRECT_TAG then DrawEquirect(v, binding)
    else if v.typeTag == CUBE_TAG then
      var r := DrawCube(v, binding);
      assert r.uploads != [] ==> AllFor(r.uploads, v.layer.value.id) by {
        if r.uploads != [] {
          var left := v.cubeTexture.value.faces;
          assert r.uploads[..ReadyFaces(left)] + r.uploads[ReadyFaces(left)..] == r.uploads;
        }
      }
      r
    else if v.typeTag == QUAD_TAG then DrawQuad(v, binding)
    else Batch([], None)
  }

  /** One pass of the loop at index.js:332-337: reading `needsRedraw` of a
      null layer throws; a layer that needs a redraw is drawn. */
  function Visit(before: Batch, v: LayerView, needs: set<nat>, binding: Option<Binding>): (r: Batch)
    requires before.error.None?
    // the uploads so far are kept, and a pass only adds to them
    ensures |before.uploads| <= |r.uploads| && r.uploads[..|before.uploads|] == before.uploads
    // a missing layer throws; a layer not flagged is skipped
    ensures v.layer.None? ==> r == Batch(before.uploads, Some(TypeError))
    ensures v.layer.Some? && !NeedsRedraw(v.layer.value, needs) ==> r == before
    // what a pass adds goes to this view's layer
    ensures |r.uploads| > |before.uploads| ==>
              v.layer.Some? && NeedsRedraw(v.layer.value, needs) && AllFor(r.uploads[|before.uploads|..], v.layer.value.id)
    ensures r.error.Some? ==> r.error.value == TypeError
  {
    if v.layer.None? then Batch(before.uploads, Some(TypeError))
    else if NeedsRedraw(v.layer.value, needs) then
      var drawn := DrawLayer(v, binding);
      Batch(before.uploads + drawn.uploads, drawn.error)
    else before
  }

  /** The redraw loop over `activeLayers` (as views), pass by pass; an
      exception ends the loop. */
  function Frame(views: seq<LayerView>, needs: set<nat>, binding: Option<Binding>): (r: Batch)
    // the only exception the redraw loop can raise is a TypeError
    ensures r.error.Some? ==> r.error.value == TypeError
    decreases |views|
  {
    if views == [] then Batch([], None)
    else
      var before := Frame(views[..|views| - 1], needs, binding);
      if before.error.Some? then before else Visit(before, views[|views| - 1], needs, binding)
  }

  /** The active layers that are drawn: those whose layer needs a redraw, in
      array order. */
  function Redrawn(views: seq<LayerView>, needs: set<nat>): (r: seq<LayerView>)
    ensures forall i :: 0 <= i < |r| ==> r[i] in views && r[i].layer.Some? && NeedsRedraw(r[i].layer.value, needs)
    decreases |views|
  {
    if views == [] then []
    else
      var rest := Redrawn(views[1..], needs);
      assert forall v :: v in rest ==> v in views by {
        forall v | v in rest ensures v in views {
          assert v in views[1..];
        }
      }
      if views[0].layer.Some? && NeedsRedraw(views[0].layer.value, needs) then [views[0]] + rest else rest
  }

  /** The uploads of drawing `views` one after the other. */
  function AllUploads(views: seq<LayerView>, binding: Option<Binding>): seq<Upload>
    decreases |views|
  {
    if views == [] then [] else DrawLayer(views[0], binding).uploads + AllUploads(views[1..], binding)
  }

  /** One pass over `v` cannot fail: its layer exists and, when it needs a
      redraw, drawing it does not throw. */
  predicate PassSucceeds(v: LayerView, needs: set<nat>, binding: Option<Binding>) {
    v.layer.Some? && (NeedsRedraw(v.layer.value, needs) ==> DrawLayer(v, binding).error.None?)
  }

  /** No pass of the loop can fail. */
  predicate Drawable(views: seq<LayerView>, needs: set<nat>, binding: Option<Binding>) {
    forall i :: 0 <= i < |views| ==> PassSucceeds(views[i], needs, binding)
  }

  lemma {:induction false} RedrawnSnoc(views: seq<LayerView>, v: LayerView, needs: set<nat>)
    ensures Redrawn(views + [v], needs)
            == Redrawn(views, needs) + (if v.layer.Some? && NeedsRedraw(v.layer.value, needs) then [v] else [])
    decreases |views|
  {
    if views == [] {
      assert [v][1..] == [];
    } else {
      assert (views + [v])[1..] == views[1..] + [v];
      RedrawnSnoc(views[1..], v, needs);
    }
  }

  lemma {:induction false} AllUploadsAppend(a: seq<LayerView>, b: seq<LayerView>, binding: Option<Binding>)
    ensures AllUploads(a + b, binding) == AllUploads(a, binding) + AllUploads(b, binding)
    decreases |a|
  {
    if a == [] {
      assert a + b == b;
    } else {
      assert (a + b)[1..] == a[1..] + b;
      AllUploadsAppend(a[1..], b, binding);
    }
  }

  /** A frame throws exactly when one of its passes would. */
  lemma {:induction false} FrameFailsOnlyOnFailingPass(views: seq<LayerView>, needs: set<nat>, binding: Option<Binding>)
    ensures Frame(views, needs, binding).error.None? <==> Drawable(views, needs, binding)
    decreases |views|
  {
    if views != [] {
      var init := views[..|views| - 1];
      var v := views[|views| - 1];
      FrameFailsOnlyOnFailingPass(init, needs, binding);
      assert forall i :: 0 <= i < |init| ==> init[i] == views[i];
      assert Drawable(views, needs, binding) <==>
               Drawable(init, needs, binding) && PassSucceeds(v, needs, binding);
    }
  }

  /** When a frame does not throw, it uploads, in order, what drawing each
      active layer that needs a redraw uploads, and nothing for the others. */
  lemma {:induction false} FrameDrawsExactlyRedrawn(views: seq<LayerView>, needs: set<nat>, binding: Option<Binding>)
    requires Frame(views, needs, binding).error.None?
    ensures Frame(views, needs, binding).uploads == AllUploads(Redrawn(views, needs), binding)
    decreases |views|
  {
    if views != [] {
      var init := views[..|views| - 1];
      var v := views[|views| - 1];
      assert views == init + [v];
      FrameDrawsExactlyRedrawn(init, needs, binding);
      RedrawnSnoc(init, v, needs);
      var picked := if v.layer.Some? && NeedsRedraw(v.layer.value, needs) then [v] else [];
      AllUploadsAppend(Redrawn(init, needs), picked, binding);
      if picked != [] {
        assert AllUploads(picked, binding) == DrawLayer(v, binding).uploads + AllUploads([], binding);
      }
    }
  }

  /** Whatever happens in a frame, every upload goes to a layer that needs
      a redraw. */
  lemma {:induction false} FrameOnlyTouchesRedrawn(views: seq<LayerView>, needs: set<nat>, binding: Option<Binding>)
    ensures forall i :: 0 <= i < |Frame(views, needs, binding).uploads| ==>
              Frame(views, needs, binding).uploads[i].layerId in needs
    decreases |views|
  {
    if views != [] {
      var init := views[..|views| - 1];
      var v := views[|views| - 1];
      FrameOnlyTouchesRedrawn(init, needs, binding);
      var before := Frame(init, needs, binding);
      if before.error.None? && v.layer.Some? && NeedsRedraw(v.layer.value, needs) {
        var drawn := DrawLayer(v, binding);
        var all := before.uploads + drawn.uploads;
        forall i | 0 <= i < |all| ensures all[i].layerId in needs {
          if i >= |before.uploads| {
            assert all[i] == drawn.uploads[i - |before.uploads|];
          }
        }
      }
    }
  }
}

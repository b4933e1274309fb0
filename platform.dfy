/** Opaque values handed out by the browser: WebXR bindings and spaces,
    GPU byte buffers, decoded textures and DOM images. Only the fields the
    pages read are kept. */
module Platform {

  /** The XRWebGLBinding of a session. */
  datatype Binding = Binding(id: nat)

  /** An XRReferenceSpace. */
  datatype Space = Space(id: nat)

  /** Identity of a byte buffer (a mip level's `data`); contents are not modelled. */
  datatype DataRef = DataRef(id: nat)

  /** One mip level. */
  datatype Level = Level(width: nat, height: nat, data: DataRef)

  /** One face `source.data[k]` of a cube texture: its size and its own mip
      levels (the draw code uploads level 0). */
  datatype CubeFace = CubeFace(width: nat, height: nat, mipmaps: seq<Level>)

  /** A texture produced by the KTX2 loader: its numeric `format`, its `mipmaps`
      and, for a cube texture, its faces `source.data`. */
  datatype Texture = Texture(format: int, mipmaps: seq<Level>, faces: seq<CubeFace>)

  /** A loaded HTML image. */
  datatype ImageElement = ImageElement(src: string, width: nat, height: nat)
}

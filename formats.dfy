/** The `supportedCompressedFormats` table and the `eval` of its entries.
    index.js:113-120 and the copies at indext.js:326-333 and
    hd-test-index.js:289-296 map a texture's numeric `format` to the
    source text of a WebGL enum, which the pages then `eval`. The text is
    replaced by an enumeration; `Eval` gives what evaluating it yields. */
module Formats {
  import opened Common

  /** The strings stored in the table. */
  datatype FormatName =
    | EtcRgba8Eac        // "ETC_EXT.COMPRESSED_RGBA8_ETC2_EAC"
    | EtcRgb8            // "ETC_EXT.COMPRESSED_RGB8_ETC2"
    | AstcSrgb8Alpha8x4  // "ASTC_EXT.COMPRESSED_SRGB8_ALPHA8_ASTC_4x4_KHR"
    | SrgbIdentifier     // "srgb" (index.js only)
    | GlRgba             // "gl.RGBA " (indext.js and hd-test-index.js)

  /** The two versions of the table: index.js's, and the test pages' one. */
  datatype Table = ViewerTable | TestPageTable

  /** Whether `getExtension` returned an object for ASTC and for ETC. */
  datatype Extensions = Extensions(astc: bool, etc: bool)

  // WebGL enum values the table's entries evaluate to.
  const COMPRESSED_RGB8_ETC2: int := 0x9274               // 37492
  const COMPRESSED_RGBA8_ETC2_EAC: int := 0x9278          // 37496
  const COMPRESSED_SRGB8_ALPHA8_ASTC_4x4: int := 0x93D0   // 37840
  const RGBA: int := 0x1908                               // 6408

  /** The four keys of the table. */
  predicate Supported(code: int) {
    code == 37496 || code == 37492 || code == 37808 || code == 1023
  }

  /** `supportedCompressedFormats.get(code)`. */
  function Lookup(table: Table, code: int): (r: Option<FormatName>)
    ensures r.Some? <==> Supported(code)
    ensures r == Some(SrgbIdentifier) <==> table.ViewerTable? && code == 1023
    ensures r == Some(GlRgba) <==> table.TestPageTable? && code == 1023
  {
    if code == 37496 then Some(EtcRgba8Eac)
    else if code == 37492 then Some(EtcRgb8)
    else if code == 37808 then Some(AstcSrgb8Alpha8x4)
    else if code == 1023 then (if table.ViewerTable? then Some(SrgbIdentifier) else Some(GlRgba))
    else None
  }

  /** `eval(name)`: reading a constant of an extension object that
      `getExtension` did not return throws a TypeError, the free identifier
      `srgb` throws a ReferenceError, and `eval(undefined)` is undefined. */
  function Eval(name: Option<FormatName>, ext: Extensions): (r: Result<Option<int>>)
    // only an absent entry evaluates to undefined
    ensures r == Ok(None) <==> name.None?
    // a value is always one of the four WebGL format enums of the table
    ensures r.Ok? && r.value.Some? ==>
              r.value.value in {COMPRESSED_RGBA8_ETC2_EAC, COMPRESSED_RGB8_ETC2, COMPRESSED_SRGB8_ALPHA8_ASTC_4x4, RGBA}
    // the free identifier is the only ReferenceError; a missing extension object is a TypeError
    ensures r == Err(ReferenceError) <==> name == Some(SrgbIdentifier)
    ensures r == Err(TypeError) <==>
              ((name == Some(EtcRgba8Eac) || name == Some(EtcRgb8)) && !ext.etc)
              || (name == Some(AstcSrgb8Alpha8x4) && !ext.astc)
  {
    match name
    case None => Ok(None)
    case Some(EtcRgba8Eac) => if ext.etc then Ok(Some(COMPRESSED_RGBA8_ETC2_EAC)) else Err(TypeError)
    case Some(EtcRgb8) => if ext.etc then Ok(Some(COMPRESSED_RGB8_ETC2)) else Err(TypeError)
    case Some(AstcSrgb8Alpha8x4) => if ext.astc then Ok(Some(COMPRESSED_SRGB8_ALPHA8_ASTC_4x4)) else Err(TypeError)
    case Some(SrgbIdentifier) => Err(ReferenceError)
    case Some(GlRgba) => Ok(Some(RGBA))
  }

  /** `eval(supportedCompressedFormats.get(code))`, the format every page
      derives from a loaded texture. */
  function Resolve(table: Table, code: int, ext: Extensions): (r: Result<Option<int>>)
    // a code outside the table gives no format, and no exception
    ensures !Supported(code) ==> r == Ok(None)
    // exactly these cases throw
    ensures r.Err? <==>
              (table.ViewerTable? && code == 1023)
              || ((code == 37496 || code == 37492) && !ext.etc)
              || (code == 37808 && !ext.astc)
    ensures r == Err(ReferenceError) <==> table.ViewerTable? && code == 1023
    // the ETC2 codes are their own enum values; the ASTC 4x4 code becomes the sRGB variant
    ensures (code == 37496 || code == 37492) && ext.etc ==> r == Ok(Some(code))
    ensures code == 37808 && ext.astc ==> r == Ok(Some(COMPRESSED_SRGB8_ALPHA8_ASTC_4x4))
    ensures code == 1023 && table.TestPageTable? ==> r == Ok(Some(RGBA))
  {
    Eval(Lookup(table, code), ext)
  }
}

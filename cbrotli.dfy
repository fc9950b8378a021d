/**
 * The cgo variant of the middleware (package brotli, over the native
 * encoder): its options are only the encoder's, and the skip list is a fixed
 * switch over six extensions.
 */
module CBrotli {
  import opened ByteStrings
  import opened FilePath
  import opened Decision
  import opened Interceptor
  import GinBrotli

  /** Options is the native encoder's option type. */
  type Options = WriterOptions

  /** DefaultCompression: Quality 10, LGWin 11. */
  const DefaultCompression: Options := WriterOptions(10, 11)

  /**
   * The default options: Quality 10 and LGWin 11, the same window as the
   * other variant's default and a slower, higher quality than its 4.
   */
  lemma DefaultCompressionSettings()
    ensures DefaultCompression == WriterOptions(10, 11)
    ensures DefaultCompression.lgwin == GinBrotli.DefaultCompression.writerOptions.lgwin
    ensures DefaultCompression.quality > GinBrotli.DefaultCompression.writerOptions.quality
  {
  }

  /**
   * The switch of shouldCompress: the six extensions that are never
   * compressed. They are exactly the default skip list of the other variant,
   * and none is short enough for the fast path to hide it.
   */
  predicate Skipped(extension: ByteString)
    ensures Skipped(extension) <==> extension in GinBrotli.DefaultCompression.skipExtensions
    ensures Skipped(extension) ==> |extension| >= FastPathLength
  {
    match extension
    case ".png" | ".gif" | ".jpeg" | ".jpg" | ".mp3" | ".mp4" => true
    case _ => false
  }

  /**
   * shouldCompress(req): the header rules, the fast path, then the switch.
   * Each of the header rules and a switch extension turn compression off.
   */
  function ShouldCompress(req: Request): (r: bool)
    ensures HeadersForbid(req) ==> !r
    ensures Skipped(Ext(req.path)) ==> !r
  {
    if HeadersForbid(req) then false
    else
      var extension := Ext(req.path);
      if |extension| < FastPathLength then true
      else !Skipped(extension)
  }

  /**
   * The decision in terms of the reference definition of an extension: once
   * the header rules pass, compression is off exactly for the six listed
   * extensions, the fast path notwithstanding.
   */
  lemma ShouldCompressByExtension(req: Request, ext: string)
    requires IsExtension(req.path, ext)
    ensures ShouldCompress(req) <==>
      !HeadersForbid(req) && ext !in {".png", ".gif", ".jpeg", ".jpg", ".mp3", ".mp4"}
  {
    ExtensionUnique(req.path, ext, Ext(req.path));
  }

  /** The same three header rules as the other variant rule compression out. */
  lemma HeaderRulesShared(req: Request, options: GinBrotli.Options)
    requires HeadersForbid(req)
    ensures !ShouldCompress(req) && !GinBrotli.ShouldCompress(req, options)
  {
  }

  /**
   * The two variants agree when the pure-Go one runs with its default
   * options: the switch lists exactly its default skip extensions.
   */
  lemma VariantsAgree(req: Request)
    ensures ShouldCompress(req) == GinBrotli.ShouldCompress(req, GinBrotli.DefaultCompression)
  {
  }

  /** Only the final element of the path matters to the decision. */
  lemma DirectoriesIgnored(req: Request, dir: ByteString)
    ensures ShouldCompress(req.(path := dir + "/" + req.path)) == ShouldCompress(req)
  {
    ExtUnderDirectory(dir, req.path);
  }

  /** The Brotli closure up to c.Next(), as in the other variant. */
  method Brotli(c: Context, options: Options) returns (compressor: Compressor?)
    requires c.Valid() && c.wrapper == null
    modifies c, c.base
    ensures (compressor != null) == ShouldCompress(c.request)
    ensures compressor == null ==>
      c.wrapper == null && c.base.header == old(c.base.header)
      && c.base.status == old(c.base.status) && c.base.body == old(c.base.body)
    ensures compressor != null ==> Intercepted(c, compressor, WriterOptions(options.quality, options.lgwin))
  {
    if !ShouldCompress(c.request) {
      return null;
    }
    compressor := Intercept(c, WriterOptions(options.quality, options.lgwin));
  }
}

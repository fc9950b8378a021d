/**
 * The pure-Go variant of the middleware (package gbrotli): its options with a
 * configurable skip list, the skip-list lookup, the compression decision and
 * the Brotli closure.
 */
module GinBrotli {
  import opened ByteStrings
  import opened FilePath
  import opened Decision
  import opened Interceptor

  /** The encoder options plus the extensions never compressed. */
  datatype Options = Options(writerOptions: WriterOptions, skipExtensions: seq<ByteString>)

  /** DefaultCompression: Quality 4, LGWin 11, six media extensions skipped. */
  const DefaultCompression := Options(WriterOptions(4, 11), [".png", ".gif", ".jpeg", ".jpg", ".mp3", ".mp4"])

  /** containsString: scan s in order and stop at the first element equal to e. */
  method ContainsString(s: seq<ByteString>, e: ByteString) returns (found: bool)
    ensures found <==> e in s
  {
    for i := 0 to |s|
      invariant e !in s[..i]
    {
      if s[i] == e {
        return true;
      }
    }
    return false;
  }

  /**
   * shouldCompress(req, options), with containsString as membership. Each of
   * the header rules and a skip-list extension past the fast path turn
   * compression off.
   */
  function ShouldCompress(req: Request, options: Options): (r: bool)
    ensures HeadersForbid(req) ==> !r
    ensures |Ext(req.path)| >= FastPathLength && Ext(req.path) in options.skipExtensions ==> !r
  {
    if HeadersForbid(req) then false
    else
      var extension := Ext(req.path);
      if |extension| < FastPathLength then true
      else extension !in options.skipExtensions
  }

  /**
   * The decision in terms of the reference definition of an extension: once
   * the header rules pass, a short extension is compressed and a long one is
   * compressed exactly when it is not in the skip list.
   */
  lemma ShouldCompressByExtension(req: Request, options: Options, ext: string)
    requires IsExtension(req.path, ext)
    ensures ShouldCompress(req, options) <==>
      !HeadersForbid(req) && (|ext| < FastPathLength || ext !in options.skipExtensions)
  {
    ExtensionUnique(req.path, ext, Ext(req.path));
  }

  /** Without "br" in Accept-Encoding nothing is compressed, whatever else holds. */
  lemma NoBrTokenNoCompression(req: Request, options: Options)
    requires !Contains(req.acceptEncoding, "br")
    ensures !ShouldCompress(req, options)
  {
  }

  /** An upgrade handshake or an event stream is never compressed. */
  lemma UpgradeOrEventStreamNotCompressed(req: Request, options: Options)
    requires Contains(req.connection, "Upgrade") || Contains(req.contentType, "text/event-stream")
    ensures !ShouldCompress(req, options)
  {
  }

  /** The fast path: a short extension is compressed whatever the skip list. */
  lemma FastPathIgnoresSkipList(req: Request, options: Options)
    requires !HeadersForbid(req) && |Ext(req.path)| < FastPathLength
    ensures ShouldCompress(req, options)
  {
  }

  /** Only the final element of the path matters to the decision. */
  lemma DirectoriesIgnored(req: Request, options: Options, dir: ByteString)
    ensures ShouldCompress(req.(path := dir + "/" + req.path), options) == ShouldCompress(req, options)
  {
    ExtUnderDirectory(dir, req.path);
  }

  /** Adding extensions to the skip list can only turn compression off. */
  lemma LongerSkipListCompressesLess(req: Request, options: Options, more: seq<ByteString>)
    ensures ShouldCompress(req, options.(skipExtensions := options.skipExtensions + more)) ==> ShouldCompress(req, options)
  {
  }

  /**
   * The default options: Quality 4 and LGWin 11, and six skip entries, each
   * of them a possible extension (a leading '.') long enough to get past the
   * fast path.
   */
  lemma DefaultCompressionSettings()
    ensures DefaultCompression.writerOptions == WriterOptions(4, 11)
    ensures |DefaultCompression.skipExtensions| == 6
    ensures forall e | e in DefaultCompression.skipExtensions :: |e| >= FastPathLength && e[0] == '.'
  {
  }

  /** The test request carrying "Accept-Encoding: gzip" is served uncompressed. */
  lemma GzipClientNotCompressed(req: Request, options: Options)
    requires req.acceptEncoding == "gzip"
    ensures !ShouldCompress(req, options)
  {
    GzipLacksBrToken();
  }

  /** A "br" client asking for "/image.png" is served uncompressed by default. */
  lemma PngNotCompressed()
    ensures !ShouldCompress(Request("br", "", "", "/image.png"), DefaultCompression)
  {
    ImagePngExtension();
  }

  /** A "br" client asking for "/" or "/reverse" gets compression. */
  lemma PlainRoutesCompressed(path: ByteString)
    requires path == "/" || path == "/reverse"
    ensures ShouldCompress(Request("br", "", "", path), DefaultCompression)
  {
    BrTokenAccepted();
    var p: ByteString := "/reverse";
    assert ExtFrom(p, 7) == ExtFrom(p, 6) == ExtFrom(p, 0) == "";
  }

  /**
   * The Brotli closure up to c.Next(): decide, and when compressing create
   * the encoder with the configured quality and window, announce the
   * encoding and install the interceptor. Otherwise touch nothing.
   */
  method Brotli(c: Context, options: Options) returns (compressor: Compressor?)
    requires c.Valid() && c.wrapper == null
    modifies c, c.base
    ensures (compressor != null) == ShouldCompress(c.request, options)
    ensures compressor == null ==>
      c.wrapper == null && c.base.header == old(c.base.header)
      && c.base.status == old(c.base.status) && c.base.body == old(c.base.body)
    ensures compressor != null ==>
      Intercepted(c, compressor, WriterOptions(options.writerOptions.quality, options.writerOptions.lgwin))
  {
    if !ShouldCompress(c.request, options) {
      return null;
    }
    compressor := Intercept(c, WriterOptions(options.writerOptions.quality, options.writerOptions.lgwin));
  }

  /**
   * A reduced form of the test's handler, then the deferred step, on the
   * context the Brotli closure prepared: the handler announces the
   * uncompressed length in Content-Length, writes status 200 and the payload
   * (the Content-Type that the test's JSON rendering also sets is left out).
   * The encoder takes all the payload, flushing emitted, and writes trailer
   * on Close.
   */
  method HandleWithStaleLength(c: Context, compressor: Compressor?, payload: seq<byte>, emitted: seq<byte>, trailer: seq<byte>)
    requires c.Valid() && c.base.body == [] && (compressor == null <==> c.wrapper == null)
    requires compressor == null ==> c.base.header == map[]
    requires compressor != null ==>
      && c.wrapper.writer == compressor && !compressor.closed
      && c.base.header == map["Content-Encoding" := "br", "Vary" := "Accept-Encoding"]
    modifies c.base, if compressor == null then {} else {compressor}
    ensures c.base.status == 200
    ensures compressor != null ==>
      && c.base.body == emitted + trailer
      && c.base.header == map["Content-Encoding" := "br", "Vary" := "Accept-Encoding", "Content-Length" := Decimal(|c.base.body|)]
    ensures compressor == null ==>
      c.base.body == payload && c.base.header == map["Content-Length" := Decimal(|payload|)]
  {
    c.Header("Content-Length", Decimal(|payload|));
    c.WriteHeader(200);
    var _ := c.Write(payload, EncoderStep(Written(|payload|), emitted));
    if compressor != null {
      Finalize(c, compressor, trailer, Closed);
    }
  }

  /**
   * One request through the middleware and the reduced handler. Compressed,
   * the stale length is gone and Content-Length is the length of what was
   * sent; uncompressed, the handler's headers and payload go out unchanged.
   */
  method ServeWithStaleLength(req: Request, options: Options, payload: seq<byte>, emitted: seq<byte>, trailer: seq<byte>)
    returns (header: map<ByteString, ByteString>, status: int, body: seq<byte>)
    ensures status == 200
    ensures ShouldCompress(req, options) ==>
      && body == emitted + trailer
      && header == map["Content-Encoding" := "br", "Vary" := "Accept-Encoding", "Content-Length" := Decimal(|body|)]
      && ParseDecimal(header["Content-Length"]) == |body|
    ensures !ShouldCompress(req, options) ==>
      body == payload && header == map["Content-Length" := Decimal(|payload|)]
  {
    var base := new ResponseWriter(map[]);
    var c := new Context(req, base);
    var compressor := Brotli(c, options);
    HandleWithStaleLength(c, compressor, payload, emitted, trailer);
    header, status, body := base.header, base.status, base.body;
    ParseDecimalOfDecimal(|body|);
  }
}

/**
 * What both variants of the middleware read from a request, and the three
 * header rules they share before looking at the path.
 */
module Decision {
  import opened ByteStrings
  import opened FilePath

  /**
   * The request headers the decision reads (Header.Get gives "" for a
   * missing header) and the URL path.
   */
  datatype Request = Request(
    acceptEncoding: ByteString,
    connection: ByteString,
    contentType: ByteString,
    path: ByteString)

  /**
   * The first three rules: no "br" in Accept-Encoding, an "Upgrade" in
   * Connection, or "text/event-stream" in the request's Content-Type each
   * rule compression out. A request without Accept-Encoding is ruled out; a
   * "br" request without the other two headers passes.
   */
  predicate HeadersForbid(req: Request)
    ensures req.acceptEncoding == "" ==> HeadersForbid(req)
    ensures Contains(req.acceptEncoding, "br") && req.connection == "" && req.contentType == "" ==>
      !HeadersForbid(req)
  {
    || !Contains(req.acceptEncoding, "br")
    || Contains(req.connection, "Upgrade")
    || Contains(req.contentType, "text/event-stream")
  }

  /** Extensions shorter than this take the fast path and are always compressed. */
  const FastPathLength := 4

  /** The test client's "Accept-Encoding: gzip" holds no "br". */
  lemma GzipLacksBrToken()
    ensures !Contains("gzip", "br")
  {
    forall i | 0 <= i <= 2
      ensures !OccursAt("gzip", "br", i)
    {
      assert "gzip"[i..i + 2][1] == "gzip"[i + 1];
    }
  }

  /** "br" alone is accepted. */
  lemma BrTokenAccepted()
    ensures Contains("br", "br")
  {
    assert OccursAt("br", "br", 0);
  }

  /** The extension of the test path "/image.png". */
  lemma ImagePngExtension()
    ensures Ext("/image.png") == ".png"
  {
    var p: ByteString := "/image.png";
    assert ExtFrom(p, 9) == ExtFrom(p, 6);
    assert p[6..] == ".png";
  }
}

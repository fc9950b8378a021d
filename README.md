# gin-brotli, modelled in Dafny

gin-brotli is a middleware for the Gin web framework that compresses HTTP
responses with Brotli. It comes in two near-identical variants:
`gin_brotli.go` (package `gbrotli`, over the pure-Go encoder) and
`brotli.go` (package `brotli`, over the native `cbrotli` binding). Each
variant has two parts:

- **The decision `shouldCompress`.** It returns false when the request's
  `Accept-Encoding` does not contain `"br"`, when its `Connection` contains
  `"Upgrade"`, or when its `Content-Type` contains `"text/event-stream"`.
  Otherwise it takes `filepath.Ext` of the URL path. An extension shorter
  than 4 bytes is always compressed (the fast path). A longer one is
  compressed unless it is in the skip list. In `gin_brotli.go` the skip list
  is `Options.SkipExtensions`, searched by `containsString`. In `brotli.go`
  it is a fixed `switch` over `.png .gif .jpeg .jpg .mp3 .mp4`.
- **The interceptor.** On the compress path the `Brotli` closure creates an
  encoder on the current writer. It sets `Content-Encoding: br` and
  `Vary: Accept-Encoding`, and replaces `c.Writer` by a `brotliWriter`.
  That writer routes `Write`/`WriteString` into the encoder. Its
  `WriteHeader` deletes `Content-Length` before forwarding the status code.
  A deferred step runs after the downstream handlers. It closes the encoder
  and then sets `Content-Length` to the writer's `Size()`.

Module layout:

- `byte_strings.dfy` (`ByteStrings`): Go strings as `ByteString`, a `string`
  whose every character is one octet, so its length is Go's `len`. It also
  holds `strings.Contains` as a predicate over offsets, and `fmt.Sprint` of
  a non-negative int as `Decimal`. `Decimal` has an inverse `ParseDecimal`.
- `file_path.dfy` (`FilePath`): `filepath.Ext`. `ExtFrom` is the backward
  scan of Go's loop. `IsExtension` is an independent reference definition:
  the suffix from the last `.` of the final path element, or empty.
- `decision.dfy` (`Decision`): the request view both variants read, and the
  three header rules the variants share word for word.
- `interceptor.dfy` (`Interceptor`): the response-writer state, the encoder
  as an abstract object, `brotliWriter`, the gin context's writer slot, and
  both halves of the `Brotli` closure. Both variants use this code
  unchanged. The writer state is the header map, the status and the bytes
  on the wire.
- `gin_brotli.dfy` (`GinBrotli`) and `cbrotli.dfy` (`CBrotli`): each
  variant's options, `DefaultCompression`, decision and `Brotli` entry point.

The request lifecycle is an explicit sequence of calls. `Brotli` decides and
either changes nothing (pass-through) or announces the encoding and installs
the interceptor. That is the state in which Content-Encoding and Vary are
set; `Brotli` itself writes no body byte. The caller then makes the handler's
calls through `Context`. `Finalize` is the deferred step, after which the
encoder is closed and Content-Length has been rewritten.

The encoder is a foreign library. Each `Write` is given an `EncoderStep`
parameter: the `(n, err)` the encoder reports and the compressed bytes it
flushes to the sink during that call. `Close` is given the trailer bytes it
flushes. The model assumes the encoder refuses writes after `Close`, with
`WriterClosed`.

Three points of the code that are easy to misread, followed as written:

- The event-stream test reads the *request's* `Content-Type` header
  (gin_brotli.go:87, brotli.go:71), not the response's.
- Quality and LGWin are passed to the encoder without any range check
  (gin_brotli.go:58-61, brotli.go:51-54). The model does not reject
  out-of-range values at construction.
- The error returned by the encoder's `Close` is discarded
  (gin_brotli.go:68).

The constants: `GinBrotli.DefaultCompression` is Quality 4, LGWin 11, with
the six skip extensions (gin_brotli.go:35-41).
`CBrotli.DefaultCompression` is Quality 10, LGWin 11 (brotli.go:34-37).

## Model

| member | source | states |
|---|---|---|
| `ByteStrings.Contains` | gin_brotli.go:85 | strings.Contains holds exactly when some slice of the string equals the substring. So the empty string is in every string, and nothing longer than the string is in it. |
| `ByteStrings.ContainsInContext` | gin_brotli.go:85 | The test is a raw substring test: a value that contains "br" still passes with any text before or after it, such as other codings in a list. |
| `ByteStrings.Decimal` | gin_brotli.go:69 | fmt.Sprint of a size is a non-empty string of decimal digits with no leading zero. |
| `ByteStrings.ParseDecimalOfDecimal` | gin_brotli.go:69 | A client that reads the Content-Length digits back gets exactly the number that was rendered. |
| `ByteStrings.DecimalInjective` | gin_brotli.go:69 | Distinct sizes give distinct Content-Length values, so the header determines the body length. |
| `FilePath.ExtensionUnique` | gin_brotli.go:92 | A path has at most one extension under the reference definition. |
| `FilePath.ExtFrom` | gin_brotli.go:92 | The backward scan returns "" or a suffix starting with '.', found at or before the scan index and no longer than the path. `FilePath.ExtFromIsExtension` proves that the scan yields the reference extension. |
| `FilePath.ExtFromIsExtension` | gin_brotli.go:92 | The backward scan that stops at '/' or '.' yields the reference extension, once everything after the scan index is neither '.' nor '/'. |
| `FilePath.Ext` | gin_brotli.go:92 | filepath.Ext(path) is the extension of the path under the reference definition. |
| `FilePath.ExtShape` | gin_brotli.go:92 | The extension is empty or starts with '.', and it is a suffix of the path. |
| `FilePath.ExtUnderDirectory` | gin_brotli.go:92 | Prefixing directories to a path does not change its extension. |
| `Decision.HeadersForbid` | gin_brotli.go:85-87 | The three header rules shared by both variants. A request without Accept-Encoding is ruled out. A request whose Accept-Encoding contains "br", with no Connection or Content-Type header, passes. Each rule on its own is covered by `GinBrotli.NoBrTokenNoCompression` and `GinBrotli.UpgradeOrEventStreamNotCompressed`. Same code as brotli.go:69-71. |
| `Decision.GzipLacksBrToken` | gin_brotli_test.go:139 | The test's "gzip" Accept-Encoding does not contain "br". |
| `Decision.BrTokenAccepted` | gin_brotli_test.go:92 | The test's "br" Accept-Encoding contains "br". |
| `Decision.ImagePngExtension` | gin_brotli.go:92 | The extension of "/image.png" is ".png". |
| `Interceptor.Compressor.Write` | gin_brotli.go:23 | A closed encoder refuses with WriterClosed and changes nothing. An open one accepts the reported prefix of the data and appends its flushed bytes to the sink in call order. It leaves headers and status alone and reports its (n, err) unchanged. |
| `Interceptor.Compressor.Close` | gin_brotli.go:68 | Close ends the stream and flushes the trailer to the sink. It accepts no further input and leaves headers and status alone. |
| `Interceptor.BrotliWriter.Write` | gin_brotli.go:22-24 | Write(data) is exactly one encoder Write of data, and its count and error are passed back unchanged. |
| `Interceptor.BrotliWriter.WriteString` | gin_brotli.go:18-20 | WriteString(s) has exactly the effect and result of Write([]byte(s)). |
| `Interceptor.BrotliWriter.WriteHeader` | gin_brotli.go:27-30 | WriteHeader(code) removes Content-Length, keeps every other header, sets the status to code and writes no body byte. Same code as brotli.go:27-30. |
| `Interceptor.Context.Header` | gin_brotli.go:63-64 | c.Header sets the header on the original writer, or deletes it when the value is empty. Nothing else changes. |
| `Interceptor.Context.Write` | gin_brotli.go:65 | Once c.Writer has been replaced, a handler's Write goes into the encoder. Before that, it goes straight to the sink and reports the full length. |
| `Interceptor.Context.WriteString` | gin_brotli.go:65 | The same dispatch for WriteString: it goes into the encoder once c.Writer is replaced, and straight to the sink before. |
| `Interceptor.Context.WriteHeader` | gin_brotli.go:65 | After replacement a handler's WriteHeader also drops Content-Length. Before it, only the status changes. |
| `Interceptor.Intercept` | gin_brotli.go:58-65 | A fresh, open, empty encoder is bound to the original writer with the given options. Content-Encoding is "br" and Vary is "Accept-Encoding", set before any body byte. The interceptor is installed around the original writer. Same code as brotli.go:51-58. |
| `Interceptor.Finalize` | gin_brotli.go:67-70 | The encoder is closed first, and its trailer reaches the sink. Then Content-Length is set to the decimal number of bytes on the sink, and every other header is kept. Same code as brotli.go:60-63. |
| `GinBrotli.ContainsString` | gin_brotli.go:75-82 | The result is true exactly when some element of the list equals e. The loop stops at the first match. |
| `GinBrotli.ShouldCompress` | gin_brotli.go:84-102 | shouldCompress is false when a header rule forbids compression, or when the extension is at least 4 bytes long and in SkipExtensions. The complete decision is `GinBrotli.ShouldCompressByExtension`. The fast path is `GinBrotli.FastPathIgnoresSkipList`. The rules are `GinBrotli.NoBrTokenNoCompression` and `GinBrotli.UpgradeOrEventStreamNotCompressed`. |
| `GinBrotli.ShouldCompressByExtension` | gin_brotli.go:84-102 | For any extension of the path under the reference definition, compression applies iff no header rule forbids it and the extension is shorter than 4 or not in SkipExtensions. |
| `GinBrotli.NoBrTokenNoCompression` | gin_brotli.go:85 | Without "br" in Accept-Encoding the result is false, whatever the other headers, path and options. |
| `GinBrotli.UpgradeOrEventStreamNotCompressed` | gin_brotli.go:86-90 | "Upgrade" in Connection or "text/event-stream" in Content-Type gives false, whatever the path. |
| `GinBrotli.FastPathIgnoresSkipList` | gin_brotli.go:92-95 | When the header rules pass and the extension is shorter than 4, the result is true for every skip list. |
| `GinBrotli.DirectoriesIgnored` | gin_brotli.go:92 | The decision depends only on the final element of the path. |
| `GinBrotli.LongerSkipListCompressesLess` | gin_brotli.go:97-101 | Extending SkipExtensions can only turn compression off, never on. |
| `GinBrotli.DefaultCompressionSettings` | gin_brotli.go:35-41 | DefaultCompression is Quality 4 and LGWin 11 with six skip extensions. Each starts with '.', so it can be an extension, and each is at least 4 bytes long, so the fast path never hides it. |
| `GinBrotli.GzipClientNotCompressed` | gin_brotli_test.go:136-148 | A request with Accept-Encoding "gzip" is never compressed, for any path and options. |
| `GinBrotli.PngNotCompressed` | gin_brotli.go:97-98 | A "br" request for "/image.png" is not compressed with DefaultCompression. |
| `GinBrotli.PlainRoutesCompressed` | gin_brotli_test.go:91-92 | A "br" request for "/" (these lines) or "/reverse" (gin_brotli_test.go:164-165) is compressed with DefaultCompression. |
| `GinBrotli.Brotli` | gin_brotli.go:51-65 | The interceptor is installed iff shouldCompress holds, using the configured Quality and LGWin. Otherwise headers, status, body and c.Writer are untouched. |
| `GinBrotli.HandleWithStaleLength` | gin_brotli_test.go:61-65 | A reduced form of the test's "/" handler, then the deferred step. The handler sets the uncompressed Content-Length, writes status 200 and then the payload. The Content-Type that c.JSON also sets is left out. Compressed, the sink holds the flushed bytes and the trailer, and the headers are exactly Content-Encoding, Vary and the new Content-Length. Uncompressed, the sink holds the payload and the only header is the handler's Content-Length. |
| `GinBrotli.ServeWithStaleLength` | gin_brotli_test.go:89-103 | With the reduced test handler (no Content-Type), which sets the uncompressed Content-Length and then writes, the final response is fixed. Compressed: Content-Encoding "br", Vary "Accept-Encoding", and Content-Length the decimal length of the bytes sent, which parses back to that length. The stale length is gone. Pass-through: the handler's payload and Content-Length unchanged, with no Content-Encoding or Vary. Status is 200 either way. |
| `CBrotli.DefaultCompressionSettings` | brotli.go:34-37 | DefaultCompression is Quality 10 and LGWin 11: the same window as the other variant's default, and a higher quality than its 4. |
| `CBrotli.Skipped` | brotli.go:81-86 | The switch lists exactly the other variant's default SkipExtensions, and each of its extensions is at least 4 bytes long. |
| `CBrotli.ShouldCompress` | brotli.go:68-87 | shouldCompress is false when a header rule forbids compression, or when the extension is one of the switch's six. The complete decision is `CBrotli.ShouldCompressByExtension`. Agreement with the other variant is `CBrotli.VariantsAgree`. |
| `CBrotli.ShouldCompressByExtension` | brotli.go:68-87 | For any extension of the path, compression applies iff no header rule forbids it and the extension is none of the six listed ones. The fast path does not change the outcome. |
| `CBrotli.HeaderRulesShared` | brotli.go:69-74 | The three header rules rule compression out in this variant, and in the other variant with any options. |
| `CBrotli.VariantsAgree` | brotli.go:81-86 | This shouldCompress equals the other variant's shouldCompress with its DefaultCompression, for every request. |
| `CBrotli.DirectoriesIgnored` | brotli.go:76 | The decision depends only on the final element of the path. |
| `CBrotli.Brotli` | brotli.go:44-58 | The interceptor is installed iff shouldCompress holds, using the given Quality and LGWin. Otherwise nothing is touched. |

## Left out

- The Brotli encoding itself (`brotli.NewWriterOptions`, `cbrotli.NewWriter`, the encoder's `Write` and `Close`): the encoder is a foreign library. Its output is a parameter, so nothing is claimed about the compressed bytes, and decompression round trips cannot be stated.
- The encoder's internal buffering: the bytes it holds between calls are folded into what each `EncoderStep` and `Close` emits.
- Gin and net/http machinery: `c.Next()` dispatch, the rest of the `ResponseWriter` interface, header-key canonicalisation, and gin's handling of non-positive or late status codes. The keys used here are already canonical. A header set after body bytes have gone out may never reach the wire, and the model does not capture that either. `WriteHeader` on the original writer just records the code.
- The original writer never fails: a write that passes straight through (`Interceptor.ResponseWriter.Write`, and `Interceptor.Context.Write` and `WriteString` before interception) always reports the full length with no error. gin's writer reports whatever the connection accepted, with its error. Connection failures are not modelled on the pass-through path. The compressed path does model a short or failed write through `EncoderStep`.
- `Size()`: gin's "nothing written yet" value is not modelled. `Size()` is the number of bytes on the sink.
- Two interceptors around one request: `Brotli` requires that `c.Writer` has not already been replaced.
- Go `defer` and panic unwinding: finalization is the explicit `Finalize` step that the caller runs after the downstream calls.
- Concurrency across requests: options are read-only values.
- `filepath.Ext` on Windows, where `\` is also a separator: the model uses `/` only.
- `GinBrotli.ContainsString`: for a bool result, stopping at the first match cannot be observed. The loop invariant states that no earlier element matched, and `GinBrotli.ShouldCompress` uses list membership, which `ContainsString` is proved to compute.
- `example/example.go`, the test file's recorders, reverse proxy and benchmark: these are glue. The tests appear only as the scenario lemmas and `GinBrotli.ServeWithStaleLength`.

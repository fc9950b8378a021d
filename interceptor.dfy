/**
 * The response side of the middleware, shared by both variants: the
 * framework's response writer (header map, status, bytes on the wire), the
 * Brotli encoder as an abstract object, the brotliWriter wrapper that the
 * middleware installs in place of c.Writer, and the two halves of the Brotli
 * closure around the downstream handlers: announcing the encoding, and the
 * deferred close-then-Content-Length step.
 */
module Interceptor {
  import opened ByteStrings
  import opened Decision

  /** The two encoder parameters the middleware passes on (Quality, LGWin). */
  datatype WriterOptions = WriterOptions(quality: int, lgwin: int)

  datatype IoError = WriterClosed | SinkError(reason: ByteString)

  /** Go's (n int, err error) of a Write: n bytes accepted, then maybe an error. */
  datatype WriteResult = Written(n: nat) | WriteFailed(n: nat, err: IoError)

  datatype CloseResult = Closed | CloseFailed(err: IoError)

  /**
   * What the encoder does with one Write call: what it reports, and the
   * compressed bytes it flushes to the sink meanwhile. The encoder is a
   * foreign library; this value stands for its choice.
   */
  datatype EncoderStep = EncoderStep(result: WriteResult, emitted: seq<byte>)

  /** The io.Writer contract a step keeps for a buffer of length len. */
  predicate StepFits(len: nat, step: EncoderStep) {
    && step.result.n <= len
    && (step.result.Written? ==> step.result.n == len)
  }

  /**
   * gin's response writer, reduced to what the middleware touches: the
   * header map, the status code and the bytes that reached the connection.
   */
  class ResponseWriter {
    var header: map<ByteString, ByteString>
    var status: int
    var body: seq<byte>

    constructor (header: map<ByteString, ByteString>)
      ensures this.header == header && status == 200 && body == []
    {
      this.header := header;
      status := 200;
      body := [];
    }

    /** Header().Set(key, value). */
    method Set(key: ByteString, value: ByteString)
      modifies this
      ensures header == old(header)[key := value]
      ensures status == old(status) && body == old(body)
    {
      header := header[key := value];
    }

    /** Header().Del(key). */
    method Del(key: ByteString)
      modifies this
      ensures header == old(header) - {key}
      ensures status == old(status) && body == old(body)
    {
      header := header - {key};
    }

    method WriteHeader(code: int)
      modifies this
      ensures status == code
      ensures header == old(header) && body == old(body)
    {
      status := code;
    }

    method Write(data: seq<byte>) returns (n: nat)
      modifies this
      ensures n == |data| && body == old(body) + data
      ensures header == old(header) && status == old(status)
    {
      body := body + data;
      n := |data|;
    }

    /** Size(): the number of body bytes written so far. */
    function Size(): nat
      reads this
    {
      |body|
    }
  }

  /**
   * The Brotli encoder bound to the writer it flushes into. input is every
   * byte it has accepted; what it emits is left to the EncoderStep of each
   * call and the trailer of Close.
   */
  class Compressor {
    const dst: ResponseWriter
    const options: WriterOptions
    var input: seq<byte>
    var closed: bool

    /** Creating the encoder writes nothing. */
    constructor (dst: ResponseWriter, options: WriterOptions)
      ensures this.dst == dst && this.options == options
      ensures input == [] && !closed
    {
      this.dst := dst;
      this.options := options;
      input := [];
      closed := false;
    }

    /**
     * The effect of one Write(data) that reported r: a closed encoder refuses
     * and changes nothing; an open one accepts the first r.n bytes, appends
     * what it emitted to the sink, and reports what the step says.
     */
    twostate predicate Accepted(data: seq<byte>, step: EncoderStep, r: WriteResult)
      reads this, dst
    {
      && closed == old(closed)
      && dst.header == old(dst.header) && dst.status == old(dst.status)
      && (old(closed) ==>
            r == WriteFailed(0, WriterClosed) && input == old(input) && dst.body == old(dst.body))
      && (!old(closed) ==>
            && r == step.result
            && step.result.n <= |data|
            && input == old(input) + data[..step.result.n]
            && dst.body == old(dst.body) + step.emitted)
    }

    method Write(data: seq<byte>, step: EncoderStep) returns (r: WriteResult)
      requires StepFits(|data|, step)
      modifies this, dst
      ensures Accepted(data, step, r)
    {
      if closed {
        return WriteFailed(0, WriterClosed);
      }
      input := input + data[..step.result.n];
      var _ := dst.Write(step.emitted);
      r := step.result;
    }

    /** Close: flush the rest (the trailer) and end the stream. */
    method Close(trailer: seq<byte>, outcome: CloseResult) returns (r: CloseResult)
      modifies this, dst
      ensures closed && input == old(input)
      ensures dst.header == old(dst.header) && dst.status == old(dst.status)
      ensures old(closed) ==> r == CloseFailed(WriterClosed) && dst.body == old(dst.body)
      ensures !old(closed) ==> r == outcome && dst.body == old(dst.body) + trailer
    {
      if closed {
        return CloseFailed(WriterClosed);
      }
      closed := true;
      var _ := dst.Write(trailer);
      r := outcome;
    }
  }

  /** brotliWriter: the original response writer with its writes redirected. */
  class BrotliWriter {
    const rw: ResponseWriter
    const writer: Compressor

    constructor (rw: ResponseWriter, writer: Compressor)
      ensures this.rw == rw && this.writer == writer
    {
      this.rw := rw;
      this.writer := writer;
    }

    /** WriteString(s) is the encoder's Write of []byte(s), result passed through. */
    method WriteString(s: ByteString, step: EncoderStep) returns (r: WriteResult)
      requires StepFits(|s|, step)
      modifies writer, writer.dst
      ensures writer.Accepted(ToBytes(s), step, r)
    {
      r := writer.Write(ToBytes(s), step);
    }

    /** Write(data) is the encoder's Write of data, result passed through. */
    method Write(data: seq<byte>, step: EncoderStep) returns (r: WriteResult)
      requires StepFits(|data|, step)
      modifies writer, writer.dst
      ensures writer.Accepted(data, step, r)
    {
      r := writer.Write(data, step);
    }

    /** WriteHeader drops Content-Length, then forwards the code. */
    method WriteHeader(code: int)
      modifies rw
      ensures rw.header == old(rw.header) - {"Content-Length"}
      ensures rw.status == code && rw.body == old(rw.body)
    {
      rw.Del("Content-Length");
      rw.WriteHeader(code);
    }
  }

  /**
   * The gin context of one request: the request, the response writer the
   * framework installed, and the interceptor once c.Writer has been replaced
   * by it (null while c.Writer is still the original writer).
   */
  class Context {
    const request: Request
    const base: ResponseWriter
    var wrapper: BrotliWriter?

    constructor (request: Request, base: ResponseWriter)
      ensures this.request == request && this.base == base && wrapper == null
    {
      this.request := request;
      this.base := base;
      wrapper := null;
    }

    /** An installed interceptor wraps, and flushes into, the original writer. */
    ghost predicate Valid()
      reads this
    {
      wrapper != null ==> wrapper.rw == base && wrapper.writer.dst == base
    }

    /** c.Header(key, value): an empty value deletes the header. */
    method Header(key: ByteString, value: ByteString)
      modifies base
      ensures base.header == if value == "" then old(base.header) - {key} else old(base.header)[key := value]
      ensures base.status == old(base.status) && base.body == old(base.body)
    {
      if value == "" {
        base.Del(key);
      } else {
        base.Set(key, value);
      }
    }

    /** c.Writer.Size(): the interceptor inherits it from the writer it wraps. */
    function Size(): nat
      reads this, base
    {
      base.Size()
    }

    /** c.Writer.Write(data), whichever writer c.Writer currently is. */
    method Write(data: seq<byte>, step: EncoderStep) returns (r: WriteResult)
      requires Valid() && StepFits(|data|, step)
      modifies base, if wrapper == null then {} else {wrapper.writer}
      ensures wrapper == old(wrapper)
      ensures wrapper == null ==>
        r == Written(|data|) && base.body == old(base.body) + data
        && base.header == old(base.header) && base.status == old(base.status)
      ensures wrapper != null ==> wrapper.writer.Accepted(data, step, r)
    {
      if wrapper == null {
        var n := base.Write(data);
        r := Written(n);
      } else {
        r := wrapper.Write(data, step);
      }
    }

    /** c.Writer.WriteString(s), whichever writer c.Writer currently is. */
    method WriteString(s: ByteString, step: EncoderStep) returns (r: WriteResult)
      requires Valid() && StepFits(|s|, step)
      modifies base, if wrapper == null then {} else {wrapper.writer}
      ensures wrapper == old(wrapper)
      ensures wrapper == null ==>
        r == Written(|s|) && base.body == old(base.body) + ToBytes(s)
        && base.header == old(base.header) && base.status == old(base.status)
      ensures wrapper != null ==> wrapper.writer.Accepted(ToBytes(s), step, r)
    {
      if wrapper == null {
        var n := base.Write(ToBytes(s));
        r := Written(n);
      } else {
        r := wrapper.WriteString(s, step);
      }
    }

    /** c.Writer.WriteHeader(code), whichever writer c.Writer currently is. */
    method WriteHeader(code: int)
      requires Valid()
      modifies base
      ensures base.status == code && base.body == old(base.body)
      ensures base.header == if wrapper == null then old(base.header) else old(base.header) - {"Content-Length"}
    {
      if wrapper == null {
        base.WriteHeader(code);
      } else {
        wrapper.WriteHeader(code);
      }
    }
  }

  /**
   * The state right after interception begins: a fresh, open, empty encoder
   * flushing into the original writer; the interceptor installed around it;
   * Content-Encoding and Vary announced; the body as it was (interception
   * itself writes no body byte).
   */
  twostate predicate Intercepted(c: Context, new compressor: Compressor, options: WriterOptions)
    reads c, c.base, compressor
  {
    && fresh(compressor) && compressor.dst == c.base && compressor.options == options
    && compressor.input == [] && !compressor.closed
    && c.wrapper != null && fresh(c.wrapper) && c.wrapper.writer == compressor && c.Valid()
    && c.base.header == old(c.base.header)["Content-Encoding" := "br"]["Vary" := "Accept-Encoding"]
    && c.base.status == old(c.base.status) && c.base.body == old(c.base.body)
  }

  /** The part of the Brotli closure that runs once compression is decided. */
  method Intercept(c: Context, options: WriterOptions) returns (compressor: Compressor)
    requires c.Valid() && c.wrapper == null
    modifies c, c.base
    ensures Intercepted(c, compressor, options)
  {
    compressor := new Compressor(c.base, options);
    c.Header("Content-Encoding", "br");
    c.Header("Vary", "Accept-Encoding");
    c.wrapper := new BrotliWriter(c.base, compressor);
  }

  /**
   * The deferred step: close the encoder (its error is discarded), then set
   * Content-Length to the number of bytes that reached the connection.
   */
  method Finalize(c: Context, compressor: Compressor, trailer: seq<byte>, outcome: CloseResult)
    requires c.Valid() && c.wrapper != null && c.wrapper.writer == compressor
    modifies compressor, c.base
    ensures compressor.closed && compressor.input == old(compressor.input)
    ensures c.base.body == if old(compressor.closed) then old(c.base.body) else old(c.base.body) + trailer
    ensures c.base.header == old(c.base.header)["Content-Length" := Decimal(|c.base.body|)]
    ensures c.base.status == old(c.base.status)
  {
    var _ := compressor.Close(trailer, outcome);
    c.Header("Content-Length", Decimal(c.Size()));
  }
}

/** The response sink and the status-capturing decorator around it
    (observability.go, responseWriter / newResponseWriter / WriteHeader). */
module ResponseWriting {

  const StatusOK := 200
  const StatusInternalServerError := 500

  /** The transport's response sink, as far as this service uses it: the
      status codes it was handed, in order, and the body bytes written. */
  class Sink {
    var codes: seq<int>
    var body: string

    constructor ()
      ensures codes == [] && body == ""
    {
      codes, body := [], "";
    }

    method WriteHeader(code: int)
      modifies this
      ensures codes == old(codes) + [code] && body == old(body)
    {
      codes := codes + [code];
    }

    method Write(data: string)
      modifies this
      ensures body == old(body) + data && codes == old(codes)
    {
      body := body + data;
    }
  }

  /** Wraps a sink and remembers the status code of the most recent
      WriteHeader call; 200 until the first one. Writes of the body go
      straight through to the wrapped sink. */
  class ResponseWriter {
    const inner: Sink
    var statusCode: int

    constructor (w: Sink)
      ensures inner == w && statusCode == StatusOK
    {
      inner := w;
      statusCode := StatusOK;
    }

    method WriteHeader(code: int)
      modifies this, inner
      ensures statusCode == code
      ensures inner.codes == old(inner.codes) + [code] && inner.body == old(inner.body)
    {
      statusCode := code;
      inner.WriteHeader(code);
    }

    method Write(data: string)
      modifies inner
      ensures inner.body == old(inner.body) + data && inner.codes == old(inner.codes)
    {
      inner.Write(data);
    }
  }

  /** A fresh writer reports 200; after a series of WriteHeader calls it
      reports the last code passed, not the first. */
  method LatestCodeWins(first: int, second: int) returns (recorded: int, forwarded: seq<int>)
    ensures recorded == second
    ensures forwarded == [first, second]
  {
    var sink := new Sink();
    var rw := new ResponseWriter(sink);
    assert rw.statusCode == StatusOK;
    rw.WriteHeader(first);
    rw.WriteHeader(second);
    recorded, forwarded := rw.statusCode, sink.codes;
  }
}

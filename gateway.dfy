/**
 * The API Gateway proxy adapter's `Invoke`: decode the payload into a
 * request, serve it with the top-level handler, encode the response. JSON
 * decoding and encoding belong to encoding/json and are parameters here:
 * any functions that may fail.
 */
module Gateway {
  import opened Lambda
  import opened Handlers

  /** What `Invoke` returns: Go's `([]byte, error)`, with nil as None. */
  datatype Output = Output(payload: Option<seq<byte>>, err: Option<Error>)

  datatype APIGatewayProxy = APIGatewayProxy(handler: Handler) {

    /**
     * Exactly one of output and error is present. Output is present only when
     * decoding succeeded, the handler answered without error and the response
     * encoded, and it is that encoding. A decoding failure is returned wrapped
     * as an invalid event, a handler error as it is, an encoding failure
     * wrapped as a marshal failure.
     */
    function Invoke(
      decode: seq<byte> -> Result<Request>,
      encode: Response -> Result<seq<byte>>,
      ctx: Context,
      payload: seq<byte>): (r: Output)
      ensures r.payload.Some? != r.err.Some?
      ensures r.payload.Some? ==>
                && decode(payload).Ok?
                && Serve(handler, ctx, decode(payload).value).err.None?
                && encode(Serve(handler, ctx, decode(payload).value).resp) == Ok(r.payload.value)
      ensures decode(payload).Fail? ==> r.err == Some(InvalidEvent(decode(payload).error))
    {
      match decode(payload)
      case Fail(e) => Output(None, Some(InvalidEvent(e)))
      case Ok(req) =>
        var reply := Serve(handler, ctx, req);
        if reply.err.Some? then Output(None, reply.err)
        else
          match encode(reply.resp)
          case Fail(e) => Output(None, Some(MarshalFailed(e)))
          case Ok(out) => Output(Some(out), None)
    }
  }

  /**
   * A payload that does not decode never reaches the handler: any two
   * handlers give the same output, and the decoder's error stays reachable
   * through the wrapping, as `errors.Is` sees it.
   */
  lemma DecodeFailureSkipsHandler(
    p: APIGatewayProxy, q: APIGatewayProxy,
    decode: seq<byte> -> Result<Request>, encode: Response -> Result<seq<byte>>,
    ctx: Context, payload: seq<byte>)
    requires decode(payload).Fail?
    ensures p.Invoke(decode, encode, ctx, payload) == q.Invoke(decode, encode, ctx, payload)
    ensures Is(p.Invoke(decode, encode, ctx, payload).err.value, decode(payload).error)
    ensures Message(p.Invoke(decode, encode, ctx, payload).err.value)
            == InvalidEventPrefix + Message(decode(payload).error)
  {
    var e := decode(payload).error;
    assert Unwrap(InvalidEvent(e)) == Some(e);
  }

  /**
   * A handler error reaches the caller as it is, not wrapped, and the
   * handler's response is dropped; the encoder is never consulted.
   */
  lemma HandlerErrorPassesThrough(
    p: APIGatewayProxy,
    decode: seq<byte> -> Result<Request>, encode: Response -> Result<seq<byte>>,
    encode': Response -> Result<seq<byte>>,
    ctx: Context, payload: seq<byte>)
    requires decode(payload).Ok?
    requires Serve(p.handler, ctx, decode(payload).value).err.Some?
    ensures p.Invoke(decode, encode, ctx, payload)
            == Output(None, Serve(p.handler, ctx, decode(payload).value).err)
    ensures p.Invoke(decode, encode, ctx, payload) == p.Invoke(decode, encode', ctx, payload)
  {
  }

  /**
   * A handler success is encoded: the output is the encoding, or, when the
   * encoder fails, no output and the encoder's error wrapped.
   */
  lemma HandlerSuccessIsEncoded(
    p: APIGatewayProxy,
    decode: seq<byte> -> Result<Request>, encode: Response -> Result<seq<byte>>,
    ctx: Context, payload: seq<byte>)
    requires decode(payload).Ok?
    requires Serve(p.handler, ctx, decode(payload).value).err.None?
    ensures var resp := Serve(p.handler, ctx, decode(payload).value).resp;
            p.Invoke(decode, encode, ctx, payload)
            == match encode(resp)
               case Ok(out) => Output(Some(out), None)
               case Fail(e) => Output(None, Some(MarshalFailed(e)))
  {
  }

  /**
   * Behind a resource router, a payload naming an unregistered resource
   * yields no output and the router's miss, unwrapped.
   */
  lemma UnregisteredResourceSurfaces(
    resources: map<string, Handler>,
    decode: seq<byte> -> Result<Request>, encode: Response -> Result<seq<byte>>,
    ctx: Context, payload: seq<byte>)
    requires decode(payload).Ok? && decode(payload).value.resource !in resources
    ensures APIGatewayProxy(Resources(resources)).Invoke(decode, encode, ctx, payload)
            == Output(None, Some(ResourceHandlerNotFound(decode(payload).value.resource)))
  {
    ResourcesMiss(resources, ctx, decode(payload).value);
  }
}

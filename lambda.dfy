/**
 * The values exchanged between the Lambda runtime, the API Gateway proxy
 * adapter and the resource handlers of lambdamux: the request and response
 * shapes, the opaque context, the errors the package creates, and the
 * (response, error) pair every handler returns.
 */
module Lambda {

  /** A byte of the raw Lambda payload. */
  newtype byte = x: int | 0 <= x < 256

  datatype Option<+T> = None | Some(value: T)

  /** The outcome of a collaborator that can fail (JSON decoding and encoding). */
  datatype Result<+T> = Ok(value: T) | Fail(error: Error)

  /**
   * The request context. Routing never inspects it: it is handed unchanged
   * to the handler that serves the request, so an opaque token suffices.
   */
  datatype Context = Context(token: nat)

  /**
   * The proxy request. Routers read `resource` and `httpMethod` only; the
   * other fields are payload passed through to the leaf handler.
   */
  datatype Request = Request(
    resource: string,
    path: string,
    httpMethod: string,
    headers: map<string, seq<string>>,
    queryStringParameters: map<string, string>,
    pathParameters: map<string, string>,
    body: string,
    isBase64Encoded: bool)

  /** The proxy response. Routers never build one except the zero value. */
  datatype Response = Response(
    statusCode: int,
    headers: map<string, seq<string>>,
    body: string,
    isBase64Encoded: bool)

  /** Go's zero value of the response struct: what a router returns on a miss. */
  const ZeroResponse := Response(0, map[], "", false)

  /** The errors that reach a caller of a handler or of `Invoke`. */
  datatype Error =
    | ResourceHandlerNotFound(resource: string)
    | MethodHandlerNotFound(resource: string, httpMethod: string)
    | InvalidEvent(cause: Error)    // decode failure, wrapped with %w
    | MarshalFailed(cause: Error)   // encode failure, wrapped with %w
    | Raised(message: string)       // any other error: a leaf handler's, or encoding/json's

  /** What a handler returns: Go's `(resp APIGatewayProxyResponse, err error)`. */
  datatype Reply = Reply(resp: Response, err: Option<Error>)

  /** The reply of a router that found no handler for the request. */
  function Miss(e: Error): Reply
  {
    Reply(ZeroResponse, Some(e))
  }

  const ResourcePrefix := "resource handler not found for "
  const MethodPrefix := "method handler not found for "
  const InvalidEventPrefix := "invalid lambda event, expect lambdamux.APIGatewayProxyRequest, "
  const MarshalPrefix := "failed to marshal lambdamux.APIGatewayProxyResponse, "

  /** The text `Error()` returns for each error, as the fmt.Errorf formats produce it. */
  function Message(e: Error): (m: string)
    ensures e.ResourceHandlerNotFound? ==> ResourcePrefix <= m
    ensures e.MethodHandlerNotFound? ==> MethodPrefix <= m
    ensures e.InvalidEvent? ==> InvalidEventPrefix <= m
    ensures e.MarshalFailed? ==> MarshalPrefix <= m
  {
    match e
    case ResourceHandlerNotFound(resource) => ResourcePrefix + resource
    case MethodHandlerNotFound(resource, httpMethod) => MethodPrefix + resource + ":" + httpMethod
    case InvalidEvent(cause) => InvalidEventPrefix + Message(cause)
    case MarshalFailed(cause) => MarshalPrefix + Message(cause)
    case Raised(message) => message
  }

  /** `errors.Unwrap`: the error wrapped with %w, if any. */
  function Unwrap(e: Error): (r: Option<Error>)
    ensures r.Some? <==> (e.InvalidEvent? || e.MarshalFailed?)
    ensures (e.InvalidEvent? || e.MarshalFailed?) ==> r == Some(e.cause)
    ensures r.Some? ==> r.value < e
  {
    match e
    case InvalidEvent(cause) => Some(cause)
    case MarshalFailed(cause) => Some(cause)
    case _ => None
  }

  /**
   * The chain `errors.Is` walks: `e`, then what it wraps, and so on, ending
   * at the first error that wraps nothing.
   */
  function Chain(e: Error): (c: seq<Error>)
    ensures |c| > 0 && c[0] == e
    ensures forall i :: 0 <= i < |c| - 1 ==> Unwrap(c[i]) == Some(c[i + 1])
    ensures Unwrap(c[|c| - 1]).None?
    decreases e
  {
    match Unwrap(e)
    case None => [e]
    case Some(inner) => [e] + Chain(inner)
  }

  /**
   * `errors.Is`, with errors compared by value: it holds exactly when
   * `target` is one of the errors on the chain of `e`.
   */
  predicate Is(e: Error, target: Error): (b: bool)
    ensures b <==> target in Chain(e)
    ensures e == target ==> b
    ensures b ==> e == target || target < e
    decreases e
  {
    e == target || (Unwrap(e).Some? && Is(Unwrap(e).value, target))
  }

  /**
   * Wrapping with %w and unwrapping are inverse: the wrapped error comes
   * back, and whatever `errors.Is` found in it, it still finds in the wrapper.
   */
  lemma UnwrapUndoesWrapping(e: Error, target: Error)
    ensures Unwrap(InvalidEvent(e)) == Some(e) && Unwrap(MarshalFailed(e)) == Some(e)
    ensures Is(e, target) ==> Is(InvalidEvent(e), target) && Is(MarshalFailed(e), target)
  {
  }

  /** A miss on a resource router names the resource: its message determines it. */
  lemma ResourceMissMessageNamesResource(a: string, b: string)
    requires Message(ResourceHandlerNotFound(a)) == Message(ResourceHandlerNotFound(b))
    ensures a == b
  {
    var n := |ResourcePrefix|;
    assert a == (ResourcePrefix + a)[n..];
    assert b == (ResourcePrefix + b)[n..];
  }

  /**
   * A miss on a method router names the resource and the method joined by a
   * colon, so a colon inside either makes two different misses read the same.
   */
  lemma MethodMissMessageIsAmbiguous()
    ensures MethodHandlerNotFound("/a:b", "GET") != MethodHandlerNotFound("/a", "b:GET")
    ensures Message(MethodHandlerNotFound("/a:b", "GET")) == Message(MethodHandlerNotFound("/a", "b:GET"))
  {
  }
}

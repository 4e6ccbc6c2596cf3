# lambdamux routing, modelled in Dafny

lambdamux dispatches API Gateway proxy events, delivered to an AWS Lambda
function, to registered resource handlers. The file modelled here is
`apigateway_handler.go`, and the model covers:

- **The `ResourceHandler` capability** (module `Handlers`). A handler is a
  value of the datatype `Handler`, which has three cases:
  - `Func(f)`: a plain function lifted by `ResourceHandlerFunc`.
  - `Resources(map)`: a `ServeResource` router, keyed by exact resource name.
  - `Methods(map)`: a `ServeMethod` router, keyed by HTTP method.

  `Serve` is the `ServeResource` operation of every handler. Routers nest
  arbitrarily, and `Serve` recurses down the tree.
- **The routers as objects** (module `Mux`). The classes `ServeResource` and
  `ServeMethod` each own one registry map. `Handle` updates that map in place
  and returns the router itself, so registrations chain. The
  `ServeResource` function of each class reads the registry and delegates
  through `Serve`.
- **Upper-casing of method names** (module `Strings`). `ServeMethod.Handle`
  applies it before storing a handler.
- **The `Invoke` pipeline of `APIGatewayProxy`** (module `Gateway`): decode
  the payload, serve the request, encode the response, with early error
  returns. Decoding and encoding are parameters of `Invoke`: functions that
  may fail.
- **The package's errors** (module `Lambda`). This module holds the routing
  misses, the `%w`-wrapped decode and encode failures with their message
  texts, `errors.Unwrap`, a by-value `errors.Is`, and the request and
  response shapes.

Central property (the contract of `Handlers.Serve`): serving a request through
any routing tree has exactly one of two results.
- It invokes the one function the request's route reaches, with the same
  context and request, and returns that function's reply unchanged.
- Or it invokes nothing and returns Go's zero response together with the
  routing miss.

The route is computed from the request's resource and method alone.
`Handlers.Route`'s contract ties it to the tree. The keys it matches, looked
up one after another in the nested registries (`Handlers.Follow`), lead to
the function it reaches. On a miss, they lead to the router that lacks the
request's key.

Method lookup is not case-insensitive at both ends. The doc comment on
`ServeMethod.Handle` says HTTP request methods are not case sensitive
(apigateway_handler.go:151), and `Handle` upper-cases the method it stores
(line 153). But `ServeMethod.ServeResource` looks up `req.HTTPMethod`
exactly as the request spells it (line 141). So a request whose method is
not already upper case always misses on a router built by `Handle`. That
includes a "get" request sent after `Handle("get", h)`. The model keeps this
behaviour (`Mux.ServeMethod.ServeResource`, `Mux.MethodCaseVariantsCollapse`,
`Mux.OrdersTree`).

## Model

| member | source | states |
|---|---|---|
| `Lambda.Message` | apigateway_handler.go:69-143 | each error's text begins with the fixed prefix of its fmt.Errorf format |
| `Lambda.Unwrap` | apigateway_handler.go:69-79 | exactly the two `%w`-wrapped errors (invalid event, marshal failure) unwrap, and each unwraps to its `%w` operand |
| `Lambda.Is` | apigateway_handler.go:69-79 | `errors.Is` holds exactly when the target is on the error's chain of `%w`-wrapped errors (`Lambda.Chain`), so an error is found in itself and in every error that wraps it |
| `Lambda.Chain` | apigateway_handler.go:69-79 | the chain starts at the error, each entry unwraps to the next, and the last entry wraps nothing |
| `Lambda.UnwrapUndoesWrapping` | apigateway_handler.go:69-79 | unwrapping a wrapper gives back the wrapped error, and every error found in the wrapped error is found in the wrapper |
| `Lambda.ResourceMissMessageNamesResource` | apigateway_handler.go:113 | the text of a resource miss determines the unmatched resource |
| `Lambda.MethodMissMessageIsAmbiguous` | apigateway_handler.go:143 | the "resource:method" text of a method miss can read the same for two different misses |
| `Strings.UpperChar` | apigateway_handler.go:153 | ASCII lower-case letters map to their upper-case letters, all other characters stay |
| `Strings.ToUpper` | apigateway_handler.go:153 | upper-casing keeps the length, maps each character by `UpperChar` and yields an upper-case string |
| `Strings.ToUpperFixesExactlyUpper` | apigateway_handler.go:153 | upper-casing leaves a string unchanged if and only if it is already upper case |
| `Strings.ToUpperIdempotent` | apigateway_handler.go:153 | upper-casing twice equals upper-casing once |
| `Strings.ToUpperIgnoresCase` | apigateway_handler.go:148-153 | method names that differ only in letter case upper-case to the same key |
| `Strings.ToUpperGet` | apigateway_handler.go:153 | "get", "Get" and "GET" all upper-case to "GET" |
| `Handlers.Route` | apigateway_handler.go:108-146 | a reached function is the handler stored at the end of the route's keys; a miss ends at a router whose registry lacks the request's key and names that key; each key on the way is the request's resource at a resource router and its method at a method router |
| `Handlers.Serve` | apigateway_handler.go:87-169 | `ServeResource` through any tree invokes the one function the request's route reaches, with the same context and request, and returns its reply unchanged; or invokes nothing and returns the zero response with the route's miss |
| `Handlers.RoutingIgnoresPayload` | apigateway_handler.go:111-145 | two requests with the same resource and method are served by the same function or miss alike |
| `Handlers.ServeErrorOrigin` | apigateway_handler.go:111-145 | every reply is a reached function's reply or a zero-response miss naming the request's keys |
| `Handlers.ServeFunc` | apigateway_handler.go:165-169 | a lifted function serves a request by plain application |
| `Handlers.EmptyResourcesMiss` | apigateway_handler.go:102-113 | a resource router with an empty registry misses every request, naming its resource |
| `Handlers.ResourcesHit` | apigateway_handler.go:111-115 | a registered resource returns the sub-handler's reply unchanged, success and failure alike |
| `Handlers.ResourcesMiss` | apigateway_handler.go:111-113 | an unregistered resource yields the zero response and an error naming it, with no function reached |
| `Handlers.ResourcesMatchCaseSensitively` | apigateway_handler.go:95-113 | "/Items" registered does not serve a request for "/items" |
| `Handlers.EmptyMethodsMiss` | apigateway_handler.go:132-143 | a method router with an empty registry misses every request, naming resource and method |
| `Handlers.MethodsHit` | apigateway_handler.go:141-145 | a registered method returns the sub-handler's reply unchanged |
| `Handlers.MethodsMiss` | apigateway_handler.go:141-143 | an unregistered method yields the zero response and an error naming resource and method |
| `Handlers.NestedRouting` | apigateway_handler.go:108-146 | resource router over method router over function: a pair registered at both levels reaches that function along the keys [resource, method]; a missing method misses at the inner router |
| `Mux.ServeResource.constructor` | apigateway_handler.go:102-104 | a new resource router has an empty registry and misses every request |
| `Mux.ServeResource.ServeResource` | apigateway_handler.go:108-116 | a hit returns the registered handler's reply; a miss yields the zero response and an error naming the resource |
| `Mux.ServeResource.Handle` | apigateway_handler.go:119-122 | the registry maps the resource to the new handler, every other key is unchanged, and the same router is returned |
| `Mux.ServeMethod.constructor` | apigateway_handler.go:132-134 | a new method router has an empty registry, keeps the upper-case invariant and misses every request |
| `Mux.ServeMethod.ServeResource` | apigateway_handler.go:138-146 | lookup uses the method as spelled; a hit passes the reply through, a miss names resource and method, and a method that is not upper case always misses |
| `Mux.ServeMethod.Handle` | apigateway_handler.go:148-156 | the handler is stored under the upper-cased method only, other keys are unchanged, the same router is returned, and the all-keys-upper-case invariant is kept |
| `Mux.LastRegistrationWins` | apigateway_handler.go:119-122 | two registrations of one resource leave one entry, and the later handler serves |
| `Mux.MethodCaseVariantsCollapse` | apigateway_handler.go:141-156 | registering "get" then "GET" leaves one entry holding the later handler; a "GET" request reaches it and a "get" request misses |
| `Mux.OrdersTree` | apigateway_handler.go:102-156 | in the tree "/orders" → GET → f, "/orders" GET reaches f; "/orders" with "get" or "POST" misses at the method router; "/unknown" misses at the resource router |
| `Gateway.APIGatewayProxy.Invoke` | apigateway_handler.go:65-83 | exactly one of output and error is present; output only as the encoding of an error-free handler response; a decode failure is returned wrapped as an invalid event |
| `Gateway.DecodeFailureSkipsHandler` | apigateway_handler.go:68-70 | on a decode failure the handler does not affect the result, and the decoder's error stays reachable through `errors.Is` |
| `Gateway.HandlerErrorPassesThrough` | apigateway_handler.go:72-75 | a handler error is returned unwrapped with no output, and encoding is never consulted |
| `Gateway.HandlerSuccessIsEncoded` | apigateway_handler.go:77-82 | a successful response is returned encoded, or as no output plus the encoder's error wrapped as a marshal failure |
| `Gateway.UnregisteredResourceSurfaces` | apigateway_handler.go:65-113 | behind a resource router, an unregistered resource reaches `Invoke`'s caller as the router's miss, unwrapped |

## Left out

- `Strings.ToUpper`, `Strings.UpperChar`: map only ASCII letters. Go's `strings.ToUpper` also maps
  other Unicode letters, and HTTP method names are ASCII, so the routing
  behaviour is the same for them.
- Aliasing of nested routers: `Handle` stores a router as a tree value
  (`AsHandler()`), a snapshot of its registry at registration. In Go it
  stores a pointer, so registrations made on a nested router after it was
  registered are visible through the parent. The model does not capture
  this.
- Nil receivers: in Go, calling `Handle` on a zero `ServeResource{}` or
  `ServeMethod{}` panics because its map is nil, and so does calling
  `Invoke` with a nil `Handler`. The model has no nil maps and no nil
  handlers.
- Routing cycles: in Go a router registered inside itself would recurse
  without end. Tree values cannot form a cycle.
- `ResourceHandlerWithTimeout` and `timeoutHandler.ServeResource`
  (timeout_handler.go) are not part of this model. They race a goroutine
  against a context deadline, which is concurrency and wall-clock time.
- `StartLocalServer` and `LocalServer` (local_server.go) are not part of this
  model. They are network I/O over an empty mux.
- `APIGatewayProxyRequest.UnmarshalJSON` and
  `APIGatewayProxyResponse.MarshalJSON`: JSON encoding and the conversion
  between multi-value headers and `http.Header` are library behaviour.
  `Invoke` takes decoding and encoding as parameters.
- `Lambda.Is`: compares errors by value. Go's `errors.Is` compares with `==`,
  and the errors `fmt.Errorf` returns are pointers, so it compares them by
  identity. Two separately created misses for the same resource are the same
  error in the model and different errors in Go.
- `Lambda.Chain`, `Lambda.Is`: a `Raised` error wraps nothing, so its chain
  is the error alone. In Go, an error a leaf handler built with `%w`, or the
  `*json.MarshalerError` that `json.Marshal` can return at line 77, has a
  chain of its own that `errors.Is` follows.
- The text of errors produced by encoding/json, and of errors returned by
  leaf handlers, is opaque (`Raised`).
- `context.Context` is an opaque token passed through unchanged. Cancellation
  and deadlines only matter to the timeout wrapper.
- Mutating a registry while another goroutine dispatches is a data race in
  Go. The model is sequential.

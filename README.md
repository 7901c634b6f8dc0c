# gRPC-Web gateway, request side, in Dafny

This project models the request side of the `grpcweb` wrapper (`wrapper.go`).
That wrapper puts a Go gRPC server behind an HTTP handler that also accepts
gRPC-Web requests, following the gRPC-Web protocol (`PROTOCOL-WEB.md` in the
gRPC repository). It has three parts, all modelled here:

- **Classifier** `isGrpcWebRequest`: a request is gRPC-Web when the first
  `Content-Type` value starts with `application/grpc-web`. A missing header reads as `""`.
- **Rewrite** `hackIntoNormalGrpcRequest`: changes the request in place.
  It sets the protocol version to 2.0. It sets `Content-Type` to a single value:
  the old first value with its first `application/grpc-web` replaced by
  `application/grpc`. It returns the same request object.
- **Dispatch**: the handler returned by `WrapServer`. An HTTP/2 request that is not
  gRPC-Web goes straight to the gRPC server. Every other request is rewritten,
  then served through an intercepting response writer, and then `finishRequest` runs.

Files:

- `go_strings.dfy` (module `GoStrings`) models `strings.HasPrefix`, `strings.Index` and
  `strings.Replace(s, old, new, 1)` on `seq<char>`.
- `http.dfy` (module `Http`) models the header map with `Get`/`Set` and the
  `http.Request` object. The request is a class, because the rewrite mutates it
  and the server, the rewrite and `finishRequest` all hold the same pointer.
- `wrapper.dfy` (module `GrpcWeb`) models the classifier and the rewrite.
  It gives the rewrite as a pure function `Rewrite`, and as the in-place
  method `HackIntoNormalGrpcRequest` that is proved to follow it.
  It also models the dispatch. The pure function `Dispatch` gives the calls a
  request causes. The class `WrappedServer` has the handler `ServeHTTP`, which
  appends exactly those calls to a trace.

The gRPC server and the intercepting response writer are opaque. A call into
them is a trace event: `Serve(intercepted, request seen)` or `Finish(request seen)`.

Notes on how `wrapper.go` behaves:

- The wrapper never refuses a content type. A request that is not HTTP/2 is
  always rewritten and served, whatever its content type: `text/plain` reaches
  the server with its content type kept (`NonHttp2WithoutGrpcWebTokenIsServed`).
- The gRPC-Web protocol (`PROTOCOL-WEB.md` in the gRPC repository, cited at
  wrapper.go:11) also defines a base64 text variant, `application/grpc-web-text`.
  The wrapper does not decode it: its prefix is rewritten like any other,
  giving `application/grpc-text`.
- The rewrite changes the request object in place rather than building a new one.

## Model

| member | source | states |
|---|---|---|
| GoStrings.HasPrefix | wrapper.go:45 | `strings.HasPrefix`: true exactly when the prefix occurs at position 0, and then `Index` finds it at 0 |
| GoStrings.HasPrefixIffConcat | wrapper.go:45 | `HasPrefix(s, p)` holds exactly when `s` is `p` followed by some rest |
| GoStrings.Index | wrapper.go:53 | returns -1 exactly when the pattern does not occur; otherwise it returns the leftmost position where it occurs |
| GoStrings.ReplaceFirst | wrapper.go:53 | with no occurrence the text is unchanged; otherwise only the leftmost occurrence is replaced, and the text around it is kept |
| GoStrings.ReplaceFirstOfPrefix | wrapper.go:53 | when `from` is a prefix of `s`, the result is `to` followed by the rest of `s` after `from` |
| GoStrings.ReplaceFirstByItself | wrapper.go:53 | replacing a pattern by itself returns the text unchanged |
| Http.HeaderGet | wrapper.go:52 | returns the first value stored under the key, or `""` when the key is absent or has no values |
| Http.HeaderSet | wrapper.go:53 | the key then holds exactly one value; the other keys and their values are unchanged |
| Http.GetAfterSet | wrapper.go:52-53 | reading a key right after setting it returns the value that was set |
| GrpcWeb.IsGrpcWebRequest | wrapper.go:44-46 | true exactly when `Content-Type` is present with a first value that starts with `application/grpc-web`; false when the header is absent |
| GrpcWeb.IsNativePassthrough | wrapper.go:33 | the short-circuit test: true exactly when the major version is 2 and `Content-Type` is absent, empty, or its first value does not start with `application/grpc-web` |
| GrpcWeb.Rewrite | wrapper.go:48-55 | protocol becomes 2.0; `Content-Type` is one value, the old first value with its first `application/grpc-web` replaced; every other header and every other field (`proto`, method, URL, body) is unchanged |
| GrpcWeb.HackIntoNormalGrpcRequest | wrapper.go:48-55 | mutates the request into `Rewrite` of its old state and returns the same object |
| GrpcWeb.RewriteOfGrpcWebContentType | wrapper.go:52-53 | a content type starting with `application/grpc-web` becomes `application/grpc` followed by the old text after the 20-character prefix |
| GrpcWeb.RewriteWithoutGrpcWebToken | wrapper.go:52-53 | a content type that does not contain `application/grpc-web` keeps its text but becomes a single value; an absent content type becomes `""` |
| GrpcWeb.RewrittenClassification | wrapper.go:44-53 | after rewriting a gRPC-Web request, it is still classified gRPC-Web exactly when the old tail after the prefix began with `-web`; otherwise the rewritten request would be passed straight through |
| GrpcWeb.GrpcWebProtoOverHttp1 | wrapper.go:30-55 | an HTTP/1.1 `application/grpc-web+proto` request is served as HTTP/2.0 `application/grpc+proto` and then finished |
| GrpcWeb.Dispatch | wrapper.go:30-42 | the server is called exactly once, as the first call; the call is not intercepted exactly when the request is HTTP/2 and not gRPC-Web, and the server then sees the request unchanged and nothing follows; otherwise the server sees the rewritten request and `finishRequest` follows exactly once, as the last call, with that same request |
| GrpcWeb.NonHttp2AlwaysIntercepted | wrapper.go:33-40 | a request whose major version is not 2 is always rewritten, served intercepted and finished, whatever its content type |
| GrpcWeb.NonHttp2WithoutGrpcWebTokenIsServed | wrapper.go:33-40 | a request that is not HTTP/2 and whose content type does not contain `application/grpc-web` is not refused: it is served intercepted and finished, with its content-type text kept as one value |
| GrpcWeb.PlainTextOverHttp1IsServed | wrapper.go:33-39 | an instance of the previous row: an HTTP/1.x `text/plain` request reaches the server intercepted, with its headers unchanged |
| GrpcWeb.WrappedServer.WrapServer | wrapper.go:30-31 | a freshly wrapped server has made no calls yet |
| GrpcWeb.WrappedServer.ServeHTTP | wrapper.go:31-41 | appends exactly `Dispatch` of the request's old state to the trace; the request is left unchanged on the short-circuit path and rewritten otherwise |
| GrpcWeb.WrappedServer.ServeWrapped | wrapper.go:34-39 | records one server call, with or without the intercepting response, together with the request the server sees |
| GrpcWeb.WrappedServer.FinishRequest | wrapper.go:40 | records one `finishRequest` call, together with the request it receives |

## Left out

- The gRPC server's `ServeHTTP` and the rest of `net/http` are foreign code. The model records each server call as a trace event. It assumes the server does not change the request.
- `newGrpcWebResponse` and `finishRequest` are not part of this model. Their definitions are not in `wrapper.go`. That leaves out the response interceptor, trailer frames, length-prefixed framing and base64 text encoding. Each call to them is only an event.
- Header keys are not canonicalised. Go's `Header.Get`/`Set` turn `"content-type"` into `"Content-Type"`. The model uses the canonical key `Content-Type` directly.
- Go strings are byte strings. The model uses `seq<char>`, which gives the same results for the ASCII tokens involved.
- A nil header map (where `Set` would panic) is not modelled. Go's server always gives a request a non-nil header map.
- Map aliasing is only captured through the request object. Another holder of the same `http.Header` map value would also see the rewrite; in the model the header map is a field of the shared `Request` object.
- Concurrency, connection handling and cancellation are left out. None of them appear in `wrapper.go`.
- The unused constant `hdGrpcCompat` (wrapper.go:23) is not modelled.

/**
 * The request side of the gRPC-Web gateway: the classifier, the in-place
 * rewrite of a gRPC-Web request into a plain gRPC one, and the dispatch done
 * by the handler that WrapServer returns. The wrapped gRPC server and the
 * intercepting response writer are opaque; each call into them is recorded as
 * an event in a trace.
 */
module GrpcWeb {
  import opened GoStrings
  import opened Http

  /** The canonical form of the "content-type" key that Header.Get/Set look up. */
  const ContentTypeKey: string := "Content-Type"
  /** The content-type prefix that marks a gRPC-Web request. */
  const GrpcWebContentType: string := "application/grpc-web"
  /** What that prefix is rewritten to for the wrapped gRPC server. */
  const GrpcContentType: string := "application/grpc"

  /** isGrpcWebRequest: the first content-type value starts with "application/grpc-web". */
  function IsGrpcWebRequest(h: HeaderMap): (b: bool)
    ensures b <==> ContentTypeKey in h && h[ContentTypeKey] != []
                   && HasPrefix(h[ContentTypeKey][0], GrpcWebContentType)
    ensures ContentTypeKey !in h ==> !b
  {
    HasPrefix(HeaderGet(h, ContentTypeKey), GrpcWebContentType)
  }

  /** The short-circuit test of the handler: an HTTP/2 request that is not gRPC-Web. */
  function IsNativePassthrough(v: RequestView): (b: bool)
    ensures b <==> v.protoMajor == 2
                   && (ContentTypeKey !in v.header || v.header[ContentTypeKey] == []
                       || !HasPrefix(v.header[ContentTypeKey][0], GrpcWebContentType))
  {
    v.protoMajor == 2 && !IsGrpcWebRequest(v.header)
  }

  /**
   * What hackIntoNormalGrpcRequest does to a request, as a function of its
   * previous state: protocol 2.0, and a single content-type value in which
   * the first "application/grpc-web" became "application/grpc". Nothing else
   * changes; in particular the `proto` string ("HTTP/1.1") is left as it was.
   */
  function Rewrite(v: RequestView): (w: RequestView)
    ensures w.protoMajor == 2 && w.protoMinor == 0
    ensures w.header.Keys == v.header.Keys + {ContentTypeKey}
    ensures w.header[ContentTypeKey]
         == [ReplaceFirst(HeaderGet(v.header, ContentTypeKey), GrpcWebContentType, GrpcContentType)]
    ensures forall k :: k in v.header && k != ContentTypeKey ==> w.header[k] == v.header[k]
    ensures w.(protoMajor := v.protoMajor, protoMinor := v.protoMinor, header := v.header) == v
  {
    var contentType := HeaderGet(v.header, ContentTypeKey);
    v.(protoMajor := 2, protoMinor := 0,
       header := HeaderSet(v.header, ContentTypeKey,
                           ReplaceFirst(contentType, GrpcWebContentType, GrpcContentType)))
  }

  /**
   * hackIntoNormalGrpcRequest: mutates `req` in place into what Rewrite says
   * and returns the very same object.
   */
  method HackIntoNormalGrpcRequest(req: Request) returns (r: Request)
    modifies req
    ensures r == req
    ensures req.View() == Rewrite(old(req.View()))
  {
    req.protoMajor := 2;
    req.protoMinor := 0;
    var contentType := HeaderGet(req.header, ContentTypeKey);
    req.header := HeaderSet(req.header, ContentTypeKey,
                            ReplaceFirst(contentType, GrpcWebContentType, GrpcContentType));
    r := req;
  }

  /** A gRPC-Web content-type loses exactly its "-web": "application/grpc" followed by the old tail. */
  lemma RewriteOfGrpcWebContentType(v: RequestView)
    requires HasPrefix(HeaderGet(v.header, ContentTypeKey), GrpcWebContentType)
    ensures Rewrite(v).header[ContentTypeKey]
         == [GrpcContentType + HeaderGet(v.header, ContentTypeKey)[|GrpcWebContentType|..]]
  {
    ReplaceFirstOfPrefix(HeaderGet(v.header, ContentTypeKey), GrpcWebContentType, GrpcContentType);
  }

  /**
   * A content-type without "application/grpc-web" keeps its text, but is
   * normalised to one value; an absent content-type becomes "".
   */
  lemma RewriteWithoutGrpcWebToken(v: RequestView)
    requires !Contains(HeaderGet(v.header, ContentTypeKey), GrpcWebContentType)
    ensures Rewrite(v).header == v.header[ContentTypeKey := [HeaderGet(v.header, ContentTypeKey)]]
    ensures ContentTypeKey !in v.header ==> Rewrite(v).header == v.header[ContentTypeKey := [""]]
  {
  }

  /**
   * After a gRPC-Web content-type is rewritten, the request is still
   * classified gRPC-Web exactly when the old tail after the prefix began
   * with "-web" (e.g. "application/grpc-web-web"); otherwise the rewritten
   * request is one the handler would pass straight through.
   */
  lemma {:induction false} RewrittenClassification(v: RequestView)
    requires HasPrefix(HeaderGet(v.header, ContentTypeKey), GrpcWebContentType)
    ensures IsGrpcWebRequest(Rewrite(v).header)
        <==> HasPrefix(HeaderGet(v.header, ContentTypeKey)[|GrpcWebContentType|..], "-web")
    ensures IsNativePassthrough(Rewrite(v))
        <==> !HasPrefix(HeaderGet(v.header, ContentTypeKey)[|GrpcWebContentType|..], "-web")
  {
    var tail := HeaderGet(v.header, ContentTypeKey)[|GrpcWebContentType|..];
    RewriteOfGrpcWebContentType(v);
    var ct := GrpcContentType + tail;
    assert HeaderGet(Rewrite(v).header, ContentTypeKey) == ct;
    assert GrpcWebContentType == GrpcContentType + "-web";
    if HasPrefix(tail, "-web") {
      assert ct[..|GrpcWebContentType|] == GrpcContentType + tail[..4];
    }
    if HasPrefix(ct, GrpcWebContentType) {
      assert tail[..4] == ct[|GrpcContentType|..|GrpcWebContentType|];
    }
  }

  /**
   * An HTTP/1.1 request with content-type "application/grpc-web+proto" is
   * served as an HTTP/2.0 request with content-type "application/grpc+proto",
   * and then finished.
   */
  lemma GrpcWebProtoOverHttp1(v: RequestView)
    requires v.protoMajor == 1 && v.protoMinor == 1
    requires v.header == map[ContentTypeKey := ["application/grpc-web+proto"]]
    ensures Dispatch(v) == [Serve(true, Rewrite(v)), Finish(Rewrite(v))]
    ensures Rewrite(v).protoMajor == 2 && Rewrite(v).protoMinor == 0
    ensures Rewrite(v).header == map[ContentTypeKey := ["application/grpc+proto"]]
  {
    var ct := "application/grpc-web+proto";
    assert HasPrefix(ct, GrpcWebContentType);
    NonHttp2AlwaysIntercepted(v);
    RewriteOfGrpcWebContentType(v);
    assert ct[|GrpcWebContentType|..] == "+proto";
    assert GrpcContentType + "+proto" == "application/grpc+proto";
    assert Rewrite(v).header.Keys == {ContentTypeKey};
  }

  /** A call into the wrapped gRPC server or into the intercepting response, as seen from outside. */
  datatype Event =
    | Serve(intercepted: bool, request: RequestView)  // server.ServeHTTP, through an intercepting response or not
    | Finish(request: RequestView)                    // intResp.finishRequest

  /**
   * The calls the handler makes for a request in state `v`: the server is
   * called exactly once, first; the request it sees is `v` itself on the
   * short-circuit path and the rewritten `v` otherwise; finishRequest runs
   * exactly once after the server returns, and only on the intercepted path.
   * finishRequest receives the original pointer, which by then holds the
   * rewritten request.
   */
  function Dispatch(v: RequestView): (trace: seq<Event>)
    ensures |trace| > 0 && trace[0].Serve?
    ensures forall i :: 0 < i < |trace| ==> !trace[i].Serve?
    ensures !trace[0].intercepted <==> v.protoMajor == 2 && !IsGrpcWebRequest(v.header)
    ensures !trace[0].intercepted ==> trace == [Serve(false, v)]
    ensures trace[0].intercepted ==> trace == [Serve(true, Rewrite(v)), Finish(Rewrite(v))]
  {
    if IsNativePassthrough(v) then [Serve(false, v)]
    else [Serve(true, Rewrite(v)), Finish(Rewrite(v))]
  }

  /** A request that is not HTTP/2 is always rewritten and intercepted, whatever its content-type. */
  lemma NonHttp2AlwaysIntercepted(v: RequestView)
    requires v.protoMajor != 2
    ensures Dispatch(v) == [Serve(true, Rewrite(v)), Finish(Rewrite(v))]
    ensures Dispatch(v)[0].request.protoMajor == 2
  {
  }

  /**
   * No content-type is refused: a request that is not HTTP/2 and whose
   * content-type does not contain "application/grpc-web" is still served
   * through the intercepting response and finished; the server sees the
   * content-type text unchanged, reduced to one value.
   */
  lemma NonHttp2WithoutGrpcWebTokenIsServed(v: RequestView)
    requires v.protoMajor != 2
    requires !Contains(HeaderGet(v.header, ContentTypeKey), GrpcWebContentType)
    ensures Dispatch(v) == [Serve(true, Rewrite(v)), Finish(Rewrite(v))]
    ensures Rewrite(v).header == v.header[ContentTypeKey := [HeaderGet(v.header, ContentTypeKey)]]
  {
    NonHttp2AlwaysIntercepted(v);
    RewriteWithoutGrpcWebToken(v);
  }

  /** An instance: an HTTP/1.1 "text/plain" request is served with its headers unchanged. */
  lemma PlainTextOverHttp1IsServed(v: RequestView)
    requires v.protoMajor == 1 && v.header == map[ContentTypeKey := ["text/plain"]]
    ensures Dispatch(v)[0] == Serve(true, Rewrite(v))
    ensures Rewrite(v).header == v.header
  {
    assert !OccursAt("text/plain", GrpcWebContentType, 0);
    NonHttp2WithoutGrpcWebTokenIsServed(v);
  }

  /**
   * The gRPC server wrapped by WrapServer, with the handler it returns as
   * ServeHTTP. `trace` is the sequence of calls made into the server and the
   * intercepting response so far.
   */
  class WrappedServer {
    var trace: seq<Event>

    /** WrapServer: nothing has been served yet. */
    constructor WrapServer()
      ensures trace == []
    {
      trace := [];
    }

    /** The handler closure: serves one request and records the calls it makes. */
    method ServeHTTP(req: Request)
      modifies this, req
      ensures trace == old(trace) + Dispatch(old(req.View()))
      ensures req.View() == if IsNativePassthrough(old(req.View())) then old(req.View())
                            else Rewrite(old(req.View()))
    {
      if req.protoMajor == 2 && !IsGrpcWebRequest(req.header) {
        ServeWrapped(false, req);
        return;
      }
      var intReq := HackIntoNormalGrpcRequest(req);
      ServeWrapped(true, intReq);
      FinishRequest(req);
    }

    /** server.ServeHTTP, with the real response writer or with the intercepting one. */
    method ServeWrapped(intercepted: bool, req: Request)
      modifies this
      ensures trace == old(trace) + [Serve(intercepted, req.View())]
    {
      trace := trace + [Serve(intercepted, req.View())];
    }

    /** intResp.finishRequest(req). */
    method FinishRequest(req: Request)
      modifies this
      ensures trace == old(trace) + [Finish(req.View())]
    {
      trace := trace + [Finish(req.View())];
    }
  }
}

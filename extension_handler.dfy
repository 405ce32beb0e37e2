/**
  `C9ExtensionHandler` as a class over the gateway's fields. Each method
  changes them as the matching function of ExtensionModel says
  (`Snapshot()` is the fields as one `Gateway` value), where the properties
  are proved.
 */
module ExtensionHandler {
  import opened Text
  import opened ExtensionModel

  class C9ExtensionHandler {
    var pendingRequests: map<string, Outcome<Body>>
    var knownHeaders: seq<Header>
    /** The requests `_fetchUrl` has sent, in order. */
    var fetches: seq<OutgoingRequest>

    ghost function Snapshot(): Gateway
      reads this
    {
      Gateway(pendingRequests, knownHeaders, fetches)
    }

    constructor()
      ensures Snapshot() == InitialGateway()
    {
      pendingRequests := map[];
      knownHeaders := [];
      fetches := [];
    }

    /** `_handleRequest`: answers a `c9shell` request from the pending table, which it leaves alone. */
    method HandleRequest(url: string) returns (r: ProtocolResponse)
      ensures r == Answer(pendingRequests, url)
    {
      var requestId := HostOf(url);
      if requestId !in pendingRequests {
        return Error(ServerError);
      }
      match pendingRequests[requestId]
      case Ok(body) => r := Content(body);
      case Failed => r := Error(ServerError);
    }

    /** `_interceptExtensionsRequest`, with the outcomes of the work it starts as parameters. */
    method InterceptExtensionsRequest(
      url: string, referrer: string, requestId: string,
      fetched: Outcome<seq<Extension>>, id2: string, script: Outcome<string>
    ) returns (r: Response)
      modifies this
      ensures Intercepted(Snapshot(), r) == InterceptExtensions(old(Snapshot()), url, referrer, requestId, fetched, id2, script)
    {
      if EndsWith(referrer, InternalMarker) {
        return Proceed;
      }
      FetchUrl(url, referrer);
      // The entry under `requestId` is registered first and holds the value
      // the insertion below resolves to; a failed fetch leaves it failed.
      var promised := ManifestOutcome(fetched, id2);
      pendingRequests := pendingRequests[requestId := promised];
      if fetched.Ok? {
        var body := InsertExtension(fetched.value, id2, script);
        assert promised == Ok(body);
      }
      r := Redirect(VirtualUrl(requestId));
    }

    /** `_interceptBootstrapRequest`: keep the request's headers, replacing the old ones. */
    method InterceptBootstrapRequest(requestHeaders: seq<Header>) returns (r: Response)
      modifies this
      ensures Intercepted(Snapshot(), r) == InterceptBootstrap(old(Snapshot()), requestHeaders)
    {
      knownHeaders := requestHeaders;
      r := Proceed;
    }

    /** The part of `_fetchUrl` that builds the request: the header loop and the marked referrer. */
    method FetchUrl(url: string, referrer: string)
      modifies this
      ensures fetches == old(fetches) + [FetchRequest(url, referrer, knownHeaders)]
      ensures pendingRequests == old(pendingRequests) && knownHeaders == old(knownHeaders)
    {
      var headers := ForwardHeaders(knownHeaders);
      var marked := referrer + (if '?' in referrer then "&" else "?") + InternalMarker;
      headers := headers + [Header("Referer", marked)];
      fetches := fetches + [OutgoingRequest(url, headers)];
    }

    /** The loop of `_fetchUrl` over the known headers: it copies those on the allow-list, in order. */
    static method ForwardHeaders(known: seq<Header>) returns (headers: seq<Header>)
      ensures headers == Forwarded(known)
    {
      headers := [];
      for i := 0 to |known|
        invariant headers == Forwarded(known[..i])
      {
        ForwardedAppend(known[..i], [known[i]]);
        assert known[..i + 1] == known[..i] + [known[i]];
        assert Forwarded([known[i]]) == if IsRequiredHeader(known[i].name) then [known[i]] else [] by {
          assert [known[i]][..0] == [];
        }
        if ToLower(known[i].name) in RequiredHeaders {
          headers := headers + [known[i]];
        }
      }
      assert known[..|known|] == known;
    }

    /**
      `_insertExtension` on the fetched list: the list it resolves to, and the
      registration of the bundled script under `id2` unless a development
      build was kept.
     */
    method InsertExtension(extensions: seq<Extension>, id2: string, script: Outcome<string>) returns (body: Body)
      modifies this
      ensures Ok(body) == ManifestOutcome(Ok(extensions), id2)
      ensures pendingRequests == RegisterScript(old(pendingRequests), Ok(extensions), id2, script)
      ensures knownHeaders == old(knownHeaders) && fetches == old(fetches)
    {
      var parsed := extensions;
      var existing := FirstIndexOf(parsed, C9ExtensionId);
      if existing >= 0 {
        if EndsWith(parsed[existing].version, DevelopmentSuffix) {
          return Manifest(extensions);
        }
        parsed := parsed[..existing] + parsed[existing + 1..];
      }
      parsed := parsed + [InjectedDescriptor(id2)];
      pendingRequests := pendingRequests[id2 := match script case Ok(text) => Ok(Script(text)) case Failed => Failed];
      body := Manifest(parsed);
    }
  }
}

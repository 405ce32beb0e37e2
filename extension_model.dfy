/**
  The C9 extension gateway as values. The gateway watches the session's web
  requests. A request for the extensions list is answered by a redirect to
  `c9shell://<id>/`, and the list is fetched again behind the scenes, with
  a referrer that marks the fetch as internal so that it is not intercepted
  again. The bundled integration extension is inserted into that list, and
  the `c9shell` protocol handler answers from the table of pending results.

  Asynchrony is collapsed: an interception takes the outcome of its fetch
  (the list, already parsed, or a failure), the id the insertion draws and
  the outcome of reading the bundled script as parameters. The random ids
  are parameters too; the code does not check them for collisions.
 */
module ExtensionModel {
  import opened Text

  /** The header names forwarded from the bootstrap request, lower-cased. */
  const RequiredHeaders: set<string> := {"symphony-anonymous-id", "x-symphony-csrf-token", "cookie"}

  /** The suffix that marks a request as the gateway's own. */
  const InternalMarker := "c9shell=true"

  const C9ExtensionId := "@symphony/symphony-c9"
  const DevelopmentSuffix := "automatic"
  const VirtualScheme := "c9shell://"
  const ServerError := 500

  datatype Header = Header(name: string, value: string)

  /** A request the gateway sends itself: its url and the headers it sets, in order. */
  datatype OutgoingRequest = OutgoingRequest(url: string, headers: seq<Header>)

  /** One entry of the extensions list. */
  datatype Extension = Extension(name: string, id: string, libVersion: string, version: string, active: bool, url: string)

  /** A settled promise. */
  datatype Outcome<T> = Ok(value: T) | Failed

  /** What the protocol handler serves: an extensions list or the bundled script. */
  datatype Body = Manifest(entries: seq<Extension>) | Script(text: string)

  /** The answer to an intercepted web request. */
  datatype Response = Proceed | Redirect(redirectUrl: string)

  /** The answer of the `c9shell` protocol handler. */
  datatype ProtocolResponse = Content(body: Body) | Error(code: int)

  // ---------------------------------------------------------------- headers

  /** Header names match the allow-list whatever their case. */
  predicate IsRequiredHeader(name: string) {
    ToLower(name) in RequiredHeaders
  }

  /** The known headers the fetch sets, in their order, with their values. */
  function Forwarded(known: seq<Header>): (r: seq<Header>)
    ensures forall h :: h in r <==> h in known && IsRequiredHeader(h.name)
    ensures |r| <= |known|
  {
    if known == [] then []
    else
      var last := known[|known| - 1];
      var rest := Forwarded(known[..|known| - 1]);
      assert known == known[..|known| - 1] + [last];
      if IsRequiredHeader(last.name) then rest + [last] else rest
  }

  /** Forwarding works header by header: it distributes over concatenation. */
  lemma {:induction false} ForwardedAppend(a: seq<Header>, b: seq<Header>)
    ensures Forwarded(a + b) == Forwarded(a) + Forwarded(b)
    decreases |b|
  {
    if b != [] {
      var b' := b[..|b| - 1];
      assert (a + b)[..|a + b| - 1] == a + b';
      ForwardedAppend(a, b');
    } else {
      assert a + b == a;
    }
  }

  /** The case of a header name does not matter: a name and its lower-case form are kept alike. */
  lemma HeaderCaseIgnored(name: string)
    ensures IsRequiredHeader(name) <==> IsRequiredHeader(ToLower(name))
  {
    assert ToLower(ToLower(name)) == ToLower(name) by {
      forall i | 0 <= i < |name| ensures ToLower(ToLower(name))[i] == ToLower(name)[i] {
        assert LowerChar(LowerChar(name[i])) == LowerChar(name[i]);
      }
    }
  }

  /** `Cookie` is forwarded whatever its case; `Authorization` is dropped. */
  lemma HeaderExamples()
    ensures IsRequiredHeader("Cookie") && IsRequiredHeader("COOKIE")
    ensures !IsRequiredHeader("Authorization")
  {
    assert ToLower("Cookie") == "cookie";
    assert ToLower("COOKIE") == "cookie";
    assert |ToLower("Authorization")| != |"cookie"|;
  }

  // --------------------------------------------------------------- referrer

  /** The loop guard: a request whose referrer carries the marker is the gateway's own. */
  predicate IsInternal(referrer: string) {
    EndsWith(referrer, InternalMarker)
  }

  /** The referrer of the internal fetch: the marker added as a query parameter. */
  function MarkReferrer(referrer: string): (r: string)
    ensures StartsWith(r, referrer) && IsInternal(r)
    ensures |r| == |referrer| + 1 + |InternalMarker|
    ensures r[|referrer|] == if '?' in referrer then '&' else '?'
  {
    referrer + (if '?' in referrer then "&" else "?") + InternalMarker
  }

  /** The request `_fetchUrl` sends: the forwarded headers, then the marked referrer. */
  function FetchRequest(url: string, referrer: string, known: seq<Header>): OutgoingRequest {
    OutgoingRequest(url, Forwarded(known) + [Header("Referer", MarkReferrer(referrer))])
  }

  // ---------------------------------------------------------- the manifest

  /** `findIndex` of the first entry with id `id`, or -1. */
  function FirstIndexOf(m: seq<Extension>, id: string): (i: int)
    ensures -1 <= i < |m|
    ensures i >= 0 ==> m[i].id == id
    ensures forall j :: 0 <= j < |m| && (i == -1 || j < i) ==> m[j].id != id
  {
    if m == [] then -1
    else if m[0].id == id then 0
    else
      var i := FirstIndexOf(m[1..], id);
      assert forall j :: 1 <= j < |m| ==> m[j] == m[1..][j - 1];
      if i == -1 then -1 else i + 1
  }

  predicate HasC9(m: seq<Extension>) {
    exists i :: 0 <= i < |m| && m[i].id == C9ExtensionId
  }

  /** The address the protocol handler serves request `id` under. */
  function VirtualUrl(id: string): string {
    VirtualScheme + id + "/"
  }

  /** The descriptor of the bundled extension, served under id `id2`. */
  function InjectedDescriptor(id2: string): Extension {
    Extension("C9 Integration", C9ExtensionId, "1", "1.0.0-injected", true, VirtualUrl(id2))
  }

  /** What `_insertExtension` does to the list. */
  datatype Injection =
    | KeepDevelopment                  // a development build is installed: the list is returned as it came
    | Injected(entries: seq<Extension>) // the rewritten list; the script is then registered under the new id

  function InsertExtension(m: seq<Extension>, id2: string): Injection {
    var i := FirstIndexOf(m, C9ExtensionId);
    if i >= 0 && EndsWith(m[i].version, DevelopmentSuffix) then KeepDevelopment
    else
      var others := if i >= 0 then m[..i] + m[i + 1..] else m;
      Injected(others + [InjectedDescriptor(id2)])
  }

  /**
    The list is kept as it came exactly when its first C9 entry is a
    development build; otherwise the rewritten list ends with the descriptor.
   */
  lemma InsertExtensionOutcome(m: seq<Extension>, id2: string)
    ensures var r := InsertExtension(m, id2);
      && (r.KeepDevelopment? <==> HasC9(m) && EndsWith(m[FirstIndexOf(m, C9ExtensionId)].version, DevelopmentSuffix))
      && (r.Injected? ==> |r.entries| >= 1 && r.entries[|r.entries| - 1] == InjectedDescriptor(id2))
  {
    var i := FirstIndexOf(m, C9ExtensionId);
    assert HasC9(m) <==> i >= 0;
  }

  /**
    Apart from the appended descriptor, the rewritten list is the original one
    with its first C9 entry, and only that one, removed: every other entry is
    kept, in its order.
   */
  lemma InjectedKeepsOthers(m: seq<Extension>, id2: string)
    requires InsertExtension(m, id2).Injected?
    ensures var entries := InsertExtension(m, id2).entries;
      var i := FirstIndexOf(m, C9ExtensionId);
      && (i >= 0 ==>
            && |entries| == |m|
            && (forall j :: 0 <= j < i ==> entries[j] == m[j])
            && (forall j :: i < j < |m| ==> entries[j - 1] == m[j]))
      && (i < 0 ==> entries == m + [InjectedDescriptor(id2)])
  {
    var i := FirstIndexOf(m, C9ExtensionId);
    if i >= 0 {
      var others := m[..i] + m[i + 1..];
      var entries := others + [InjectedDescriptor(id2)];
      assert InsertExtension(m, id2).entries == entries;
      forall j | 0 <= j < i ensures entries[j] == m[j] {
        assert entries[j] == others[j] == m[..i][j];
      }
      forall j | i < j < |m| ensures entries[j - 1] == m[j] {
        assert entries[j - 1] == others[j - 1] == m[i + 1..][j - 1 - i];
      }
    }
  }

  /** A list without a C9 entry gets exactly one, the descriptor, at its end. */
  lemma InjectedIntoPlainList(m: seq<Extension>, id2: string)
    requires !HasC9(m)
    ensures InsertExtension(m, id2) == Injected(m + [InjectedDescriptor(id2)])
    ensures FirstIndexOf(m + [InjectedDescriptor(id2)], C9ExtensionId) == |m|
  {
    var i := FirstIndexOf(m, C9ExtensionId);
    if i >= 0 {
      assert false;
    }
    var m' := m + [InjectedDescriptor(id2)];
    var k := FirstIndexOf(m', C9ExtensionId);
    assert m'[|m|] == InjectedDescriptor(id2);
    if 0 <= k < |m| {
      assert false;
    }
  }

  /**
    Inserting into a list the gateway has already rewritten replaces the
    descriptor rather than adding a second one.
   */
  lemma {:induction false} InsertReplacesDescriptor(m: seq<Extension>, id2: string, id3: string)
    requires !HasC9(m)
    ensures InsertExtension(m + [InjectedDescriptor(id2)], id3) == InsertExtension(m, id3)
  {
    InjectedIntoPlainList(m, id2);
    var m' := m + [InjectedDescriptor(id2)];
    assert m'[..|m|] == m && m'[|m| + 1..] == [];
    assert !EndsWith("1.0.0-injected", DevelopmentSuffix);
  }

  // ---------------------------------------------------------- the gateway

  /** The host of a `c9shell://` url: what comes before the first `/`, `?`, `#` or `:`. */
  function HostOf(url: string): string {
    if StartsWith(url, VirtualScheme) then HostPart(url[|VirtualScheme|..]) else ""
  }

  predicate IsHostEnd(c: char) {
    c == '/' || c == '?' || c == '#' || c == ':'
  }

  function HostPart(s: string): (r: string)
    ensures StartsWith(s, r)
    ensures forall k :: 0 <= k < |r| ==> !IsHostEnd(r[k])
    ensures |r| < |s| ==> IsHostEnd(s[|r|])
  {
    if s == [] || IsHostEnd(s[0]) then [] else [s[0]] + HostPart(s[1..])
  }

  /** `randomBytes(32).toString('hex')` yields lower-case hexadecimal digits. */
  predicate IsHexId(id: string) {
    forall k :: 0 <= k < |id| ==> IsDigit(id[k]) || 'a' <= id[k] <= 'f'
  }

  /** The host part stops at the first terminator. */
  lemma {:induction false} HostPartUpTo(s: string, t: string)
    requires forall k :: 0 <= k < |s| ==> !IsHostEnd(s[k])
    requires t == [] || IsHostEnd(t[0])
    ensures HostPart(s + t) == s
  {
    if s != [] {
      assert (s + t)[0] == s[0] && (s + t)[1..] == s[1..] + t;
      HostPartUpTo(s[1..], t);
    } else {
      assert s + t == t;
    }
  }

  /** The protocol handler reads back the id of the address it was given. */
  lemma HostOfVirtualUrl(id: string)
    requires IsHexId(id)
    ensures HostOf(VirtualUrl(id)) == id
  {
    assert VirtualUrl(id)[|VirtualScheme|..] == id + "/";
    HostPartUpTo(id, "/");
  }

  /** The gateway's state: the pending results, the captured headers, the fetches sent. */
  datatype Gateway = Gateway(pending: map<string, Outcome<Body>>, knownHeaders: seq<Header>, fetches: seq<OutgoingRequest>)

  function InitialGateway(): Gateway {
    Gateway(map[], [], [])
  }

  /** `_handleRequest`: the answer to the protocol request for `url`. */
  function Answer(pending: map<string, Outcome<Body>>, url: string): (r: ProtocolResponse)
    ensures HostOf(url) !in pending ==> r == Error(ServerError)
    ensures HostOf(url) in pending && pending[HostOf(url)].Failed? ==> r == Error(ServerError)
    ensures HostOf(url) in pending && pending[HostOf(url)].Ok? ==> r == Content(pending[HostOf(url)].value)
  {
    var id := HostOf(url);
    if id !in pending then Error(ServerError)
    else match pending[id]
      case Ok(body) => Content(body)
      case Failed => Error(ServerError)
  }

  /** What the pending result of an extensions request settles to. */
  function ManifestOutcome(fetched: Outcome<seq<Extension>>, id2: string): Outcome<Body> {
    match fetched
    case Failed => Failed
    case Ok(m) =>
      match InsertExtension(m, id2)
      case KeepDevelopment => Ok(Manifest(m))
      case Injected(entries) => Ok(Manifest(entries))
  }

  /** `_insertExtension`'s registration of the bundled script, once the fetch succeeded. */
  function RegisterScript(
    pending: map<string, Outcome<Body>>, fetched: Outcome<seq<Extension>>, id2: string, script: Outcome<string>
  ): map<string, Outcome<Body>> {
    if fetched.Ok? && InsertExtension(fetched.value, id2).Injected? then
      pending[id2 := match script case Ok(text) => Ok(Script(text)) case Failed => Failed]
    else pending
  }

  datatype Intercepted = Intercepted(gateway: Gateway, response: Response)

  /**
    `_interceptExtensionsRequest` for a request to `url` with `referrer`:
    `id` is the id it draws, `fetched` the outcome of its fetch, `id2` the id
    the insertion draws and `script` the outcome of reading the bundled script.
   */
  function InterceptExtensions(
    g: Gateway, url: string, referrer: string, id: string,
    fetched: Outcome<seq<Extension>>, id2: string, script: Outcome<string>
  ): Intercepted {
    if IsInternal(referrer) then Intercepted(g, Proceed)
    else
      var g1 := g.(fetches := g.fetches + [FetchRequest(url, referrer, g.knownHeaders)]);
      var g2 := g1.(pending := g1.pending[id := ManifestOutcome(fetched, id2)]);
      Intercepted(g2.(pending := RegisterScript(g2.pending, fetched, id2, script)), Redirect(VirtualUrl(id)))
  }

  /** `_interceptBootstrapRequest`: the request's headers replace the known ones. */
  function InterceptBootstrap(g: Gateway, headers: seq<Header>): Intercepted {
    Intercepted(g.(knownHeaders := headers), Proceed)
  }

  /** A request carrying the marker is let through and changes nothing. */
  lemma InternalRequestPassesThrough(
    g: Gateway, url: string, referrer: string, id: string,
    fetched: Outcome<seq<Extension>>, id2: string, script: Outcome<string>)
    requires IsInternal(referrer)
    ensures InterceptExtensions(g, url, referrer, id, fetched, id2, script) == Intercepted(g, Proceed)
  {
  }

  /** The gateway's own fetch is not intercepted: its referrer passes the guard. */
  lemma FetchIsNotIntercepted(
    g: Gateway, url: string, referrer: string, id: string,
    fetched: Outcome<seq<Extension>>, id2: string, script: Outcome<string>,
    g': Gateway, id': string, fetched': Outcome<seq<Extension>>, id2': string, script': Outcome<string>)
    requires !IsInternal(referrer)
    ensures var r := InterceptExtensions(g, url, referrer, id, fetched, id2, script);
      var sent := r.gateway.fetches[|r.gateway.fetches| - 1];
      var marked := sent.headers[|sent.headers| - 1];
      && marked.name == "Referer"
      && InterceptExtensions(g', sent.url, marked.value, id', fetched', id2', script') == Intercepted(g', Proceed)
  {
  }

  /**
    An extensions request from outside is redirected to `c9shell://<id>/`,
    sends one fetch with the forwarded headers and the marked referrer, and
    adds an entry under `id`, and under `id2` when the list was rewritten;
    nothing else changes.
   */
  lemma ExternalRequestRedirected(
    g: Gateway, url: string, referrer: string, id: string,
    fetched: Outcome<seq<Extension>>, id2: string, script: Outcome<string>)
    requires !IsInternal(referrer)
    ensures var r := InterceptExtensions(g, url, referrer, id, fetched, id2, script);
      var injected := fetched.Ok? && InsertExtension(fetched.value, id2).Injected?;
      && r.response == Redirect(VirtualUrl(id))
      && r.gateway.knownHeaders == g.knownHeaders
      && r.gateway.fetches == g.fetches + [OutgoingRequest(url, Forwarded(g.knownHeaders) + [Header("Referer", MarkReferrer(referrer))])]
      && r.gateway.pending.Keys == g.pending.Keys + {id} + (if injected then {id2} else {})
      && (!(injected && id == id2) ==> r.gateway.pending[id] == ManifestOutcome(fetched, id2))
      && (injected ==> r.gateway.pending[id2] == match script case Ok(text) => Ok(Script(text)) case Failed => Failed)
      && forall k :: k in g.pending && k != id && !(injected && k == id2) ==> r.gateway.pending[k] == g.pending[k]
  {
  }

  /**
    Once an outside request was intercepted, the protocol request for the
    address it was redirected to is answered with the rewritten list (or the
    list as it came, for a development build), or with error 500 if the
    fetch failed; the script is served under the descriptor's address.
    `id != id2` is the freshness the random ids are relied on for.
   */
  lemma InterceptedRequestAnswered(
    g: Gateway, url: string, referrer: string, id: string,
    fetched: Outcome<seq<Extension>>, id2: string, script: Outcome<string>)
    requires !IsInternal(referrer) && IsHexId(id) && IsHexId(id2) && id != id2
    ensures var pending := InterceptExtensions(g, url, referrer, id, fetched, id2, script).gateway.pending;
      && Answer(pending, VirtualUrl(id)) ==
           (match fetched
            case Failed => Error(ServerError)
            case Ok(m) => Content(Manifest(if InsertExtension(m, id2).Injected? then InsertExtension(m, id2).entries else m)))
      && (fetched.Ok? && InsertExtension(fetched.value, id2).Injected? ==>
           Answer(pending, InjectedDescriptor(id2).url) ==
             match script case Ok(text) => Content(Script(text)) case Failed => Error(ServerError))
  {
    ManifestServed(g, url, referrer, id, fetched, id2, script);
    if fetched.Ok? && InsertExtension(fetched.value, id2).Injected? {
      ScriptServed(g, url, referrer, id, fetched, id2, script);
    }
  }

  lemma ManifestServed(
    g: Gateway, url: string, referrer: string, id: string,
    fetched: Outcome<seq<Extension>>, id2: string, script: Outcome<string>)
    requires !IsInternal(referrer) && IsHexId(id) && id != id2
    ensures var pending := InterceptExtensions(g, url, referrer, id, fetched, id2, script).gateway.pending;
      id in pending && pending[id] == ManifestOutcome(fetched, id2) &&
      Answer(pending, VirtualUrl(id)) ==
        (match fetched
         case Failed => Error(ServerError)
         case Ok(m) => Content(Manifest(if InsertExtension(m, id2).Injected? then InsertExtension(m, id2).entries else m)))
  {
    HostOfVirtualUrl(id);
    var pending := InterceptExtensions(g, url, referrer, id, fetched, id2, script).gateway.pending;
    var registered := g.pending[id := ManifestOutcome(fetched, id2)];
    assert pending == RegisterScript(registered, fetched, id2, script);
    assert id in pending && pending[id] == ManifestOutcome(fetched, id2);
  }

  lemma ScriptServed(
    g: Gateway, url: string, referrer: string, id: string,
    fetched: Outcome<seq<Extension>>, id2: string, script: Outcome<string>)
    requires !IsInternal(referrer) && IsHexId(id2)
    requires fetched.Ok? && InsertExtension(fetched.value, id2).Injected?
    ensures var pending := InterceptExtensions(g, url, referrer, id, fetched, id2, script).gateway.pending;
      Answer(pending, InjectedDescriptor(id2).url) ==
        match script case Ok(text) => Content(Script(text)) case Failed => Error(ServerError)
  {
    HostOfVirtualUrl(id2);
    var pending := InterceptExtensions(g, url, referrer, id, fetched, id2, script).gateway.pending;
    assert id2 in pending && pending[id2] == match script case Ok(text) => Ok(Script(text)) case Failed => Failed;
  }

  /** An interception under fresh ids leaves every earlier answer as it was. */
  lemma {:induction false} EarlierAnswersStable(
    g: Gateway, url: string, referrer: string, id: string,
    fetched: Outcome<seq<Extension>>, id2: string, script: Outcome<string>, request: string)
    requires id !in g.pending && id2 !in g.pending && HostOf(request) in g.pending
    ensures Answer(InterceptExtensions(g, url, referrer, id, fetched, id2, script).gateway.pending, request) ==
            Answer(g.pending, request)
  {
    var r := InterceptExtensions(g, url, referrer, id, fetched, id2, script);
    assert r.gateway.pending[HostOf(request)] == g.pending[HostOf(request)];
  }

  /** The bootstrap request replaces the headers wholesale and is let through. */
  lemma BootstrapReplacesHeaders(g: Gateway, headers: seq<Header>, url: string, referrer: string)
    ensures InterceptBootstrap(g, headers).response == Proceed
    ensures InterceptBootstrap(g, headers).gateway == g.(knownHeaders := headers)
    ensures FetchRequest(url, referrer, InterceptBootstrap(g, headers).gateway.knownHeaders).headers ==
            Forwarded(headers) + [Header("Referer", MarkReferrer(referrer))]
  {
  }
}

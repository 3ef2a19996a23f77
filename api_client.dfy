/** The API client: one immutable pair of endpoint and API key, a generic
    authenticated call, and one wrapper per entity operation.

    Everything the client cannot see through is a parameter (`Env`): parsing
    the endpoint URI, signing the token, escaping query components, JSON
    encoding and decoding, building and sending the HTTP request. The client
    itself is then a function of its inputs; `sent` records the request it
    handed to the transport, so "no request was made" can be stated. */
module ApiClient {
  import opened Wrappers
  import opened Text
  import opened ApiTypes

  datatype Client = Client(uri: string, apiKey: string)

  /** The sentinel endpoint and key for which the firewall operations and
      GetServer answer without a network call. */
  predicate IsMockup(c: Client) {
    c.uri == "https://mockup" && c.apiKey == "mockup"
  }

  /** The value whose JSON encoding is a request body. */
  datatype Payload = FirewallPayload(firewall: Firewall) | ServerPayload(server: Server)

  /** An HTTP request as handed to the transport. */
  datatype Request = Request(verb: string, url: string, body: string, contentType: string, authToken: string)

  /** A response with its body read to the end. */
  datatype HttpResponse = HttpResponse(statusCode: int, status: string, body: string)

  /** The collaborators the client calls but whose internals are not modelled:
      - hostname: url.Parse followed by Hostname(), None when parsing fails;
      - sign: builds and signs the HS512 token for (API key, instance claim),
        expiring five minutes after the current time;
      - escape: url.QueryEscape;
      - marshal: json.Marshal of a payload;
      - newRequest: the error http.NewRequest gives for (method, url), if any;
      - send: http.Client.Do followed by io.ReadAll of the body;
      - decodeServer, decodeFirewall, decodeGroups: json.Unmarshal. */
  datatype Env = Env(
    hostname: string -> Option<string>,
    sign: (string, string) -> Result<string, string>,
    escape: string -> string,
    marshal: Payload -> Result<string, string>,
    newRequest: (string, string) -> Option<string>,
    send: Request -> Result<HttpResponse, string>,
    decodeServer: string -> Result<Server, string>,
    decodeFirewall: string -> Result<Firewall, string>,
    decodeGroups: string -> Result<seq<Group>, string>)

  /** The "instance" claim of the token: the endpoint's host name, or "" when
      the endpoint does not parse (which is not an error). */
  function InstanceClaim(c: Client, env: Env): string {
    match env.hostname(c.uri)
    case Some(host) => host
    case None => ""
  }

  /** generateJWTAccessToken: the token signed with the API key. */
  function AccessToken(c: Client, env: Env): Result<string, string> {
    env.sign(c.apiKey, InstanceClaim(c, env))
  }

  /** The token's instance claim is the URI's hostname; a URI that does not
      parse is not an error of its own but gives the empty claim, so the
      token then fails only if signing fails. */
  lemma AccessTokenClaim(c: Client, env: Env)
    ensures env.hostname(c.uri).Some? ==> AccessToken(c, env) == env.sign(c.apiKey, env.hostname(c.uri).value)
    ensures env.hostname(c.uri).None? ==> AccessToken(c, env) == env.sign(c.apiKey, "")
    ensures env.hostname(c.uri).None? && env.sign(c.apiKey, "").Success? ==> AccessToken(c, env).Success?
  {
  }

  /** The request URL: `<uri>/cliapi/<entity>`, then `/<escaped id>` when an
      id is given, then `?name=<escaped name>` when a name is given. */
  function RequestUrl(uri: string, entity: string, name: string, id: string, escape: string -> string): string {
    var url := uri + "/cliapi/" + entity;
    var url := if id != "" then url + "/" + escape(id) else url;
    if name != "" then url + "?name=" + escape(name) else url
  }

  /** The parts of a request URL, as they stand in it (escaped). */
  datatype Route = Route(entity: string, escapedId: string, escapedName: string)

  /** Reads a request URL back: entity up to the first '/', id segment up to
      the first '?', and the `name` query after it. */
  function ParseRoute(uri: string, url: string): Option<Route> {
    var prefix := uri + "/cliapi/";
    if HasPrefix(url, prefix) then ParseRouteRest(url[|prefix|..]) else None
  }

  function ParseRouteRest(rest: string): Option<Route> {
    var q := IndexOf(rest, '?');
    var path, query := rest[..q], rest[q..];
    var s := IndexOf(path, '/');
    var escapedId := if s < |path| then path[s + 1..] else "";
    if query == [] then Some(Route(path[..s], escapedId, ""))
    else if HasPrefix(query, "?name=") then Some(Route(path[..s], escapedId, query[6..]))
    else None
  }

  /** The URL keeps the id segment ahead of the name query, both can be
      present, and each can be read back; it needs only that the entity holds
      no '/' or '?' and that the escaped id holds no '?' (url.QueryEscape
      escapes both characters). */
  lemma RequestUrlRoundTrip(uri: string, entity: string, name: string, id: string, escape: string -> string)
    requires '/' !in entity && '?' !in entity && '?' !in escape(id)
    ensures ParseRoute(uri, RequestUrl(uri, entity, name, id, escape)) ==
            Some(Route(entity, if id != "" then escape(id) else "", if name != "" then escape(name) else ""))
  {
    var idPart := if id != "" then "/" + escape(id) else "";
    var namePart := if name != "" then "?name=" + escape(name) else "";
    RequestUrlParts(uri, entity, name, id, escape);
    NoCharAfterSlash(escape(id), '?');
    ParseRouteRestOf(entity, idPart, namePart);
  }

  /** A request URL is the prefix, the entity, the id part and the name part. */
  lemma RequestUrlParts(uri: string, entity: string, name: string, id: string, escape: string -> string)
    ensures var idPart := if id != "" then "/" + escape(id) else "";
            var namePart := if name != "" then "?name=" + escape(name) else "";
      && (namePart == [] || HasPrefix(namePart, "?name="))
      && (id != "" ==> idPart[1..] == escape(id))
      && (name != "" ==> namePart[6..] == escape(name))
      && ParseRoute(uri, RequestUrl(uri, entity, name, id, escape)) == ParseRouteRest(entity + idPart + namePart)
  {
    var prefix := uri + "/cliapi/";
    var idPart := if id != "" then "/" + escape(id) else "";
    var namePart := if name != "" then "?name=" + escape(name) else "";
    var url := RequestUrl(uri, entity, name, id, escape);
    assert url == prefix + (entity + idPart + namePart);
    assert HasPrefix(url, prefix) && url[|prefix|..] == entity + idPart + namePart;
  }

  lemma NoCharAfterSlash(e: string, c: char)
    requires c !in e && c != '/'
    ensures c !in "/" + e
  {
    assert forall k | 1 <= k < |"/" + e| :: ("/" + e)[k] == e[k - 1];
  }

  lemma ParseRouteRestOf(entity: string, idPart: string, namePart: string)
    requires '/' !in entity && '?' !in entity && '?' !in idPart
    requires idPart == [] || idPart[0] == '/'
    requires namePart == [] || HasPrefix(namePart, "?name=")
    ensures ParseRouteRest(entity + idPart + namePart) ==
            Some(Route(entity, if idPart != [] then idPart[1..] else "", if namePart != [] then namePart[6..] else ""))
  {
    var path := entity + idPart;
    assert entity + idPart + namePart == path + namePart;
    assert '?' !in path by {
      forall k | 0 <= k < |path| ensures path[k] != '?' {
        if k < |entity| { assert path[k] == entity[k]; } else { assert path[k] == idPart[k - |entity|]; }
      }
    }
    IndexOfFirst(path, namePart, '?');
    IndexOfFirst(entity, idPart, '/');
    if idPart != [] {
      assert path[|entity| + 1..] == idPart[1..];
    }
  }

  /** The first `c` in `a + b`, where `a` holds none and `b` is empty or starts
      with `c`, is where `b` starts. */
  lemma IndexOfFirst(a: string, b: string, c: char)
    requires c !in a && (b == [] || b[0] == c)
    ensures IndexOf(a + b, c) == |a|
    ensures (a + b)[..|a|] == a && (a + b)[|a|..] == b
  {
  }

  /** The request body: empty without data, else the JSON encoding. */
  function EncodedBody(data: Option<Payload>, env: Env): Result<string, string> {
    match data
    case None => Success("")
    case Some(payload) => env.marshal(payload)
  }

  /** callApi reaches the transport exactly when the token is signed, the
      payload encodes and the request can be built. */
  predicate CanSend(c: Client, verb: string, entity: string, name: string, id: string, data: Option<Payload>, env: Env) {
    && AccessToken(c, env).Success?
    && EncodedBody(data, env).Success?
    && env.newRequest(verb, RequestUrl(c.uri, entity, name, id, env.escape)).None?
  }

  /** What callApi returns for the transport's outcome: the transport's error
      with an empty body; a status other than 200 as an error whose text is
      the status line, with the body as it came; otherwise the trimmed body. */
  function Received(response: Result<HttpResponse, string>): (string, Option<string>) {
    match response
    case Failure(e) => ("", Some(e))
    case Success(r) =>
      if r.statusCode != 200 then (r.body, Some(r.status))
      else (TrimSpace(r.body), None)
  }

  /** The status rule: no error exactly for a 200 answer, whose body comes
      back with the white space around it removed and nothing else; any other
      status is an error carrying the status line and the untrimmed body. */
  lemma ReceivedStatusRule(r: HttpResponse)
    ensures Received(Success(r)).1.None? <==> r.statusCode == 200
    ensures r.statusCode != 200 ==> Received(Success(r)) == (r.body, Some(r.status))
    ensures r.statusCode == 200 ==>
      var data := Received(Success(r)).0;
      && data == r.body[LeadingSpace(r.body)..LeadingSpace(r.body) + |data|]
      && (data != [] ==> !IsSpace(data[0]) && !IsSpace(data[|data| - 1]))
      && (forall k | 0 <= k < LeadingSpace(r.body) :: IsSpace(r.body[k]))
      && (forall k | LeadingSpace(r.body) + |data| <= k < |r.body| :: IsSpace(r.body[k]))
  {
    TrimSpaceIsInfix(r.body);
  }

  /** A callApi outcome: the (possibly trimmed) body, the error if any, and
      the request handed to the transport, None when none was. */
  datatype ApiReply = ApiReply(data: string, err: Option<string>, sent: Option<Request>)

  /** callApi. */
  function CallApi(c: Client, verb: string, entity: string, name: string, id: string, data: Option<Payload>, env: Env): (r: ApiReply)
    ensures AccessToken(c, env).Failure? ==> r == ApiReply("", Some(AccessToken(c, env).error), None)
    ensures r.sent.Some? <==> CanSend(c, verb, entity, name, id, data, env)
    ensures r.sent.None? ==> r.data == "" && r.err.Some?
    ensures r.sent.Some? ==>
      && r.sent.value == Request(verb, RequestUrl(c.uri, entity, name, id, env.escape), EncodedBody(data, env).value,
                                 "application/json", AccessToken(c, env).value)
      && (r.data, r.err) == Received(env.send(r.sent.value))
    ensures data.None? && r.sent.Some? ==> r.sent.value.body == ""
  {
    match AccessToken(c, env)
    case Failure(e) => ApiReply("", Some(e), None)
    case Success(token) =>
      var url := RequestUrl(c.uri, entity, name, id, env.escape);
      match EncodedBody(data, env)
      case Failure(e) => ApiReply("", Some(e), None)
      case Success(body) =>
        match env.newRequest(verb, url)
        case Some(e) => ApiReply("", Some(e), None)
        case None =>
          var request := Request(verb, url, body, "application/json", token);
          var (d, err) := Received(env.send(request));
          ApiReply(d, err, Some(request))
  }

  /** The request, if one was sent, is `verb` on the URL for `entity`,
      `name` and `id`, carrying the encoding of `data`. */
  predicate SentAs(sent: Option<Request>, c: Client, verb: string, entity: string, name: string, id: string,
                   data: Option<Payload>, env: Env) {
    sent.Some? ==>
      && sent.value.verb == verb
      && sent.value.url == RequestUrl(c.uri, entity, name, id, env.escape)
      && EncodedBody(data, env) == Success(sent.value.body)
  }

  /** The bracket unwrapping of the GET wrappers. */
  function UnwrapArray(data: string): string {
    if HasPrefix(data, "[") then TrimSuffix(TrimPrefix(data, "["), "]") else data
  }

  /** A body starting with '[' loses that '[' and one trailing ']' if it has
      one; any other body is left as it is. */
  lemma UnwrapArrayCases(data: string)
    ensures data == [] || data[0] != '[' ==> UnwrapArray(data) == data
    ensures data != [] && data[0] == '[' && 2 <= |data| && data[|data| - 1] == ']' ==>
              UnwrapArray(data) == data[1..|data| - 1]
    ensures data != [] && data[0] == '[' && (|data| == 1 || data[|data| - 1] != ']') ==>
              UnwrapArray(data) == data[1..]
  {
    if data != [] && data[0] == '[' {
      assert HasPrefix(data, "[");
      var inner := TrimPrefix(data, "[");
      assert inner == data[1..];
      if 2 <= |data| && data[|data| - 1] == ']' {
        assert HasSuffix(inner, "]");
      } else {
        assert !HasSuffix(inner, "]");
      }
    } else {
      assert !HasPrefix(data, "[");
    }
  }

  /** Unwrapping undoes the one-element array wrapping the API puts around a
      lookup by name. */
  lemma UnwrapArrayOfWrapped(body: string)
    ensures UnwrapArray("[" + body + "]") == body
  {
    var w := "[" + body + "]";
    UnwrapArrayCases(w);
    assert w[1..|w| - 1] == body;
  }

  /** The answer of a client operation and the request it sent, if any. */
  datatype Reply<T> = Reply(result: Result<T, string>, sent: Option<Request>)

  /** The decoded answer of a call, or its error. */
  function Decoded<T>(a: ApiReply, decode: string -> Result<T, string>): Result<T, string> {
    if a.err.Some? then Failure(a.err.value) else decode(a.data)
  }

  function MockupServer(name: string): Server {
    Server("mockup", name, [], NoFirewall, [], false, "mockup", "", "mockup", NoUpdatePolicy)
  }

  function MockupFirewall(name: string): Firewall {
    Firewall("mockup", name, [], [])
  }

  /** ListGroups: GET on groups with neither id nor name. */
  function ListGroups(c: Client, env: Env): (r: Reply<seq<Group>>)
    ensures SentAs(r.sent, c, "GET", "groups", "", "", None, env)
    ensures r.sent.Some? <==> CanSend(c, "GET", "groups", "", "", None, env)
  {
    var a := CallApi(c, "GET", "groups", "", "", None, env);
    Reply(Decoded(a, env.decodeGroups), a.sent)
  }

  /** GetServer: the mockup answer without a request, otherwise GET on
      servers by name only, the answer unwrapped before decoding. */
  function GetServer(c: Client, name: string, env: Env): (r: Reply<Server>)
    ensures IsMockup(c) ==> r == Reply(Success(MockupServer(name)), None)
    ensures SentAs(r.sent, c, "GET", "servers", name, "", None, env)
    ensures r.sent.Some? <==> !IsMockup(c) && CanSend(c, "GET", "servers", name, "", None, env)
  {
    if IsMockup(c) then Reply(Success(MockupServer(name)), None)
    else
      var a := CallApi(c, "GET", "servers", name, "", None, env);
      Reply(Decoded(a.(data := UnwrapArray(a.data)), env.decodeServer), a.sent)
  }

  /** DeleteServer: DELETE on servers by id only; there is no mockup answer. */
  function DeleteServer(c: Client, id: string, env: Env): (r: Reply<()>)
    ensures SentAs(r.sent, c, "DELETE", "servers", "", id, None, env)
    ensures r.sent.Some? <==> CanSend(c, "DELETE", "servers", "", id, None, env)
  {
    var a := CallApi(c, "DELETE", "servers", "", id, None, env);
    Reply(if a.err.Some? then Failure(a.err.value) else Success(()), a.sent)
  }

  /** CreateServer: POST on servers with neither id nor name, the server as
      payload; there is no mockup answer. */
  function CreateServer(c: Client, server: Server, env: Env): (r: Reply<Server>)
    ensures SentAs(r.sent, c, "POST", "servers", "", "", Some(ServerPayload(server)), env)
    ensures r.sent.Some? <==> CanSend(c, "POST", "servers", "", "", Some(ServerPayload(server)), env)
  {
    var a := CallApi(c, "POST", "servers", "", "", Some(ServerPayload(server)), env);
    Reply(Decoded(a, env.decodeServer), a.sent)
  }

  /** UpdateServer: PUT on servers with the server's id only, the server as
      payload; there is no mockup answer. */
  function UpdateServer(c: Client, server: Server, env: Env): (r: Reply<Server>)
    ensures SentAs(r.sent, c, "PUT", "servers", "", server.id, Some(ServerPayload(server)), env)
    ensures r.sent.Some? <==> CanSend(c, "PUT", "servers", "", server.id, Some(ServerPayload(server)), env)
  {
    var a := CallApi(c, "PUT", "servers", "", server.id, Some(ServerPayload(server)), env);
    Reply(Decoded(a, env.decodeServer), a.sent)
  }

  /** GetFirewall: the mockup answer without a request, otherwise GET on
      firewalls by name only, the answer unwrapped before decoding. */
  function GetFirewall(c: Client, name: string, env: Env): (r: Reply<Firewall>)
    ensures IsMockup(c) ==> r == Reply(Success(MockupFirewall(name)), None)
    ensures SentAs(r.sent, c, "GET", "firewalls", name, "", None, env)
    ensures r.sent.Some? <==> !IsMockup(c) && CanSend(c, "GET", "firewalls", name, "", None, env)
  {
    if IsMockup(c) then Reply(Success(MockupFirewall(name)), None)
    else
      var a := CallApi(c, "GET", "firewalls", name, "", None, env);
      Reply(Decoded(a.(data := UnwrapArray(a.data)), env.decodeFirewall), a.sent)
  }

  /** DeleteFirewall: success without a request for the mockup, otherwise
      DELETE on firewalls by id only. */
  function DeleteFirewall(c: Client, id: string, env: Env): (r: Reply<()>)
    ensures IsMockup(c) ==> r == Reply(Success(()), None)
    ensures SentAs(r.sent, c, "DELETE", "firewalls", "", id, None, env)
    ensures r.sent.Some? <==> !IsMockup(c) && CanSend(c, "DELETE", "firewalls", "", id, None, env)
  {
    if IsMockup(c) then Reply(Success(()), None)
    else
      var a := CallApi(c, "DELETE", "firewalls", "", id, None, env);
      Reply(if a.err.Some? then Failure(a.err.value) else Success(()), a.sent)
  }

  /** CreateFirewall: the mockup answer (id "mockup", the given name) without
      a request, otherwise POST on firewalls with the firewall as payload. */
  function CreateFirewall(c: Client, firewall: Firewall, env: Env): (r: Reply<Firewall>)
    ensures IsMockup(c) ==> r == Reply(Success(MockupFirewall(firewall.name)), None)
    ensures SentAs(r.sent, c, "POST", "firewalls", "", "", Some(FirewallPayload(firewall)), env)
    ensures r.sent.Some? <==> !IsMockup(c) && CanSend(c, "POST", "firewalls", "", "", Some(FirewallPayload(firewall)), env)
  {
    if IsMockup(c) then Reply(Success(MockupFirewall(firewall.name)), None)
    else
      var a := CallApi(c, "POST", "firewalls", "", "", Some(FirewallPayload(firewall)), env);
      Reply(Decoded(a, env.decodeFirewall), a.sent)
  }

  /** UpdateFirewall: the mockup answer without a request, otherwise PUT on
      firewalls with the firewall's id only and the firewall as payload. */
  function UpdateFirewall(c: Client, firewall: Firewall, env: Env): (r: Reply<Firewall>)
    ensures IsMockup(c) ==> r == Reply(Success(MockupFirewall(firewall.name)), None)
    ensures SentAs(r.sent, c, "PUT", "firewalls", "", firewall.id, Some(FirewallPayload(firewall)), env)
    ensures r.sent.Some? <==> !IsMockup(c) && CanSend(c, "PUT", "firewalls", "", firewall.id, Some(FirewallPayload(firewall)), env)
  {
    if IsMockup(c) then Reply(Success(MockupFirewall(firewall.name)), None)
    else
      var a := CallApi(c, "PUT", "firewalls", "", firewall.id, Some(FirewallPayload(firewall)), env);
      Reply(Decoded(a, env.decodeFirewall), a.sent)
  }

  /** Against the mockup endpoint, creating a firewall and then reading it
      back by its name both give id "mockup", and deleting it succeeds, all
      without a request. */
  lemma MockupFirewallLifecycle(c: Client, firewall: Firewall, env: Env)
    requires IsMockup(c)
    ensures CreateFirewall(c, firewall, env).result.Success?
    ensures var created := CreateFirewall(c, firewall, env).result.value;
      && created.id == "mockup"
      && GetFirewall(c, created.name, env) == Reply(Success(created), None)
      && UpdateFirewall(c, firewall.(id := created.id), env).result == Success(created)
      && DeleteFirewall(c, created.id, env) == Reply(Success(()), None)
  {
  }

  /** The server writes have no mockup answer: with the mockup endpoint they
      still send their request whenever it can be sent. */
  lemma MockupServerWritesStillSend(c: Client, server: Server, env: Env)
    requires IsMockup(c)
    requires CanSend(c, "POST", "servers", "", "", Some(ServerPayload(server)), env)
    ensures CreateServer(c, server, env).sent.Some?
    ensures GetServer(c, server.name, env).sent.None?
  {
  }
}

/** The `DataMaker` client of src/index.ts with the network abstracted away:
    what construction accepts, the header map it builds, the quantity rule of
    `generate`, the template lookup of `generateFromTemplateId`, the header
    choice and the per-record loop of `exportToApi`. */
module Client {
  import opened Outcomes
  import opened Errors
  import JsValues
  import opened Templates

  // ---------------------------------------------------------------------------
  // Constants
  // ---------------------------------------------------------------------------

  const DefaultBaseURL: string := "https://public.datamaker.app/api"

  const MissingApiKeyMessage: string :=
    "The DATAMAKER_API_KEY environment variable is missing or empty; either provide it, or instantiate the OpenAI client with an apiKey option, like new DataMaker({ apiKey: 'My API Key' })."

  const MissingTemplateMessage: string := "You must provide a template to generate data."

  const UnknownTemplateMessage: string := "You must provide ID of a template from your account."

  /** What the runtime throws when `exportToApi` reads `headers` of the
      `undefined` that an unsuccessful `find` returns. */
  const UnknownEndpointMessage: string := "Cannot read properties of undefined (reading 'headers')"

  /** What `Object.keys` throws when an endpoint has no `headers` property. */
  const NoHeadersMessage: string := "Cannot convert undefined or null to object"

  // ---------------------------------------------------------------------------
  // Construction
  // ---------------------------------------------------------------------------

  /** `ClientOptions`; `None` is an absent (or `undefined`) member. The custom
      `fetch` function is not modelled. */
  datatype ClientOptions = ClientOptions(
    apiKey: Option<string>,
    baseURL: Option<string>,
    timeout: Option<real>,
    maxRetries: Option<real>,
    defaultHeaders: Option<HeaderMap>,
    defaultQuery: Option<map<string, string>>)

  /** The options the constructor stores: the key is the caller's, else the
      value of the `DATAMAKER_API_KEY` environment variable (`env`); only a
      key that is still absent is rejected, so the empty string is accepted.
      A missing `baseURL` becomes the public API; the rest is copied. */
  function ResolveOptions(opts: ClientOptions, env: Option<string>): (r: Result<ClientOptions, Error>)
    ensures r.Failure? <==> opts.apiKey.None? && env.None?
    ensures r.Failure? ==> r.error == DataMakerError(MissingApiKeyMessage)
    ensures r.Success? ==>
      && r.value.apiKey == Some(if opts.apiKey.Some? then opts.apiKey.value else env.value)
      && r.value.baseURL == Some(if opts.baseURL.Some? then opts.baseURL.value else DefaultBaseURL)
      && r.value.timeout == opts.timeout && r.value.maxRetries == opts.maxRetries
      && r.value.defaultHeaders == opts.defaultHeaders && r.value.defaultQuery == opts.defaultQuery
  {
    var key := if opts.apiKey.Some? then opts.apiKey else env;
    if key.None? then
      Failure(DataMakerError(MissingApiKeyMessage))
    else
      Success(opts.(apiKey := key, baseURL := Some(opts.baseURL.GetOr(DefaultBaseURL))))
  }

  /** Resolving stored options again changes nothing, whatever the environment. */
  lemma ResolveIdempotent(opts: ClientOptions, env: Option<string>, env2: Option<string>)
    requires ResolveOptions(opts, env).Success?
    ensures ResolveOptions(ResolveOptions(opts, env).value, env2) == ResolveOptions(opts, env)
  {
  }

  /** The key comes from the environment when the caller gives none, the
      caller's key wins over the environment, an empty key is accepted, and
      with neither the constructor throws. */
  lemma ConstructionExamples()
    ensures var none := ClientOptions(None, None, None, None, None, None);
      && ResolveOptions(none, Some("test")).value.apiKey == Some("test")
      && ResolveOptions(none.(apiKey := Some("DATAMAKER_API_KEY")), Some("test")).value.apiKey == Some("DATAMAKER_API_KEY")
      && ResolveOptions(none.(apiKey := Some("")), None).Success?
      && ResolveOptions(none, None) == Failure(DataMakerError(MissingApiKeyMessage))
      && ResolveOptions(none, Some("test")).value.baseURL == Some(DefaultBaseURL)
  {
  }

  /** The client headers: JSON content type and the key as `Authorization`,
      then every default header, which wins over an entry of the same name. */
  function ClientHeaders(apiKey: string, defaultHeaders: Option<HeaderMap>): (h: HeaderMap)
    ensures h.Keys == {"Content-Type", "Authorization"} + defaultHeaders.GetOr(map[]).Keys
    ensures forall k :: k in defaultHeaders.GetOr(map[]) ==> h[k] == defaultHeaders.GetOr(map[])[k]
    ensures "Content-Type" !in defaultHeaders.GetOr(map[]) ==> h["Content-Type"] == "application/json"
    ensures "Authorization" !in defaultHeaders.GetOr(map[]) ==> h["Authorization"] == apiKey
  {
    map["Content-Type" := "application/json", "Authorization" := apiKey] + defaultHeaders.GetOr(map[])
  }

  /** A default `Content-Type` replaces the JSON one while `Authorization`
      still carries the key. */
  lemma HeaderOverrideExample()
    ensures var h := ClientHeaders("DATAMAKER_API_KEY", Some(map["Content-Type" := "application/gzip"]));
      h == map["Content-Type" := "application/gzip", "Authorization" := "DATAMAKER_API_KEY"]
  {
  }

  // ---------------------------------------------------------------------------
  // The network, as inputs
  // ---------------------------------------------------------------------------

  /** What a generation request carries: a caller's template, or a stored
      template with the quantity written onto it. */
  datatype Payload =
    | CustomTemplate(template: Template)
    | StoredTemplate(stored: AccountTemplate, quantity: real)

  /** A request the client sends. */
  datatype Request =
      /** A `GET` of a listing (`/templates` or `/endpoints`). */
    | Get(url: string, headers: HeaderMap)
      /** A generation request to the API at `baseURL`. */
    | GenerateData(baseURL: string, headers: HeaderMap, payload: Payload)
      /** One exported record, sent to an endpoint. */
    | Send(url: string, httpMethod: string, headers: HeaderMap, body: JsValues.Value)

  /** Everything the network answers: the decoded template and endpoint
      listings (or why fetching or decoding failed) and, for the `i`-th
      non-listing request of an operation, its decoded reply or a failure. */
  datatype Network = Network(
    templates: Result<seq<AccountTemplate>, string>,
    endpoints: Result<seq<Endpoint>, string>,
    respond: (nat, Request) -> Result<JsValues.Value, string>)

  /** The reply to a non-listing request, a failure becoming a rejected promise. */
  function Reply(net: Network, i: nat, req: Request): (r: Result<JsValues.Value, Error>)
    ensures r.Success? <==> net.respond(i, req).Success?
    ensures r.Success? ==> r.value == net.respond(i, req).value
    ensures r.Failure? ==> r.error == TransportError(net.respond(i, req).error)
  {
    match net.respond(i, req)
    case Success(v) => Success(v)
    case Failure(reason) => Failure(TransportError(reason))
  }

  // ---------------------------------------------------------------------------
  // Lookup by id
  // ---------------------------------------------------------------------------

  /** The position of the first occurrence of `want` in `ids`, as `find` scans. */
  function FirstIndexOf(ids: seq<string>, want: string): (r: Option<nat>)
    ensures r.None? <==> want !in ids
    ensures r.Some? ==> r.value < |ids| && ids[r.value] == want
    ensures r.Some? ==> forall j :: 0 <= j < r.value ==> ids[j] != want
  {
    if |ids| == 0 then None
    else if ids[0] == want then Some(0)
    else match FirstIndexOf(ids[1..], want)
      case None => None
      case Some(j) => Some(j + 1)
  }

  /** `Array.prototype.find` with an id test: the first element whose id is
      `id`, if any. */
  function FindFirst<T>(xs: seq<T>, idOf: T -> string, id: string): (r: Option<T>)
    ensures r.None? <==> forall i :: 0 <= i < |xs| ==> idOf(xs[i]) != id
    ensures r.Some? ==> exists i :: 0 <= i < |xs| && xs[i] == r.value && idOf(r.value) == id
                                    && forall j :: 0 <= j < i ==> idOf(xs[j]) != id
  {
    var ids := seq(|xs|, i requires 0 <= i < |xs| => idOf(xs[i]));
    assert forall k :: 0 <= k < |xs| ==> ids[k] == idOf(xs[k]);
    match FirstIndexOf(ids, id)
    case None => None
    case Some(i) => Some(xs[i])
  }

  function IdOfTemplate(t: AccountTemplate): string { t.id }

  function IdOfEndpoint(e: Endpoint): string { e.id }

  /** With two templates sharing an id the first one is chosen; an empty
      listing has no match. */
  lemma FirstMatchWins(a: AccountTemplate, b: AccountTemplate, rest: seq<AccountTemplate>)
    requires a.id == b.id
    ensures FindFirst([a, b] + rest, IdOfTemplate, a.id) == Some(a)
    ensures FindFirst([], IdOfTemplate, a.id) == None
  {
  }

  // ---------------------------------------------------------------------------
  // Quantity normalisation
  // ---------------------------------------------------------------------------

  /** `generate` replaces a falsy quantity (absent or 0) by 1 and keeps any other. */
  function NormalizeQuantity(q: Option<real>): (r: Option<real>)
    ensures r.Some? && r.value != 0.0
    ensures q.Some? && q.value != 0.0 ==> r == q
    ensures q.None? || q == Some(0.0) ==> r == Some(1.0)
  {
    if q.None? || q.value == 0.0 then Some(1.0) else q
  }

  /** Normalising twice is normalising once. */
  lemma NormalizeIdempotent(q: Option<real>)
    ensures NormalizeQuantity(NormalizeQuantity(q)) == NormalizeQuantity(q)
  {
  }

  // ---------------------------------------------------------------------------
  // Choosing where and how `exportToApi` sends
  // ---------------------------------------------------------------------------

  /** `exportToApi`'s first argument: an endpoint id, or an endpoint object. */
  datatype ApiRef = EndpointId(id: string) | Inline(endpoint: CustomEndpoint)

  /** Where each record goes, and with which headers. */
  datatype Target = Target(url: string, httpMethod: string, headers: HeaderMap)

  /** The target of an export. For a stored endpoint its own headers replace
      the client's exactly when they hold at least one entry; an unknown id or
      an endpoint without headers makes the runtime throw. For an inline
      endpoint any headers object replaces the client's, even an empty one. */
  function ResolveTarget(api: ApiRef, clientHeaders: HeaderMap, listing: Result<seq<Endpoint>, string>): (r: Result<Target, Error>)
    ensures api.Inline? ==> r == Success(Target(api.endpoint.url, api.endpoint.httpMethod,
                                                api.endpoint.headers.GetOr(clientHeaders)))
    ensures api.EndpointId? && listing.Failure? ==> r == Failure(TransportError(listing.error))
    ensures api.EndpointId? && listing.Success? ==>
      match FindFirst(listing.value, IdOfEndpoint, api.id)
      case None => r == Failure(TypeError(UnknownEndpointMessage))
      case Some(e) =>
        if e.headers.None? then r == Failure(TypeError(NoHeadersMessage))
        else r == Success(Target(e.url, e.httpMethod, if |e.headers.value| > 0 then e.headers.value else clientHeaders))
  {
    match api
    case Inline(c) =>
      Success(Target(c.url, c.httpMethod, if c.headers.Some? then c.headers.value else clientHeaders))
    case EndpointId(id) =>
      if listing.Failure? then Failure(TransportError(listing.error))
      else match FindFirst(listing.value, IdOfEndpoint, id)
        case None => Failure(TypeError(UnknownEndpointMessage))
        case Some(e) =>
          if e.headers.None? then Failure(TypeError(NoHeadersMessage))
          else if |e.headers.value| > 0 then Success(Target(e.url, e.httpMethod, e.headers.value))
          else Success(Target(e.url, e.httpMethod, clientHeaders))
  }

  /** The asymmetry: an empty headers object keeps the client headers on a
      stored endpoint but replaces them on an inline one; non-empty headers
      replace them (never merge) in both cases. */
  lemma HeaderChoiceAsymmetry(e: Endpoint, c: CustomEndpoint, clientHeaders: HeaderMap, h: HeaderMap)
    requires e.headers == Some(h) && c.headers == Some(h)
    ensures var stored := ResolveTarget(EndpointId(e.id), clientHeaders, Success([e]));
            var inline := ResolveTarget(Inline(c), clientHeaders, Success([e]));
      && stored.Success? && inline.Success?
      && inline.value.headers == h
      && stored.value.headers == (if |h| == 0 then clientHeaders else h)
  {
    assert FindFirst([e], IdOfEndpoint, e.id) == Some(e);
  }

  /** The requests a successful export sends after any listing: one per
      record, in order, each carrying that record. */
  function SendAll(t: Target, data: seq<JsValues.Value>): (reqs: seq<Request>)
    ensures |reqs| == |data|
    ensures forall j :: 0 <= j < |data| ==> reqs[j] == Send(t.url, t.httpMethod, t.headers, data[j])
  {
    seq(|data|, j requires 0 <= j < |data| => Send(t.url, t.httpMethod, t.headers, data[j]))
  }

  /** Sending a prefix of the records sends a prefix of the requests. */
  lemma SendAllPrefix(t: Target, data: seq<JsValues.Value>, k: nat)
    requires k <= |data|
    ensures SendAll(t, data[..k]) == SendAll(t, data)[..k]
  {
  }

  // ---------------------------------------------------------------------------
  // The client objects
  // ---------------------------------------------------------------------------

  /** A caller's template object, which `generate` updates in place. */
  class TemplateObject {
    var name: Option<string>
    var fields: seq<Field>
    var quantity: Option<real>

    constructor (t: Template)
      ensures Value() == t
    {
      name := t.name;
      fields := t.fields;
      quantity := t.quantity;
    }

    function Value(): Template
      reads this
    {
      Template.Template(name, fields, quantity)
    }
  }

  class DataMaker {
    const apiKey: string
    var headers: HeaderMap
    var options: ClientOptions

    /** What construction establishes: the stored options carry the key and a
        base URL, and the headers are built from the key and the defaults. */
    ghost predicate Valid()
      reads this
    {
      && options.apiKey == Some(apiKey)
      && options.baseURL.Some?
      && headers == ClientHeaders(apiKey, options.defaultHeaders)
    }

    /** Stores resolved options; `Create` is the constructor as callers see it. */
    constructor (resolved: ClientOptions)
      requires resolved.apiKey.Some? && resolved.baseURL.Some?
      ensures Valid()
      ensures apiKey == resolved.apiKey.value && options == resolved
    {
      apiKey := resolved.apiKey.value;
      options := resolved;
      headers := ClientHeaders(resolved.apiKey.value, resolved.defaultHeaders);
    }

    /** `new DataMaker(opts)` with the environment's key as `env`: throws
        exactly when no key is found, else yields a client whose options are
        the resolved ones. */
    static method Create(opts: ClientOptions, env: Option<string>) returns (r: Result<DataMaker, Error>)
      ensures r.Failure? <==> ResolveOptions(opts, env).Failure?
      ensures r.Failure? ==> r.error == DataMakerError(MissingApiKeyMessage)
      ensures r.Success? ==> fresh(r.value) && r.value.Valid()
                             && ResolveOptions(opts, env) == Success(r.value.options)
    {
      var resolved := ResolveOptions(opts, env);
      if resolved.Failure? {
        return Failure(resolved.error);
      }
      var client := new DataMaker(resolved.value);
      return Success(client);
    }

    function BaseURL(): string
      reads this
      requires Valid()
    {
      options.baseURL.value
    }

    /** `generate`: a missing template is rejected before anything is sent;
        otherwise the quantity is normalised in place and the updated template
        is sent in exactly one request, whose reply is the result. */
    method Generate(template: TemplateObject?, net: Network) returns (r: Result<JsValues.Value, Error>, sent: seq<Request>)
      requires Valid()
      modifies template
      ensures template == null ==> r == Failure(DataMakerError(MissingTemplateMessage)) && sent == []
      ensures template != null ==>
        && template.name == old(template.name) && template.fields == old(template.fields)
        && template.quantity == NormalizeQuantity(old(template.quantity))
        && sent == [GenerateData(BaseURL(), headers, CustomTemplate(template.Value()))]
        && r == Reply(net, 0, sent[0])
    {
      if template == null {
        return Failure(DataMakerError(MissingTemplateMessage)), [];
      }
      if template.quantity.None? || template.quantity.value == 0.0 {
        template.quantity := Some(1.0);
      }
      var req := GenerateData(options.baseURL.value, headers, CustomTemplate(template.Value()));
      sent := [req];
      r := Reply(net, 0, req);
    }

    /** `generateFromTemplateId`: lists the account's templates, picks the
        first with the given id (none is an error) and sends it with its
        quantity overwritten by the argument, as given. */
    method GenerateFromTemplateId(templateId: string, net: Network, quantity: real := 1.0)
      returns (r: Result<JsValues.Value, Error>, sent: seq<Request>)
      requires Valid()
      ensures |sent| >= 1 && sent[0] == Get(BaseURL() + "/templates", headers)
      ensures net.templates.Failure? ==> r == Failure(TransportError(net.templates.error)) && |sent| == 1
      ensures net.templates.Success? && FindFirst(net.templates.value, IdOfTemplate, templateId).None? ==>
        r == Failure(DataMakerError(UnknownTemplateMessage)) && |sent| == 1
      ensures net.templates.Success? && FindFirst(net.templates.value, IdOfTemplate, templateId).Some? ==>
        && sent == [sent[0], GenerateData(BaseURL(), headers,
                                          StoredTemplate(FindFirst(net.templates.value, IdOfTemplate, templateId).value, quantity))]
        && r == Reply(net, 0, sent[1])
    {
      var listing := Get(options.baseURL.value + "/templates", headers);
      sent := [listing];
      if net.templates.Failure? {
        return Failure(TransportError(net.templates.error)), sent;
      }
      var template := FindFirst(net.templates.value, IdOfTemplate, templateId);
      if template.None? {
        return Failure(DataMakerError(UnknownTemplateMessage)), sent;
      }
      var req := GenerateData(options.baseURL.value, headers, StoredTemplate(template.value, quantity));
      sent := sent + [req];
      r := Reply(net, 0, req);
    }

    /** The listing `exportToApi` fetches first: the account's endpoints for an
        id, nothing for an inline endpoint. */
    function ListingRequests(api: ApiRef): seq<Request>
      reads this
      requires Valid()
    {
      if api.EndpointId? then [Get(BaseURL() + "/endpoints", headers)] else []
    }

    /** `exportToApi`: lists the account's endpoints when given an id, picks
        the target and its headers, then sends the records one by one. */
    method ExportToApi(api: ApiRef, data: seq<JsValues.Value>, net: Network)
      returns (r: Result<seq<JsValues.Value>, Error>, sent: seq<Request>)
      requires Valid()
      ensures ResolveTarget(api, headers, net.endpoints).Failure? ==>
        r == Failure(ResolveTarget(api, headers, net.endpoints).error) && sent == ListingRequests(api)
      ensures ResolveTarget(api, headers, net.endpoints).Success? ==>
        && |ListingRequests(api)| <= |sent| && sent[..|ListingRequests(api)|] == ListingRequests(api)
        && RecordsSent(ResolveTarget(api, headers, net.endpoints).value, data, net, r, sent[|ListingRequests(api)|..])
    {
      var listing := ListingRequests(api);
      var target := ResolveTarget(api, headers, net.endpoints);
      if target.Failure? {
        return Failure(target.error), listing;
      }
      var records;
      r, records := SendRecords(target.value, data, net);
      sent := listing + records;
      assert sent[|listing|..] == records;
    }
  }

  /** The outcome of sending `data` to `t`: it succeeds exactly when every
      call succeeds, and then holds at each position the reply to the record
      at that position, every record having been sent once, in order; it fails
      with the first failed call, after which nothing more was sent. */
  ghost predicate RecordsSent(t: Target, data: seq<JsValues.Value>, net: Network,
                              r: Result<seq<JsValues.Value>, Error>, sent: seq<Request>)
  {
    && (r.Success? <==> forall j :: 0 <= j < |data| ==> net.respond(j, SendAll(t, data)[j]).Success?)
    && (r.Success? ==>
          && |r.value| == |data|
          && (forall j :: 0 <= j < |data| ==> r.value[j] == net.respond(j, SendAll(t, data)[j]).value)
          && sent == SendAll(t, data))
    && (r.Failure? ==> exists k :: (0 <= k < |data|
          && (forall j :: 0 <= j < k ==> net.respond(j, SendAll(t, data)[j]).Success?)
          && net.respond(k, SendAll(t, data)[k]).Failure?
          && r.error == TransportError(net.respond(k, SendAll(t, data)[k]).error)
          && sent == SendAll(t, data[..k + 1])))
  }

  /** The loop of `exportToApi`: one call per record, in input order, each
      with that record as its body, stopping at the first failed call. An
      array result is always truthy, so the "Something went wrong." branch
      after the loop cannot be reached. */
  method SendRecords(t: Target, data: seq<JsValues.Value>, net: Network)
    returns (r: Result<seq<JsValues.Value>, Error>, sent: seq<Request>)
    ensures RecordsSent(t, data, net, r, sent)
  {
    ghost var all := SendAll(t, data);
    var result: seq<JsValues.Value> := [];
    sent := [];
    var i := 0;
    while i < |data|
      invariant 0 <= i <= |data|
      invariant |result| == i
      invariant forall j :: 0 <= j < i ==> net.respond(j, all[j]).Success? && result[j] == net.respond(j, all[j]).value
      invariant sent == all[..i]
    {
      var req := Send(t.url, t.httpMethod, t.headers, data[i]);
      assert req == all[i];
      assert all[..i + 1] == all[..i] + [req];
      sent := sent + [req];
      var reply := net.respond(i, req);
      if reply.Failure? {
        SendAllPrefix(t, data, i + 1);
        return Failure(TransportError(reply.error)), sent;
      }
      result := result + [reply.value];
      i := i + 1;
    }
    assert JsValues.Truthy(JsValues.Arr(result));
    assert all[..i] == all;
    r := Success(result);
  }
}

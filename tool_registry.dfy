/** `ToolRegistry`: the tools the assistant may call, each either a local
    handler or a remote HTTP endpoint, with the manifest handed to the
    language model and the dispatcher that runs a call. What a handler
    does and what the network answers are inputs. */
module Tools {
  import opened Wrappers
  import opened JsonValue
  import opened Text

  /** A local callable, known only by identity. */
  datatype Handler = Handler(id: nat)

  /** `ToolEndpoint`: a frozen record; `Endpoint` supplies its defaults. */
  datatype ToolEndpoint = ToolEndpoint(
    name: string,
    description: string,
    url: Option<string>,
    httpMethod: string,
    timeoutS: real,
    parameters: Option<map<string, Json>>,
    handler: Option<Handler>)

  const DefaultMethod: string := "POST"
  const DefaultTimeout: real := 20.0

  function Endpoint(name: string, description: string, url: Option<string>,
                    parameters: Option<map<string, Json>>, handler: Option<Handler>): ToolEndpoint {
    ToolEndpoint(name, description, url, DefaultMethod, DefaultTimeout, parameters, handler)
  }

  /** What calling a handler did: returned a dict, raised `HTTPException`,
      or raised anything else (its `str`). */
  datatype HandlerOutcome =
    | Handled(data: Json)
    | HttpError(detail: Json, statusCode: int)
    | HandlerFailed(message: string)

  /** The HTTP request made for a remote endpoint. */
  datatype Request = Request(httpMethod: string, url: string, body: Json, timeoutS: real)

  /** What the network answered: a response (its `content-type` header, if
      any), or a `RequestException` (its `str`). */
  datatype HttpOutcome =
    | Response(ok: bool, statusCode: int, contentType: Option<string>, text: string, json: Parsed)
    | RequestFailed(message: string)

  /** The schema a tool without parameters is advertised with: an object
      with one free-form `payload` object and nothing required. */
  const PayloadDescription: string := "Données JSON à envoyer au service."
  const DefaultParameters: Json :=
    Obj(map[
      "type" := Str("object"),
      "properties" := Obj(map["payload" := Obj(map["type" := Str("object"), "description" := Str(PayloadDescription)])]),
      "required" := Arr([])])

  /** `endpoint.parameters or {...}`: `None` and `{}` both fall back. */
  function Parameters(e: ToolEndpoint): (j: Json)
    ensures e.parameters.Some? && e.parameters.value != map[] ==> j == Obj(e.parameters.value)
    ensures e.parameters.None? || e.parameters.value == map[] ==> j == DefaultParameters
  {
    if e.parameters.Some? && e.parameters.value != map[] then Obj(e.parameters.value) else DefaultParameters
  }

  /** One manifest entry: a `function` tool carrying the endpoint's name,
      description and parameter schema. */
  function ToolSpec(e: ToolEndpoint): (j: Json)
    ensures Member(j, "type") == Str("function")
    ensures Member(Member(j, "function"), "name") == Str(e.name)
    ensures Member(Member(j, "function"), "description") == Str(e.description)
    ensures Member(Member(j, "function"), "parameters") == Parameters(e)
  {
    Obj(map[
      "type" := Str("function"),
      "function" := Obj(map["name" := Str(e.name), "description" := Str(e.description), "parameters" := Parameters(e)])])
  }

  /** A failed call: `ok` false and an error message, nothing else. */
  function Failure(error: string): Json {
    Obj(map["ok" := Bool(false), "error" := Str(error)])
  }

  /** `if not endpoint.url`: no URL, or the empty one. */
  predicate MissingUrl(e: ToolEndpoint) {
    e.url.None? || e.url.value == []
  }

  /** The request for a remote endpoint: upper-cased method, the URL, the
      `payload` argument (or null when the arguments are not a dict or
      lack it) as JSON body, and the endpoint's timeout. */
  function RequestFor(e: ToolEndpoint, arguments: Json): (q: Request)
    requires !MissingUrl(e)
    ensures q.url == e.url.value && q.timeoutS == e.timeoutS
    ensures q.body == (if arguments.Obj? && "payload" in arguments.fields then arguments.fields["payload"] else Null)
    ensures q.httpMethod == Upper(e.httpMethod) && |q.httpMethod| == |e.httpMethod|
  {
    Request(Upper(e.httpMethod), e.url.value, Member(arguments, "payload"), e.timeoutS)
  }

  /** `data`: the decoded body, only when the content type mentions
      `application/json` in any letter case; null otherwise. */
  function ResponseData(contentType: Option<string>, json: Parsed): (d: Json)
    ensures d != Null ==> Contains(Lower(contentType.GetOr("")), "application/json") && json == Decoded(d)
    ensures json.Decoded? && Contains(Lower(contentType.GetOr("")), "application/json") ==> d == json.value
  {
    if Contains(Lower(contentType.GetOr("")), "application/json") && json.Decoded? then json.value else Null
  }

  /** The dict returned for a response: `ok` and `status_code` mirror the
      response, and exactly one of `data` and `text` is non-null. */
  function Classify(resp: HttpOutcome): (r: Json)
    requires resp.Response?
    ensures r.Obj? && r.fields.Keys == {"ok", "status_code", "data", "text"}
    ensures Member(r, "ok") == Bool(resp.ok) && Member(r, "status_code") == Num(resp.statusCode)
    ensures Member(r, "data") == ResponseData(resp.contentType, resp.json)
    ensures Member(r, "text") != Null <==> Member(r, "data") == Null
    ensures Member(r, "text") != Null ==> Member(r, "text") == Str(resp.text)
  {
    var data := ResponseData(resp.contentType, resp.json);
    Obj(map[
      "ok" := Bool(resp.ok),
      "status_code" := Num(resp.statusCode),
      "data" := data,
      "text" := if data == Null then Str(resp.text) else Null])
  }

  /** The `_endpoints` dict built from a list of endpoints, as a pair of
      its keys in insertion order and its entries: a name seen again
      replaces the entry but keeps the key where it first appeared. */
  function Registered(eps: seq<ToolEndpoint>): (r: (seq<string>, map<string, ToolEndpoint>))
    ensures |r.0| <= |eps|
    ensures eps != [] ==> eps[|eps| - 1].name in r.1 && r.1[eps[|eps| - 1].name] == eps[|eps| - 1]
  {
    if eps == [] then ([], map[])
    else
      var (ns, m) := Registered(eps[..|eps| - 1]);
      var e := eps[|eps| - 1];
      (if e.name in m then ns else ns + [e.name], m[e.name := e])
  }

  predicate Distinct(ns: seq<string>) {
    forall i, j :: 0 <= i < j < |ns| ==> ns[i] != ns[j]
  }

  /** The registry holds exactly the names that occur in the list, each
      once, each entry under its own name. */
  lemma {:induction false} RegisteredNames(eps: seq<ToolEndpoint>)
    ensures var (ns, m) := Registered(eps);
      && Distinct(ns)
      && (forall n :: n in m <==> n in ns)
      && (forall n :: n in m <==> exists i :: 0 <= i < |eps| && eps[i].name == n)
      && (forall n :: n in m ==> m[n].name == n)
  {
    if eps != [] {
      var init := eps[..|eps| - 1];
      RegisteredNames(init);
      var (ns, m) := Registered(eps);
      forall n | n in m ensures exists i :: 0 <= i < |eps| && eps[i].name == n {
        if n != eps[|eps| - 1].name {
          var i :| 0 <= i < |init| && init[i].name == n;
          assert eps[i].name == n;
        }
      }
      forall n | exists i :: 0 <= i < |eps| && eps[i].name == n ensures n in m {
        var i :| 0 <= i < |eps| && eps[i].name == n;
        if i < |init| {
          assert init[i].name == n;
        }
      }
    }
  }

  /** When names repeat, the entry is the last endpoint with that name. */
  lemma {:induction false} LastDuplicateWins(eps: seq<ToolEndpoint>, i: nat)
    requires i < |eps|
    requires forall k :: i < k < |eps| ==> eps[k].name != eps[i].name
    ensures eps[i].name in Registered(eps).1 && Registered(eps).1[eps[i].name] == eps[i]
  {
    if i < |eps| - 1 {
      var init := eps[..|eps| - 1];
      LastDuplicateWins(init, i);
    }
  }

  /** Keys keep the order in which names first appeared: before any
      occurrence of a later key there is an occurrence of every earlier one. */
  lemma {:induction false} KeysInFirstOccurrenceOrder(eps: seq<ToolEndpoint>, a: nat, b: nat, j: nat)
    requires a < b < |Registered(eps).0|
    requires j < |eps| && eps[j].name == Registered(eps).0[b]
    ensures exists i :: 0 <= i < j && eps[i].name == Registered(eps).0[a]
  {
    var init := eps[..|eps| - 1];
    var (ns, m) := Registered(eps);
    var (ns', m') := Registered(init);
    RegisteredNames(init);
    if b < |ns'| {
      assert ns[a] == ns'[a] && ns[b] == ns'[b];
      if j < |init| {
        assert init[j].name == ns'[b];
        KeysInFirstOccurrenceOrder(init, a, b, j);
        var i :| 0 <= i < j && init[i].name == ns'[a];
        assert eps[i].name == ns[a];
      } else {
        var j' :| 0 <= j' < |init| && init[j'].name == ns'[b];
        KeysInFirstOccurrenceOrder(init, a, b, j');
        var i :| 0 <= i < j' && init[i].name == ns'[a];
        assert eps[i].name == ns[a];
      }
    } else {
      assert ns[a] == ns'[a] && ns[a] in m';
      var i :| 0 <= i < |init| && init[i].name == ns[a];
      if j < |init| {
        assert false;
      }
      assert eps[i].name == ns[a];
    }
  }

  class ToolRegistry {
    /** The `_endpoints` dict: its keys in insertion order, and its entries. */
    const names: seq<string>
    const endpoints: map<string, ToolEndpoint>

    ghost predicate Valid() {
      && Distinct(names)
      && (forall n :: n in endpoints <==> n in names)
      && (forall n :: n in endpoints ==> endpoints[n].name == n)
    }

    /** `__init__`: one entry per name, the last endpoint of that name. */
    constructor (eps: seq<ToolEndpoint>)
      ensures Valid()
      ensures (names, endpoints) == Registered(eps)
    {
      var ns: seq<string> := [];
      var m: map<string, ToolEndpoint> := map[];
      for i := 0 to |eps|
        invariant (ns, m) == Registered(eps[..i])
      {
        assert eps[..i + 1][..i] == eps[..i];
        if eps[i].name !in m {
          ns := ns + [eps[i].name];
        }
        m := m[eps[i].name := eps[i]];
      }
      assert eps[..|eps|] == eps;
      RegisteredNames(eps);
      names := ns;
      endpoints := m;
    }

    /** `tool_specs()`: one manifest entry per registered endpoint, in
        registry order. */
    method ToolSpecs() returns (tools: seq<Json>)
      requires Valid()
      ensures |tools| == |names|
      ensures forall i :: 0 <= i < |names| ==> tools[i] == ToolSpec(endpoints[names[i]])
    {
      tools := [];
      for i := 0 to |names|
        invariant |tools| == i
        invariant forall k :: 0 <= k < i ==> tools[k] == ToolSpec(endpoints[names[k]])
      {
        tools := tools + [ToolSpec(endpoints[names[i]])];
      }
    }

    /** `execute(tool_name, arguments)`: never raises; always a dict whose
        `ok` is a boolean. An unknown name fails with `tool_not_found`; a
        handler, when present, is used instead of the URL; without either
        the call fails with `tool_missing_url`; otherwise the request is
        made and its response classified. */
    function Execute(toolName: string, arguments: Json,
                     runHandler: (Handler, Json) -> HandlerOutcome,
                     send: Request -> HttpOutcome): (r: Json)
      ensures r.Obj? && "ok" in r.fields && r.fields["ok"].Bool?
      ensures toolName !in endpoints ==> r == Failure("tool_not_found: " + toolName)
      ensures r.fields["ok"] == Bool(true) ==> toolName in endpoints
    {
      if toolName !in endpoints then
        Failure("tool_not_found: " + toolName)
      else
        var e := endpoints[toolName];
        if e.handler.Some? then
          match runHandler(e.handler.value, arguments)
          case Handled(data) => Obj(map["ok" := Bool(true), "data" := data])
          case HttpError(detail, code) => Obj(map["ok" := Bool(false), "error" := detail, "status_code" := Num(code)])
          case HandlerFailed(message) => Failure("handler_failed: " + message)
        else if MissingUrl(e) then
          Failure("tool_missing_url: " + toolName)
        else
          var resp := send(RequestFor(e, arguments));
          if resp.RequestFailed? then Failure("request_failed: " + resp.message)
          else Classify(resp)
    }
  }

  /** A tool with a handler never touches the network: the result is the
      same whatever the network would answer, and `ok` holds exactly when
      the handler returned, its dict then being the `data`. */
  lemma HandlerTakesPriority(reg: ToolRegistry, toolName: string, arguments: Json,
                             runHandler: (Handler, Json) -> HandlerOutcome,
                             send: Request -> HttpOutcome, send': Request -> HttpOutcome)
    requires toolName in reg.endpoints && reg.endpoints[toolName].handler.Some?
    ensures
      var r := reg.Execute(toolName, arguments, runHandler, send);
      var outcome := runHandler(reg.endpoints[toolName].handler.value, arguments);
      && r == reg.Execute(toolName, arguments, runHandler, send')
      && (r.fields["ok"] == Bool(true) <==> outcome.Handled?)
      && (outcome.Handled? ==> Member(r, "data") == outcome.data)
      && (outcome.HttpError? ==> Member(r, "error") == outcome.detail && Member(r, "status_code") == Num(outcome.statusCode))
      && (outcome.HandlerFailed? ==> r == Failure("handler_failed: " + outcome.message))
  {
  }

  /** Without a handler or a URL the call fails with `tool_missing_url`,
      whatever the network would answer. */
  lemma MissingUrlFails(reg: ToolRegistry, toolName: string, arguments: Json,
                        runHandler: (Handler, Json) -> HandlerOutcome, send: Request -> HttpOutcome)
    requires toolName in reg.endpoints
    requires reg.endpoints[toolName].handler.None? && MissingUrl(reg.endpoints[toolName])
    ensures reg.Execute(toolName, arguments, runHandler, send) == Failure("tool_missing_url: " + toolName)
  {
  }

  /** A remote call depends on the network only through the one request
      it makes, and its result mirrors the answer: a request failure gives
      `request_failed`, a response is the dict `Classify` builds (the decoded
      body as `data` only for a JSON content type, the text otherwise). */
  lemma RemoteCall(reg: ToolRegistry, toolName: string, arguments: Json,
                   runHandler: (Handler, Json) -> HandlerOutcome,
                   send: Request -> HttpOutcome, send': Request -> HttpOutcome)
    requires toolName in reg.endpoints
    requires reg.endpoints[toolName].handler.None? && !MissingUrl(reg.endpoints[toolName])
    ensures
      var q := RequestFor(reg.endpoints[toolName], arguments);
      var r := reg.Execute(toolName, arguments, runHandler, send);
      && (send(q) == send'(q) ==> r == reg.Execute(toolName, arguments, runHandler, send'))
      && (send(q).RequestFailed? ==> r == Failure("request_failed: " + send(q).message))
      && (send(q).Response? ==> r == Classify(send(q)))
      && (send(q).Response? ==>
            && r.fields["ok"] == Bool(send(q).ok)
            && Member(r, "status_code") == Num(send(q).statusCode)
            && (Member(r, "text") != Null <==> Member(r, "data") == Null))
  {
  }
}

/**
 * The ALKS account-service client: the account descriptor merged into
 * every request body, request construction, status classification and
 * the four operations (create key, create role, delete role, get role).
 *
 * The network, URL parsing, `http.NewRequest` and the body decoder are
 * opaque inputs: a `Platform` that says which URLs and requests fail to
 * build, and a transport `send` that maps the request it is given to the
 * reply that comes back. Each operation is one pass through
 * build -> send -> check status -> decode -> check the service's error list,
 * returning at the first stage that fails.
 */
module Alks {
  import opened Wrappers
  import opened Json
  import opened Text

  // ---------------------------------------------------------------------
  // Account descriptor and operation payloads

  /** Credentials and target sent with every request. */
  datatype AlksAccount = AlksAccount(username: string, password: string, account: string, role: string)

  const AccountKeys: set<string> := {"userid", "password", "account", "role"}

  /** The JSON fields of an account descriptor, under its JSON tags. */
  function AccountFields(a: AlksAccount): (o: Object)
    ensures o.Keys == AccountKeys && Flat(o)
  {
    map["userid" := JString(a.username), "password" := JString(a.password),
        "account" := JString(a.account), "role" := JString(a.role)]
  }

  function StringAt(o: Object, key: string): Option<string>
  {
    if key in o && o[key].JString? then Some(o[key].str) else None
  }

  function NumberAt(o: Object, key: string): Option<int>
  {
    if key in o && o[key].JNumber? then Some(o[key].num) else None
  }

  /**
   * What the service reads back as the account descriptor of a body: it is
   * there exactly when all four account fields are strings, and then it
   * agrees with the body on every account key.
   */
  function AccountOf(o: Object): (r: Option<AlksAccount>)
    ensures r.Some? <==> forall k :: k in AccountKeys ==> k in o && o[k].JString?
    ensures r.Some? ==> forall k :: k in AccountKeys ==> AccountFields(r.value)[k] == o[k]
  {
    match (StringAt(o, "userid"), StringAt(o, "password"), StringAt(o, "account"), StringAt(o, "role"))
    case (Some(u), Some(p), Some(a), Some(r)) => Some(AlksAccount(u, p, a, r))
    case _ => None
  }

  /** The four operations of the service. */
  datatype Operation = CreateKey | CreateRole | DeleteRole | GetRole {
    /** The path, relative to the base URL, that the operation posts to. */
    function Endpoint(): string
    {
      match this
      case CreateKey => "/getIAMKeys/"
      case CreateRole => "/createRole/"
      case DeleteRole => "/deleteRole/"
      case GetRole => "/getAccountRole/"
    }

    /** The JSON names of the operation's own request fields. */
    function PayloadKeys(): set<string>
    {
      match this
      case CreateKey => {"sessionTime"}
      case CreateRole => {"roleName", "roleType", "includeDefaultPolicy"}
      case DeleteRole => {"roleName"}
      case GetRole => {"roleName"}
    }
  }

  /** The operation-specific request structs. */
  datatype Payload =
    | CreateIamKeyReq(sessionTime: int)
    | CreateIamRoleReq(roleName: string, roleType: string, incDefPols: int)
    | DeleteRoleRequest(roleName: string)
    | GetRoleRequest(roleName: string)
  {
    function Op(): Operation
    {
      match this
      case CreateIamKeyReq(_) => CreateKey
      case CreateIamRoleReq(_, _, _) => CreateRole
      case DeleteRoleRequest(_) => DeleteRole
      case GetRoleRequest(_) => GetRole
    }

    /** The JSON fields of the payload, under its JSON tags. */
    function Fields(): (o: Object)
      ensures o.Keys == Op().PayloadKeys() && Flat(o)
    {
      match this
      case CreateIamKeyReq(t) => map["sessionTime" := JNumber(t)]
      case CreateIamRoleReq(n, t, inc) =>
        map["roleName" := JString(n), "roleType" := JString(t), "includeDefaultPolicy" := JNumber(inc)]
      case DeleteRoleRequest(n) => map["roleName" := JString(n)]
      case GetRoleRequest(n) => map["roleName" := JString(n)]
    }
  }

  /**
   * What the service reads back, for operation `op`, as its payload: when
   * found it belongs to `op` and agrees with the body on every payload key.
   */
  function PayloadOf(op: Operation, o: Object): (r: Option<Payload>)
    ensures r.Some? ==> r.value.Op() == op
    ensures r.Some? ==> forall k :: k in r.value.Fields() ==> k in o && o[k] == r.value.Fields()[k]
  {
    match op
    case CreateKey =>
      (match NumberAt(o, "sessionTime")
       case Some(t) => Some(CreateIamKeyReq(t))
       case None => None)
    case CreateRole =>
      (match (StringAt(o, "roleName"), StringAt(o, "roleType"), NumberAt(o, "includeDefaultPolicy"))
       case (Some(n), Some(t), Some(inc)) => Some(CreateIamRoleReq(n, t, inc))
       case _ => None)
    case DeleteRole =>
      (match StringAt(o, "roleName")
       case Some(n) => Some(DeleteRoleRequest(n))
       case None => None)
    case GetRole =>
      (match StringAt(o, "roleName")
       case Some(n) => Some(GetRoleRequest(n))
       case None => None)
  }

  /** No operation field shares a JSON name with an account field. */
  lemma PayloadKeysDisjoint(op: Operation)
    ensures op.PayloadKeys() !! AccountKeys
  {
  }

  /**
   * The request body: the payload and the account descriptor embedded side
   * by side in one anonymous struct, so both sets of fields sit at the top
   * level of one flat object and none of them is lost.
   */
  function EncodeBody(p: Payload, a: AlksAccount): (body: Object)
    ensures body.Keys == p.Op().PayloadKeys() + AccountKeys
    ensures Flat(body)
    ensures forall k :: k in p.Fields() ==> body[k] == p.Fields()[k]
    ensures forall k :: k in AccountKeys ==> body[k] == AccountFields(a)[k]
  {
    PayloadKeysDisjoint(p.Op());
    Flatten(p.Fields(), AccountFields(a))
  }

  // ---------------------------------------------------------------------
  // Client and request construction

  /** The client: an account descriptor and a base URL, never updated. */
  datatype AlksClient = AlksClient(account: AlksAccount, baseURL: string)

  /** Errors, tagged with the stage of the operation that produced them. */
  datatype Error =
    | RequestError(message: string)   // URL parsing or request assembly
    | TransportError(message: string) // the round trip itself, passed through unchanged
    | ApiError(message: string)       // a status code other than 200, 201, 202, 204
    | DecodeError(message: string)    // the body could not be read or decoded
    | ServiceError(message: string)   // the service's own error list was not empty
    | Panicked(message: string)       // not returned: the Go call panics here

  /** The run-time panic of dereferencing a nil pointer. */
  const NilDereference: string := "runtime error: invalid memory address or nil pointer dereference"

  /** Creating a client cannot fail; it keeps the URL and credentials it is given. */
  function NewAlksClient(url: string, username: string, password: string, account: string, role: string)
    : (r: Result<AlksClient, Error>)
    ensures r.Success?
    ensures r.value.baseURL == url
    ensures r.value.account == AlksAccount(username, password, account, role)
  {
    Success(AlksClient(AlksAccount(username, password, account, role), url))
  }

  datatype HttpRequest = HttpRequest(verb: string, url: string, header: map<string, string>, body: Object)

  const JsonContentType: map<string, string> := map["Content-Type" := "application/json"]

  /**
   * The library calls `NewRequest` depends on: the error `url.Parse`
   * reports for a URL, if any, and the error `http.NewRequest` reports for
   * a method and URL, if any.
   */
  datatype Platform = Platform(parseError: string -> Option<string>, buildError: (string, string) -> Option<string>)

  /**
   * A request with `verb` to the base URL followed by `endpoint`,
   * carrying `body` and a JSON content type; it fails when the URL does not
   * parse and, after that, when the request cannot be assembled.
   */
  function NewRequest(c: AlksClient, body: Object, verb: string, endpoint: string, platform: Platform)
    : (r: Result<HttpRequest, Error>)
    ensures platform.parseError(c.baseURL + endpoint).Some? ==>
      r == Failure(RequestError("Error parsing base URL: " + platform.parseError(c.baseURL + endpoint).value))
    ensures platform.parseError(c.baseURL + endpoint).None? && platform.buildError(verb, c.baseURL + endpoint).Some? ==>
      r == Failure(RequestError("Error creating request: " + platform.buildError(verb, c.baseURL + endpoint).value))
    ensures r.Success? <==>
      platform.parseError(c.baseURL + endpoint).None? && platform.buildError(verb, c.baseURL + endpoint).None?
    ensures r.Success? ==> r.value.verb == verb && r.value.url == c.baseURL + endpoint
    ensures r.Success? ==> "Content-Type" in r.value.header && r.value.header["Content-Type"] == "application/json"
    ensures r.Success? ==> r.value.body == body
  {
    var u := c.baseURL + endpoint;
    match platform.parseError(u)
    case Some(e) => Failure(RequestError("Error parsing base URL: " + e))
    case None =>
      match platform.buildError(verb, u)
      case Some(e) => Failure(RequestError("Error creating request: " + e))
      case None => Success(HttpRequest(verb, u, JsonContentType, body))
  }

  /**
   * The POST request an operation sends for payload `p`: it targets the
   * operation's endpoint, and the service reads back from its body exactly
   * the client's account descriptor and `p`.
   */
  function OperationRequest(c: AlksClient, p: Payload, platform: Platform): (r: Result<HttpRequest, Error>)
    ensures r.Success? <==>
      platform.parseError(c.baseURL + p.Op().Endpoint()).None? &&
      platform.buildError("POST", c.baseURL + p.Op().Endpoint()).None?
    ensures r.Success? ==> r.value.verb == "POST" && r.value.url == c.baseURL + p.Op().Endpoint()
    ensures r.Success? ==> "Content-Type" in r.value.header && r.value.header["Content-Type"] == "application/json"
    ensures r.Success? ==> Flat(r.value.body) && r.value.body.Keys == p.Op().PayloadKeys() + AccountKeys
    ensures r.Success? ==> AccountOf(r.value.body) == Some(c.account) && PayloadOf(p.Op(), r.value.body) == Some(p)
  {
    var body := EncodeBody(p, c.account);
    BodyRoundTrip(p, c.account);
    NewRequest(c, body, "POST", p.Op().Endpoint(), platform)
  }

  /** The service reads back, from every body, the account and the payload it was built from. */
  lemma BodyRoundTrip(p: Payload, a: AlksAccount)
    ensures AccountOf(EncodeBody(p, a)) == Some(a)
    ensures PayloadOf(p.Op(), EncodeBody(p, a)) == Some(p)
  {
  }

  // ---------------------------------------------------------------------
  // Replies and status classification

  /**
   * What decoding a response body gave: the record; nothing, when the body
   * is the JSON literal `null`, which `json.Unmarshal` decodes into the
   * result pointer by setting it to nil and reporting no error; or the
   * read/parse error.
   */
  datatype Body<R> = Parsed(value: R) | Null | Unreadable(err: string)

  datatype HttpResponse<R> = HttpResponse(statusCode: int, status: string, body: Body<R>)

  /** The transport's outcome: an error, or a response. */
  datatype Reply<R> = TransportFailed(err: string) | Delivered(resp: HttpResponse<R>)

  /**
   * The form `net/http` gives a response's `Status`: the code in decimal,
   * a space, then the reason phrase ("404 Not Found").
   */
  predicate StatusLine(code: int, status: string)
  {
    code >= 0 && |Decimal(code)| < |status| && status[..|Decimal(code)| + 1] == Decimal(code) + " "
  }

  /** Status codes that let the response through. */
  predicate Accepted(code: int)
  {
    code == 200 || code == 201 || code == 202 || code == 204
  }

  /** Failing status codes whose number the message spells out before the status text. */
  predicate Numbered(code: int)
  {
    code == 400 || code == 401 || code == 402 || code == 422
  }

  /** The message prefix of each numbered code, spelled with its decimal notation. */
  lemma NumberedCodesInDecimal()
    ensures "API Error " + Decimal(400) + ": " == "API Error 400: "
    ensures "API Error " + Decimal(401) + ": " == "API Error 401: "
    ensures "API Error " + Decimal(402) + ": " == "API Error 402: "
    ensures "API Error " + Decimal(422) + ": " == "API Error 422: "
  {
  }

  /**
   * `checkResp`: a transport error is returned unchanged before any status
   * is looked at; otherwise the response passes through unchanged exactly
   * for 200, 201, 202 and 204, and every other code is an API error whose
   * message spells out the code before the status text only for 400, 401,
   * 402 and 422.
   */
  function CheckResp<R>(reply: Reply<R>): (r: Result<HttpResponse<R>, Error>)
    ensures reply.TransportFailed? ==> r == Failure(TransportError(reply.err))
    ensures reply.Delivered? ==> (r.Success? <==> Accepted(reply.resp.statusCode))
    ensures r.Success? ==> reply.Delivered? && r.value == reply.resp
    ensures reply.Delivered? && reply.resp.statusCode >= 0 && Numbered(reply.resp.statusCode) ==>
      r == Failure(ApiError("API Error " + Decimal(reply.resp.statusCode) + ": " + reply.resp.status))
    ensures reply.Delivered? && !Accepted(reply.resp.statusCode) && !Numbered(reply.resp.statusCode) ==>
      r == Failure(ApiError("API Error: " + reply.resp.status))
  {
    NumberedCodesInDecimal();
    match reply
    case TransportFailed(e) => Failure(TransportError(e))
    case Delivered(resp) =>
      var i := resp.statusCode;
      if i == 200 then Success(resp)
      else if i == 201 then Success(resp)
      else if i == 202 then Success(resp)
      else if i == 204 then Success(resp)
      else if i == 400 then Failure(ApiError("API Error 400: " + resp.status))
      else if i == 401 then Failure(ApiError("API Error 401: " + resp.status))
      else if i == 402 then Failure(ApiError("API Error 402: " + resp.status))
      else if i == 422 then Failure(ApiError("API Error 422: " + resp.status))
      else Failure(ApiError("API Error: " + resp.status))
  }

  /** The reply passes the status check and its body decodes, to a record or to null. */
  predicate Delivers<R>(reply: Reply<R>)
  {
    reply.Delivered? && Accepted(reply.resp.statusCode) && !reply.resp.body.Unreadable?
  }

  /**
   * The stages every operation shares: build the request, send it, check
   * the status, decode the body. The first stage that fails decides the
   * error; a decode failure is reported after `parsePrefix`. A success is
   * the decoded record, or nothing for a `null` body.
   */
  function Exchange<R>(req: Result<HttpRequest, Error>, send: HttpRequest -> Reply<R>, parsePrefix: string)
    : (r: Result<Option<R>, Error>)
    ensures req.Failure? ==> r == Failure(req.error)
    ensures req.Success? && CheckResp(send(req.value)).Failure? ==> r == Failure(CheckResp(send(req.value)).error)
    ensures req.Success? && CheckResp(send(req.value)).Success? && send(req.value).resp.body.Unreadable? ==>
      r == Failure(DecodeError(parsePrefix + send(req.value).resp.body.err))
    ensures r.Success? <==> req.Success? && Delivers(send(req.value))
    ensures r.Success? && send(req.value).resp.body.Parsed? ==> r.value == Some(send(req.value).resp.body.value)
    ensures r.Success? && send(req.value).resp.body.Null? ==> r.value == None
  {
    var request :- req;
    var resp :- CheckResp(send(request));
    match resp.body
    case Unreadable(e) => Failure(DecodeError(parsePrefix + e))
    case Null => Success(None)
    case Parsed(v) => Success(Some(v))
  }

  // ---------------------------------------------------------------------
  // The four operations

  datatype StsResponse = StsResponse(accessKey: string, sessionKey: string, sessionToken: string)

  datatype CreateRoleResponse = CreateRoleResponse(
    roleName: string, roleType: string, roleArn: string, roleIPArn: string,
    roleAddedToIP: bool, errors: seq<string>)

  datatype GetRoleResponse = GetRoleResponse(
    roleName: string, roleArn: string, roleIPArn: string, roleExists: bool, errors: seq<string>)

  datatype DeleteRoleResponse = DeleteRoleResponse(roleName: string, status: string, errors: seq<string>)

  /** The result of a lookup: found, absent (not an error), or failed. */
  datatype Lookup<R> = Found(value: R) | NotFound | Failed(error: Error)

  /** The session time every key request asks for. */
  const KeySessionTime: int := 1

  /** The wire value of the include-default-policies flag. */
  function IncludeFlag(flag: bool): (n: int)
    ensures n == 0 || n == 1
    ensures n == 1 <==> flag
  {
    if flag then 1 else 0
  }

  /** The message for a non-empty service error list. */
  function ServiceMessage(prefix: string, errors: seq<string>): string
  {
    prefix + Join(errors, ", ")
  }

  /**
   * `CreateIamKey`: the error of the first failing stage, with a decode
   * failure reported after "Error parsing STS response: "; otherwise the
   * STS credentials exactly as decoded, or no credentials and no error
   * for a `null` body. The response carries no error list to check.
   */
  function CreateIamKey(c: AlksClient, platform: Platform, send: HttpRequest -> Reply<StsResponse>)
    : (r: Result<Option<StsResponse>, Error>)
    ensures var req := OperationRequest(c, CreateIamKeyReq(KeySessionTime), platform);
      && (req.Failure? ==> r == Failure(req.error))
      && (req.Success? && CheckResp(send(req.value)).Failure? ==> r == Failure(CheckResp(send(req.value)).error))
      && (req.Success? && CheckResp(send(req.value)).Success? && send(req.value).resp.body.Unreadable? ==>
            r == Failure(DecodeError("Error parsing STS response: " + send(req.value).resp.body.err)))
      && (r.Success? <==> req.Success? && Delivers(send(req.value)))
      && (r.Success? && send(req.value).resp.body.Parsed? ==> r.value == Some(send(req.value).resp.body.value))
      && (r.Success? && send(req.value).resp.body.Null? ==> r.value == None)
  {
    Exchange(OperationRequest(c, CreateIamKeyReq(KeySessionTime), platform), send, "Error parsing STS response: ")
  }

  /**
   * `CreateIamRole`: after the shared stages, a `null` body leaves a nil
   * record whose error list the call dereferences, and it panics; a
   * non-empty error list fails the call with the entries joined; only a
   * record with no errors is returned, and then unchanged.
   */
  function CreateIamRole(c: AlksClient, roleName: string, roleType: string, includeDefaultPolicies: bool,
                         platform: Platform, send: HttpRequest -> Reply<CreateRoleResponse>)
    : (r: Result<CreateRoleResponse, Error>)
    ensures var x := Exchange(OperationRequest(c, CreateIamRoleReq(roleName, roleType, IncludeFlag(includeDefaultPolicies)), platform),
                              send, "Error parsing CreateRole response: ");
      && (x.Failure? ==> r == Failure(x.error))
      && (x.Success? && x.value.None? ==> r == Failure(Panicked(NilDereference)))
      && (x.Success? && x.value.Some? && |x.value.value.errors| > 0 ==>
            r == Failure(ServiceError("Error creating role: " + Join(x.value.value.errors, ", "))))
      && (r.Success? <==> x.Success? && x.value.Some? && |x.value.value.errors| == 0)
      && (r.Success? ==> x.value == Some(r.value))
  {
    var payload := CreateIamRoleReq(roleName, roleType, IncludeFlag(includeDefaultPolicies));
    var decoded :- Exchange(OperationRequest(c, payload, platform), send, "Error parsing CreateRole response: ");
    match decoded
    case None => Failure(Panicked(NilDereference))
    case Some(cr) =>
      if |cr.errors| > 0 then Failure(ServiceError(ServiceMessage("Error creating role: ", cr.errors)))
      else Success(cr)
  }

  /**
   * `DeleteIamRole` for the role whose identifier the caller's resource
   * holds: a `null` body panics on the nil record; any non-empty error
   * list is a failure, including the one the service reports for a role
   * that is already gone.
   */
  function DeleteIamRole(c: AlksClient, roleId: string, platform: Platform,
                         send: HttpRequest -> Reply<DeleteRoleResponse>)
    : (r: Outcome<Error>)
    ensures var x := Exchange(OperationRequest(c, DeleteRoleRequest(roleId), platform), send, "Error parsing DeleteRole response: ");
      && (x.Failure? ==> r == Fail(x.error))
      && (x.Success? && x.value.None? ==> r == Fail(Panicked(NilDereference)))
      && (x.Success? && x.value.Some? && |x.value.value.errors| > 0 ==>
            r == Fail(ServiceError("Error deleting role: " + Join(x.value.value.errors, ", "))))
      && (r.Pass? <==> x.Success? && x.value.Some? && |x.value.value.errors| == 0)
  {
    match Exchange(OperationRequest(c, DeleteRoleRequest(roleId), platform), send, "Error parsing DeleteRole response: ")
    case Failure(e) => Fail(e)
    case Success(None) => Fail(Panicked(NilDereference))
    case Success(Some(del)) =>
      if |del.errors| > 0 then Fail(ServiceError(ServiceMessage("Error deleting role: ", del.errors)))
      else Pass
  }

  /**
   * `GetIamRole`: a `null` body panics on the nil record; the error list
   * is checked before the existence flag; an empty list with the flag
   * false is an absent role, not an error, and a role is returned only
   * when it exists, unchanged.
   */
  function GetIamRole(c: AlksClient, roleName: string, platform: Platform,
                      send: HttpRequest -> Reply<GetRoleResponse>)
    : (r: Lookup<GetRoleResponse>)
    ensures var x := Exchange(OperationRequest(c, GetRoleRequest(roleName), platform), send, "Error parsing GetRole response: ");
      && (x.Failure? ==> r == Failed(x.error))
      && (x.Success? && x.value.None? ==> r == Failed(Panicked(NilDereference)))
      && (x.Success? && x.value.Some? && |x.value.value.errors| > 0 ==>
            r == Failed(ServiceError("Error getting role: " + Join(x.value.value.errors, ", "))))
      && (r.NotFound? <==> x.Success? && x.value.Some? && |x.value.value.errors| == 0 && !x.value.value.roleExists)
      && (r.Found? <==> x.Success? && x.value.Some? && |x.value.value.errors| == 0 && x.value.value.roleExists)
      && (r.Found? ==> x.value == Some(r.value))
  {
    match Exchange(OperationRequest(c, GetRoleRequest(roleName), platform), send, "Error parsing GetRole response: ")
    case Failure(e) => Failed(e)
    case Success(None) => Failed(Panicked(NilDereference))
    case Success(Some(cr)) =>
      if |cr.errors| > 0 then Failed(ServiceError(ServiceMessage("Error getting role: ", cr.errors)))
      else if !cr.roleExists then NotFound
      else Found(cr)
  }
}

/**
 * Properties that relate several members of the client model: what the
 * API error messages reveal, the shape of every request body, and the
 * end-to-end behaviour of the operations against a fake service.
 */
module AlksProperties {
  import opened Wrappers
  import opened Json
  import opened Text
  import opened Alks

  // ---------------------------------------------------------------------
  // Status classification

  /** The two characters of a numbered code's message that follow "API Error 4". */
  lemma NumberedMessageDigits<R>(r: HttpResponse<R>)
    requires Numbered(r.statusCode)
    ensures var m := CheckResp(Delivered(r)).error.message;
      |m| > 12 && m[9] == ' ' && m[11] == (if r.statusCode == 422 then '2' else '0')
      && m[12] == (if r.statusCode == 400 then '0' else if r.statusCode == 401 then '1' else '2')
  {
  }

  /**
   * A numbered code can be told apart from every other failing code by the
   * error message alone, whatever the status texts are.
   */
  lemma NumberedCodeIsRecoverable<R>(r1: HttpResponse<R>, r2: HttpResponse<R>)
    requires Numbered(r1.statusCode) && !Accepted(r2.statusCode) && r1.statusCode != r2.statusCode
    ensures CheckResp(Delivered(r1)).error != CheckResp(Delivered(r2)).error
  {
    var m1 := CheckResp(Delivered(r1)).error.message;
    var m2 := CheckResp(Delivered(r2)).error.message;
    NumberedMessageDigits(r1);
    if Numbered(r2.statusCode) {
      // Two numbered messages differ in the code's last two digits.
      NumberedMessageDigits(r2);
      assert m1[11] != m2[11] || m1[12] != m2[12];
    } else {
      // "API Error: ..." has a colon where a numbered message has a space.
      assert m2 == "API Error: " + r2.status;
      assert m2[9] == ':';
    }
  }

  /** The number of digits at the start of `s`. */
  function LeadingDigits(s: string): nat
  {
    if |s| > 0 && '0' <= s[0] <= '9' then 1 + LeadingDigits(s[1..]) else 0
  }

  /** A string that starts with digits and then a space has exactly those leading digits. */
  lemma {:induction false} LeadingDigitsBeforeSpace(d: string, s: string)
    requires forall i :: 0 <= i < |d| ==> '0' <= d[i] <= '9'
    requires |d| < |s| && s[..|d| + 1] == d + " "
    ensures LeadingDigits(s) == |d|
  {
    if |d| == 0 {
      assert s[0] == (d + " ")[0] == ' ';
    } else {
      assert s[0] == (d + " ")[0] == d[0];
      assert s[1..][..|d|] == s[..|d| + 1][1..] == d[1..] + " ";
      LeadingDigitsBeforeSpace(d[1..], s[1..]);
    }
  }

  /** A well-formed status line determines the code it starts with. */
  lemma StatusLineNamesCode(code1: int, code2: int, status: string)
    requires StatusLine(code1, status) && StatusLine(code2, status)
    ensures code1 == code2
  {
    var d1, d2 := Decimal(code1), Decimal(code2);
    LeadingDigitsBeforeSpace(d1, status);
    LeadingDigitsBeforeSpace(d2, status);
    assert d1 == status[..|d1| + 1][..|d1|] == status[..|d2| + 1][..|d2|] == d2;
    DecimalInjective(code1, code2);
  }

  /**
   * Different failing codes always give different errors when the status
   * text has the form `net/http` gives it: a numbered code through the
   * digits of the message, any other code through the status line that
   * "API Error: " is followed by.
   */
  lemma FailingCodeIsRecoverable<R>(r1: HttpResponse<R>, r2: HttpResponse<R>)
    requires !Accepted(r1.statusCode) && StatusLine(r1.statusCode, r1.status)
    requires !Accepted(r2.statusCode) && StatusLine(r2.statusCode, r2.status)
    requires r1.statusCode != r2.statusCode
    ensures CheckResp(Delivered(r1)).error != CheckResp(Delivered(r2)).error
  {
    if Numbered(r1.statusCode) {
      NumberedCodeIsRecoverable(r1, r2);
    } else if Numbered(r2.statusCode) {
      NumberedCodeIsRecoverable(r2, r1);
    } else if CheckResp(Delivered(r1)).error == CheckResp(Delivered(r2)).error {
      var prefix := "API Error: ";
      assert prefix + r1.status == prefix + r2.status;
      assert r1.status == (prefix + r1.status)[|prefix|..] == (prefix + r2.status)[|prefix|..] == r2.status;
      StatusLineNamesCode(r1.statusCode, r2.statusCode, r1.status);
    }
  }

  // ---------------------------------------------------------------------
  // Request bodies

  /**
   * Every body has exactly the four account fields beside the operation's
   * own fields: five for a key or a single role name, seven for a role
   * to create.
   */
  lemma BodySize(p: Payload, a: AlksAccount)
    ensures |EncodeBody(p, a)| == |p.Op().PayloadKeys()| + 4
    ensures |EncodeBody(p, a)| == if p.CreateIamRoleReq? then 7 else 5
  {
  }

  /** A key request always asks for a session time of 1. */
  lemma KeyBodySessionTime(c: AlksClient, platform: Platform)
    ensures var r := OperationRequest(c, CreateIamKeyReq(KeySessionTime), platform);
      r.Success? ==> r.value.body["sessionTime"] == JNumber(1)
  {
  }

  /** The default-policy field of a role request is 1 for true and 0 for false, and nothing else. */
  lemma RoleBodyPolicyFlag(c: AlksClient, roleName: string, roleType: string, flag: bool, platform: Platform)
    ensures var r := OperationRequest(c, CreateIamRoleReq(roleName, roleType, IncludeFlag(flag)), platform);
      r.Success? ==>
        && (r.value.body["includeDefaultPolicy"] == JNumber(0) || r.value.body["includeDefaultPolicy"] == JNumber(1))
        && (r.value.body["includeDefaultPolicy"] == JNumber(1) <==> flag)
  {
  }

  /**
   * Delete and get bodies have the same fields, so the endpoint is what
   * tells the four operations apart: no two share one.
   */
  lemma EndpointsDistinct(op1: Operation, op2: Operation)
    requires op1 != op2
    ensures op1.Endpoint() != op2.Endpoint()
  {
  }

  /**
   * A client keeps the credentials it was created with: every request it
   * builds carries them back to the service, beside the payload.
   */
  lemma ClientCredentialsInEveryRequest(url: string, username: string, password: string, account: string,
                                        role: string, p: Payload, platform: Platform)
    ensures var c := NewAlksClient(url, username, password, account, role).value;
      var r := OperationRequest(c, p, platform);
      r.Success? ==>
        && r.value.url == url + p.Op().Endpoint()
        && AccountOf(r.value.body) == Some(AlksAccount(username, password, account, role))
  {
  }

  // ---------------------------------------------------------------------
  // Operations

  /**
   * Each operation makes one round trip: its outcome depends on the
   * transport only through the reply to the one request it builds.
   */
  lemma OneRoundTrip<R>(req: Result<HttpRequest, Error>, send1: HttpRequest -> Reply<R>,
                            send2: HttpRequest -> Reply<R>, parsePrefix: string)
    requires req.Success? ==> send1(req.value) == send2(req.value)
    ensures Exchange(req, send1, parsePrefix) == Exchange(req, send2, parsePrefix)
  {
  }

  /**
   * A get-role reply whose error list is not empty fails even when the
   * status is accepted and the role is reported to exist.
   */
  lemma GetIamRoleErrorsBeforeExistence(c: AlksClient, roleName: string, platform: Platform,
                                        send: HttpRequest -> Reply<GetRoleResponse>, cr: GetRoleResponse, code: int, status: string)
    requires OperationRequest(c, GetRoleRequest(roleName), platform).Success?
    requires send(OperationRequest(c, GetRoleRequest(roleName), platform).value) == Delivered(HttpResponse(code, status, Parsed(cr)))
    requires Accepted(code) && cr.roleExists && |cr.errors| > 0
    ensures GetIamRole(c, roleName, platform, send) == Failed(ServiceError("Error getting role: " + Join(cr.errors, ", ")))
  {
  }

  /**
   * An accepted reply whose body is `null` gives no credentials and no
   * error for a key request, while each role operation panics on the nil
   * record.
   */
  lemma NullBodyOutcomes(c: AlksClient, platform: Platform, code: int, status: string,
                         roleName: string, roleType: string, flag: bool)
    requires Accepted(code)
    requires platform.parseError == (u => None) && platform.buildError == ((v, u) => None)
    ensures CreateIamKey(c, platform, req => Delivered(HttpResponse(code, status, Null))) == Success(None)
    ensures CreateIamRole(c, roleName, roleType, flag, platform, req => Delivered(HttpResponse(code, status, Null)))
            == Failure(Panicked(NilDereference))
    ensures DeleteIamRole(c, roleName, platform, req => Delivered(HttpResponse(code, status, Null)))
            == Fail(Panicked(NilDereference))
    ensures GetIamRole(c, roleName, platform, req => Delivered(HttpResponse(code, status, Null)))
            == Failed(Panicked(NilDereference))
  {
  }

  /** With a single error entry, the message is the prefix followed by that entry. */
  lemma SingleServiceError(c: AlksClient, roleId: string, platform: Platform,
                           send: HttpRequest -> Reply<DeleteRoleResponse>, del: DeleteRoleResponse,
                           code: int, status: string)
    requires OperationRequest(c, DeleteRoleRequest(roleId), platform).Success?
    requires send(OperationRequest(c, DeleteRoleRequest(roleId), platform).value) == Delivered(HttpResponse(code, status, Parsed(del)))
    requires Accepted(code) && |del.errors| == 1
    ensures DeleteIamRole(c, roleId, platform, send) == Fail(ServiceError("Error deleting role: " + del.errors[0]))
  {
  }

  // ---------------------------------------------------------------------
  // End-to-end scenarios against a fake service that answers only the
  // request it expects and replies 404 to anything else

  /** URL parsing and request assembly that always succeed. */
  function Accepting(): Platform
  {
    Platform(u => None, (v, u) => None)
  }

  /** The fake service's reply to `req`: `reply` when `req` is the expected request, else 404. */
  function Answer<R>(c: AlksClient, req: HttpRequest, p: Payload, reply: HttpResponse<R>): Reply<R>
  {
    if req.verb == "POST" && req.url == c.baseURL + p.Op().Endpoint()
       && AccountOf(req.body) == Some(c.account) && PayloadOf(p.Op(), req.body) == Some(p)
    then Delivered(reply)
    else Delivered(HttpResponse(404, "404 Not Found", Unreadable("unexpected request")))
  }

  /** A key request answered 200 with credentials AK, SK, TK returns exactly those credentials. */
  lemma CreateIamKeyScenario(c: AlksClient)
    ensures CreateIamKey(c, Accepting(),
              req => Answer(c, req, CreateIamKeyReq(1), HttpResponse(200, "200 OK", Parsed(StsResponse("AK", "SK", "TK")))))
            == Success(Some(StsResponse("AK", "SK", "TK")))
  {
  }

  /** Deleting "test-role", answered 200 with an empty error list, succeeds. */
  lemma DeleteIamRoleScenario(c: AlksClient)
    ensures DeleteIamRole(c, "test-role", Accepting(),
              req => Answer(c, req, DeleteRoleRequest("test-role"),
                            HttpResponse(200, "200 OK", Parsed(DeleteRoleResponse("", "deleted", [])))))
            == Pass
  {
  }

  /** Looking up "missing-role", answered 200 with the role absent and no errors, is not found and not an error. */
  lemma GetIamRoleScenario(c: AlksClient)
    ensures GetIamRole(c, "missing-role", Accepting(),
              req => Answer(c, req, GetRoleRequest("missing-role"),
                            HttpResponse(200, "200 OK", Parsed(GetRoleResponse("", "", "", false, [])))))
            == NotFound
  {
  }
}

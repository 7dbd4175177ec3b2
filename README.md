# ALKS client core, modelled in Dafny

A model of the ALKS account-service client (`alks.go`): the account
descriptor (`userid`, `password`, `account`, `role`) that is merged into every
request body, the construction of the POST request against the client's base
URL, the status-code check (`checkResp`), and the four operations built on
them: create an IAM key, create a role, delete a role, and get a role. Each
operation runs build request → send → check status → decode body → check
the service's error list, and returns at the first stage that fails.

The model is pure: datatypes, functions and lemmas. The client is a value
that no operation changes. The library calls the client makes are parameters:

- `url.Parse` and `http.NewRequest` are a `Platform`. It gives the error each
  call would report, if any.
- The HTTP round trip is a transport `send`. It maps the request it is given
  to the reply that comes back.
- The reply's body is already what `decodeBody` made of it: the decoded
  record, nothing for a `null` body, or the read/parse error.

Errors carry the exact message strings of the source. They are also tagged
with the stage that produced them (`RequestError`, `TransportError`,
`ApiError`, `DecodeError`, `ServiceError`, and `Panicked` for a panic).
The Go code has only the message.
When the role is absent, `GetIamRole` returns `(nil, nil)`. The model
returns the explicit `Lookup.NotFound` instead.

Files: `wrappers.dfy` (Option/Result/Outcome), `text.dfy` (`strings.Join`,
decimal notation and its injectivity), `json.dfy` (wire objects and embedded-struct flattening),
`alks.dfy` (types, client, request, status check, operations),
`alks_properties.dfy` (lemmas that relate several members, and three
end-to-end scenarios).

A reply body that is the JSON literal `null` decodes without error into a
nil record. `CreateIamKey` then returns no credentials and no error. The
three role operations read the error list of that nil record and panic
(alks.go:222, 261, 298). The model gives the panic as the outcome
`Panicked` with Go's nil-dereference message. It is not an error that the
Go function returns.

For a failing status code, the message spells out the code before the
status text only for 400, 401, 402 and 422. Every other code gives
"API Error: <status>". The code still reaches the caller through the status
text, which `net/http` writes as "<code> <reason>". Given status texts of
that form, two different failing codes always give different errors
(`AlksProperties.FailingCodeIsRecoverable`).

## Model

| member | source | states |
|---|---|---|
| `Text.Join` | alks.go:223 | Joining error entries gives the empty string for no entries. Otherwise its length is the entries' total length plus one separator between each pair, and it starts with the first entry |
| `Text.JoinAppend` | alks.go:223 | Appending an entry appends the separator and that entry to the joined text (the order `strings.Join` writes in) |
| `Json.Flatten` | alks.go:155-158 | Embedding two structs in one anonymous struct promotes both field sets to the top level. A JSON name tagged on both sides is dropped on both sides. The values are kept, and the result is flat when both inputs are |
| `Json.FlattenDisjoint` | alks.go:155-158 | When the two field sets share no name, flattening is the plain union and loses nothing |
| `Alks.AccountFields` | alks.go:17-22 | The account descriptor marshals to exactly the keys `userid`, `password`, `account`, `role`, none of them nested |
| `Alks.AccountOf` | alks.go:17-22 | Reading the account back succeeds exactly when all four account keys hold strings, and then agrees with the body on each of them |
| `Alks.Payload.Fields` | alks.go:31-39 | Each request struct marshals to exactly its operation's keys (`sessionTime`; `roleName`, `roleType`, `includeDefaultPolicy`; `roleName`), none nested |
| `Alks.PayloadOf` | alks.go:31-70 | Reading a payload back for an operation yields a payload of that operation that agrees with the body on each of its keys |
| `Alks.PayloadKeysDisjoint` | alks.go:17-39 | No operation key shares a name with an account key |
| `Alks.EncodeBody` | alks.go:155-158 | The body is one flat object whose keys are exactly the operation keys plus the four account keys, each with its own side's value |
| `Alks.BodyRoundTrip` | alks.go:196-199 | The account descriptor and the payload can both be read back, unchanged, from every body |
| `Alks.NewAlksClient` | alks.go:78-91 | Creating a client never fails. It keeps the base URL and the four credentials it is given |
| `Alks.NewRequest` | alks.go:93-109 | A URL that does not parse fails with "Error parsing base URL: …". Otherwise an assembly failure gives "Error creating request: …". Otherwise the request targets base URL + endpoint with the given method and body, and its Content-Type is application/json |
| `Alks.OperationRequest` | alks.go:164-167 | An operation's request is a POST to base URL + that operation's endpoint with the JSON content type. The client's account and the payload can be read back from its flat body |
| `Alks.NumberedCodesInDecimal` | alks.go:139-146 | The message prefix of each numbered code is "API Error " + the code in decimal + ": " |
| `Alks.CheckResp` | alks.go:125-150 | A transport error is returned unchanged, before any status code is read. The response passes through unchanged exactly for 200, 201, 202 and 204. Codes 400, 401, 402 and 422 fail with "API Error <code>: <status>", and every other code fails with "API Error: <status>" |
| `AlksProperties.StatusLineNamesCode` | alks.go:148 | A status text of the form "<code> <reason>" determines its code, so the generic message still identifies the code |
| `AlksProperties.FailingCodeIsRecoverable` | alks.go:139-148 | With status texts of the form "<code> <reason>", two different failing codes always give different errors |
| `Alks.Exchange` | alks.go:164-179 | The first failing stage decides the error: request, then status, then decode ("<prefix><err>"). It succeeds exactly when the request is built, the status is accepted and the body decodes. The result is then the decoded record, or nothing for a `null` body |
| `Alks.IncludeFlag` | alks.go:185-188 | The default-policy value is 1 for true and 0 for false. No other value is possible |
| `Alks.CreateIamKey` | alks.go:152-182 | A request failure or a status failure is returned as is. A decode failure gives "Error parsing STS response: <err>". The call succeeds exactly when the request is built, the status is accepted and the body decodes. It then returns the credentials as decoded, or no credentials and no error for a `null` body. There is no error-list check |
| `Alks.CreateIamRole` | alks.go:184-227 | An earlier failure is returned as is, and a `null` body panics on the nil record. A non-empty error list fails with "Error creating role: " followed by the entries joined with ", ". Success happens only with an empty list, and returns the record unchanged |
| `Alks.DeleteIamRole` | alks.go:229-266 | An earlier failure is returned as is, and a `null` body panics on the nil record. Any non-empty error list fails with "Error deleting role: " followed by the joined entries, including the one for an already-deleted role. Success happens exactly when a record with an empty list was decoded |
| `Alks.GetIamRole` | alks.go:268-307 | An earlier failure is returned as is, and a `null` body panics on the nil record. The error list is checked first ("Error getting role: " followed by the joined entries). An empty list with the role absent is NotFound, not an error. An empty list with the role present returns the record unchanged |
| `AlksProperties.NumberedMessageDigits` | alks.go:139-146 | A numbered code's message carries the code's last two digits at fixed positions |
| `AlksProperties.NumberedCodeIsRecoverable` | alks.go:139-148 | A numbered failing code gives a message that no other failing code gives, whatever the status texts |
| `AlksProperties.BodySize` | alks.go:155-158 | Every body has its operation's keys plus four: seven for create-role, five otherwise |
| `AlksProperties.KeyBodySessionTime` | alks.go:154 | A key request always carries `sessionTime` = 1 |
| `AlksProperties.RoleBodyPolicyFlag` | alks.go:185-199 | The sent `includeDefaultPolicy` is 0 or 1, and it is 1 exactly when the flag is true |
| `AlksProperties.EndpointsDistinct` | alks.go:164-281 | No two operations post to the same endpoint. Delete and get bodies have the same keys, so the endpoint is what tells them apart |
| `AlksProperties.ClientCredentialsInEveryRequest` | alks.go:78-91 | Every request from a new client goes to its URL + endpoint and carries the credentials it was created with |
| `AlksProperties.OneRoundTrip` | alks.go:248-251 | The outcome depends on the transport only through its reply to the one request built |
| `AlksProperties.GetIamRoleErrorsBeforeExistence` | alks.go:298-306 | An accepted reply whose role exists still fails when the error list is not empty |
| `AlksProperties.SingleServiceError` | alks.go:261-263 | For any accepted status and a single error entry, the delete message is "Error deleting role: " followed by that entry |
| `AlksProperties.NullBodyOutcomes` | alks.go:174-181 | An accepted `null` body gives no credentials and no error for a key request. Each role operation panics on the nil record |
| `AlksProperties.CreateIamKeyScenario` | alks.go:152-182 | A fake service answers the expected key request 200 with AK/SK/TK, and the operation returns exactly those credentials |
| `AlksProperties.DeleteIamRoleScenario` | alks.go:229-266 | Deleting "test-role", answered 200 with an empty error list, succeeds |
| `AlksProperties.GetIamRoleScenario` | alks.go:268-307 | Looking up "missing-role", answered 200 with the role absent and no errors, gives NotFound and not an error |

## Left out

- The HTTP round trip (`Http.Do`) and the `cleanhttp` client behind the `Http` field are I/O. They become the `send` parameter, and `AlksClient` has no transport field.
- `url.Parse` and `http.NewRequest` are foreign library calls. Only whether they fail, and with which text, is modelled. The request URL is the plain concatenation of base URL and endpoint; any normalisation by `u.String()` is not modelled.
- `ioutil.ReadAll` and `json.Unmarshal` inside `decodeBody` are foreign library calls. Their outcome is the reply's `Body`: a decoded record, `Null`, or an error text. Go's lenient decoding, where a missing field gets its zero value, belongs to that opaque decoder.
- JSON byte-level encoding (`json.Marshal`) is left out. A body is a key/value map, so the order of the keys in the printed text is not modelled.
- The `json.Marshal` error branches (alks.go:160-162, 201-203, 239-241, 277-279) are left out. They cannot be reached for these string/int structs. The one at alks.go:278 in `GetIamRole` reuses the create-role message text.
- `log.Printf` progress logging (alks.go:230, 269) is a side channel with no effect on results.
- `schema.ResourceData` and `meta` in `DeleteIamRole` are reduced to the role identifier that `d.Id()` returns.
- The status text of a response is not tied to the status code. Properties that depend on the "<code> <reason>" form that `net/http` produces take `StatusLine` as a premise.
- Alks.CheckResp: on a transport error the source also returns the response value beside the error. Every caller discards it, so the model returns only the error.
- Deleting a role that is already gone is not treated specially. The source leaves this open (alks.go:260), and the model keeps its behaviour: any error entry is a failure.

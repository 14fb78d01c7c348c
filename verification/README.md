# OAuth2 token-introspection authentication handler, in Dafny

This project models the authentication decision of
`OAuth2IntrospectionHandler.HandleAuthenticateAsync` from
IdentityModel.AspNetCore.OAuth2Introspection. The handler takes the bearer
token retrieved from a request and does one of three things:

- it skips the request;
- it fails with a fixed message;
- it succeeds with an authentication ticket built from the answer of an
  OAuth2 token-introspection endpoint (RFC 7662; the `active` member is
  defined in section 2.2).

The handler is written as one pure function, `Handler.Authenticate`. Its inputs are:

- the retrieved token, as `Option<string>`, where `None` stands for a null string;
- the options record;
- the introspection endpoint, as a function from request to response.

It returns a `Run`: the result (`Skip`, `Fail(message)` or `Success(ticket)`)
together with the list of requests sent to the endpoint. That list is how the
model states when the endpoint is consulted, and how often.

Files (one module each):

- `wrappers.dfy` (`Wrappers`): `Option`.
- `tokens.dfy` (`Tokens`): `IsMissing` (`string.IsNullOrWhiteSpace`) and
  `Contains('.')`, decided by a scan (`IndexOf`).
- `claims.dfy` (`Claims`): the claim filter. It drops the `active` pairs and
  keeps the rest as claims, in order. It has a functional definition, a
  loop version and lemmas.
- `introspection.dfy` (`Introspection`): options, request and response records.
- `tickets.dfy` (`Tickets`): identity, principal, ticket and properties
  records, the `ClaimsIdentity` constructor, plus `StoreTokens` and `GetTokenValue`.
- `handler.dfy` (`Handler`): the decision procedure and its properties.

Assumptions made where the source relies on code it does not show:

- `IsMissing` is IdentityModel's `string.IsNullOrWhiteSpace`. So a token is
  missing when it is null, empty, or made only of characters that .NET's
  `char.IsWhiteSpace` accepts. `Tokens.IsWhiteSpace` lists those characters.
- In C#, `"…" + response.Error` with a null `Error` gives the prefix alone.
  `Introspection.ErrorText` models that.
- The .NET constructor `ClaimsIdentity(claims, authenticationType, nameType, roleType)`
  replaces an empty name or role claim type with `ClaimTypes.Name` or
  `ClaimTypes.Role`. `Tickets.NewClaimsIdentity` models that substitution.
- Storing tokens on a fresh `AuthenticationProperties` leaves exactly the
  stored tokens. When two stored tokens share a name, `GetTokenValue` returns
  the later one.

Three facts about the handler that shape the model:

- Its two failure messages are fixed: `"Error returned from introspection endpoint: "`
  followed by the endpoint's error text, and `"Token is not active."`.
- It has no separate transport-failure branch. Whatever the introspection
  client reports as an error reaches the handler as `IsError`.
- It keeps no response cache: every token that is not skipped is sent to the endpoint.

## Model

| member | source | states |
|---|---|---|
| Handler.Authenticate | src/IdentityModel.AspNetCore.OAuth2Introspection/OAuth2IntrospectionHandler.cs:24-74 | The result is Skip exactly when the token is missing or is a dotted token the options skip. Skip is also exactly the case where nothing is sent. Otherwise exactly one request is sent: the unchanged token, with the scope name as client id and the scope secret as client secret. The result is then what the handler makes of the endpoint's answer to that request. |
| Handler.MissingTokenSkips | src/IdentityModel.AspNetCore.OAuth2Introspection/OAuth2IntrospectionHandler.cs:26-31 | A null, empty or all-white-space token gives Skip, and no request is sent. |
| Tokens.AllWhiteSpace | src/IdentityModel.AspNetCore.OAuth2Introspection/OAuth2IntrospectionHandler.cs:28 | The scan answers true exactly when every character of the token is .NET white space. |
| Tokens.MissingIffBlank | src/IdentityModel.AspNetCore.OAuth2Introspection/OAuth2IntrospectionHandler.cs:28 | IsMissing holds exactly for a null token or one made only of white space. A token containing a dot is never missing. |
| Tokens.IsMissing | src/IdentityModel.AspNetCore.OAuth2Introspection/OAuth2IntrospectionHandler.cs:28 | A token is missing exactly when it is null or every one of its characters is .NET white space; the empty string is missing. |
| Tokens.IndexOf | src/IdentityModel.AspNetCore.OAuth2Introspection/OAuth2IntrospectionHandler.cs:33 | The result is -1 exactly when the character does not occur. Otherwise it is the position of the first occurrence. |
| Tokens.Contains | src/IdentityModel.AspNetCore.OAuth2Introspection/OAuth2IntrospectionHandler.cs:33 | The test answers true exactly when the character occurs in the token. |
| Handler.SkipsToken | src/IdentityModel.AspNetCore.OAuth2Introspection/OAuth2IntrospectionHandler.cs:28-36 | The handler gives up before introspection exactly when the token is null, is all white space, or contains a dot while SkipTokensWithDots is set. |
| Handler.DottedTokenRule | src/IdentityModel.AspNetCore.OAuth2Introspection/OAuth2IntrospectionHandler.cs:33-43 | With SkipTokensWithDots set, a token containing '.' gives Skip and no request is sent. With the flag cleared, that token is sent for introspection. |
| Handler.IntrospectedExactlyOnce | src/IdentityModel.AspNetCore.OAuth2Introspection/OAuth2IntrospectionHandler.cs:26-43 | A request is sent if and only if the token is present, not blank, and not a dotted token under the skip flag. When one is sent, the run sends exactly that one request, built from the token and the scope credentials. |
| Handler.RequestFor | src/IdentityModel.AspNetCore.OAuth2Introspection/OAuth2IntrospectionHandler.cs:38-43 | The request carries the token unchanged, ScopeName as client id and ScopeSecret as client secret. |
| Handler.OnlyTheSentRequestMatters | src/IdentityModel.AspNetCore.OAuth2Introspection/OAuth2IntrospectionHandler.cs:38-73 | Two endpoints that give the same answer to the requests sent produce the same run. On the Skip paths this means any two endpoints do. |
| Handler.ConsumeResponse | src/IdentityModel.AspNetCore.OAuth2Introspection/OAuth2IntrospectionHandler.cs:45-73 | Once an answer is received the result is never Skip. It is Success exactly when the answer is neither an error nor inactive. An error answer fails with a message that starts with the endpoint-error prefix. |
| Handler.ErrorTakesPrecedence | src/IdentityModel.AspNetCore.OAuth2Introspection/OAuth2IntrospectionHandler.cs:45-48 | An error answer fails with the prefix followed by the error text, which is empty when the text is null. Changing the answer's activity flag or claims does not change that result. |
| Introspection.ErrorText | src/IdentityModel.AspNetCore.OAuth2Introspection/OAuth2IntrospectionHandler.cs:47 | A null error text contributes nothing to the failure message; otherwise the text is appended unchanged. |
| Handler.InactiveFails | src/IdentityModel.AspNetCore.OAuth2Introspection/OAuth2IntrospectionHandler.cs:70-73 | An answer that is neither an error nor active fails with "Token is not active.", whatever claims it holds. |
| Handler.FailuresAreDistinguishable | src/IdentityModel.AspNetCore.OAuth2Introspection/OAuth2IntrospectionHandler.cs:45-73 | An endpoint-error failure never equals an inactive-token failure. |
| Claims.FilterClaims | src/IdentityModel.AspNetCore.OAuth2Introspection/OAuth2IntrospectionHandler.cs:52-54 | No claim of the result is named "active". Every pair not named "active" appears in the result as a claim. The result is no longer than the input. |
| Claims.FilterAppend | src/IdentityModel.AspNetCore.OAuth2Introspection/OAuth2IntrospectionHandler.cs:52-54 | Filtering a concatenation gives the concatenation of the filtered parts. |
| Claims.FilterIsSubsequence | src/IdentityModel.AspNetCore.OAuth2Introspection/OAuth2IntrospectionHandler.cs:52-54 | The filtered claims are an order-preserving subsequence of the converted pairs. |
| Claims.FilterCounts | src/IdentityModel.AspNetCore.OAuth2Introspection/OAuth2IntrospectionHandler.cs:52-54 | A claim not named "active" occurs as many times in the result as in the response. A claim named "active" never occurs. |
| Claims.BuildClaimList | src/IdentityModel.AspNetCore.OAuth2Introspection/OAuth2IntrospectionHandler.cs:52-54 | Building the list pair by pair, as the handler's `List<Claim>` is filled, gives the filtered claims. |
| Handler.ActiveSucceeds | src/IdentityModel.AspNetCore.OAuth2Introspection/OAuth2IntrospectionHandler.cs:50-58 | An active answer that is not an error succeeds. The identity holds the filtered claims and the configured scheme. It carries the configured name and role claim types when they are not empty. Those claims are an order-preserving subsequence of the response's pairs. They keep every pair not named "active", with its multiplicity, and contain none named "active". |
| Handler.TicketFor | src/IdentityModel.AspNetCore.OAuth2Introspection/OAuth2IntrospectionHandler.cs:56-68 | The ticket's identity holds exactly the given claims. The ticket and the identity both carry the configured authentication scheme. The identity's name and role claim types are the configured ones, or the framework defaults when those are empty. With SaveToken set the ticket stores only ("access_token", token); with it cleared it stores nothing. |
| Tickets.NewClaimsIdentity | src/IdentityModel.AspNetCore.OAuth2Introspection/OAuth2IntrospectionHandler.cs:56 | The identity holds exactly the given claims and authentication type. Its name and role claim types are never empty. A non-empty given type is kept unchanged. |
| Handler.ClaimTypesDoNotAffectClaims | src/IdentityModel.AspNetCore.OAuth2Introspection/OAuth2IntrospectionHandler.cs:56-58 | Changing the name or role claim type changes neither whether the handler succeeds nor the identity's claims. On success the identity carries the new types, or the framework defaults for empty ones. |
| Handler.SaveTokenRule | src/IdentityModel.AspNetCore.OAuth2Introspection/OAuth2IntrospectionHandler.cs:60-68 | With SaveToken set, the successful ticket stores exactly one token, "access_token", whose value is the original token, and reading "access_token" back gives that value. With SaveToken cleared, no token is stored. |
| Handler.SaveTokenChangesOnlyProperties | src/IdentityModel.AspNetCore.OAuth2Introspection/OAuth2IntrospectionHandler.cs:60-68 | Turning SaveToken on or off changes neither the requests sent nor the kind of result. It changes nothing of a successful ticket except its stored tokens. |
| Tickets.StoreTokens | src/IdentityModel.AspNetCore.OAuth2Introspection/OAuth2IntrospectionHandler.cs:62-65 | The properties afterwards hold exactly the stored token list, in order and with duplicates. |
| Tickets.StoreThenGet | src/IdentityModel.AspNetCore.OAuth2Introspection/OAuth2IntrospectionHandler.cs:62-65 | After storing a token list, reading a name back gives the value of the last token stored under that name. |
| Handler.ActiveExample | src/IdentityModel.AspNetCore.OAuth2Introspection/OAuth2IntrospectionHandler.cs:24-74 | For the opaque token "opaque-xyz" and any options, an active answer with pairs active, sub and scope gives Success with exactly the claims sub and scope, in that order. |

## Left out

- The ASP.NET Core `AuthenticationHandler` base class, `Context` and the async machinery. The handler is a synchronous pure function.
- `Options.TokenRetriever` is a user-supplied delegate. Its result is an input of `Handler.Authenticate`.
- `IntrospectionClient.SendAsync` is a call into another library. Its internals are not modelled: no HTTP, no JSON parsing, no exception handling. The endpoint is a total function from request to response, and `Run.sent` records how often it is called.
- The internals of `ClaimsIdentity`, `ClaimsPrincipal`, `AuthenticationTicket` and `AuthenticationProperties` are not modelled. Each is a plain record, and the properties hold only their stored tokens.
- Character encoding: Dafny characters are Unicode scalar values, while .NET strings are UTF-16 code units. Every .NET white-space character is a single code unit, so the classification agrees. Surrogate pairs are not modelled.
- Option strings are never null in the model. In .NET a null name or role claim type is also replaced by the default, and a null scope name or secret would be sent as null.
- Response caching, cancellation, transport-error handling and concurrency are not modelled, because the handler's code contains none of them.

/**
 * The records exchanged with the introspection endpoint and the handler's
 * options. `IntrospectionClient.SendAsync` itself is not modelled: the
 * handler receives it as a function from request to response.
 */
module Introspection {
  import opened Wrappers
  import opened Claims

  /** The options the handler reads (the token retriever is left out: its
      result is an input of the handler). */
  datatype IntrospectionOptions = IntrospectionOptions(
    authenticationScheme: string,
    scopeName: string,
    scopeSecret: string,
    nameClaimType: string,
    roleClaimType: string,
    saveToken: bool,
    skipTokensWithDots: bool)

  /** The request sent to the endpoint: the token, and the credentials the
      protected resource authenticates itself with. */
  datatype IntrospectionRequest = IntrospectionRequest(
    token: string,
    clientId: string,
    clientSecret: string)

  /** A parsed endpoint answer. `error` is the (nullable) `Error` text;
      `claims` are the response's (name, value) pairs in document order. */
  datatype IntrospectionResponse = IntrospectionResponse(
    isError: bool,
    error: Option<string>,
    isActive: bool,
    claims: seq<ClaimPair>)

  /** The introspection endpoint as the handler sees it. */
  type Endpoint = IntrospectionRequest -> IntrospectionResponse

  /** C# string concatenation turns a null operand into the empty string. */
  function ErrorText(error: Option<string>): (r: string)
    ensures error.None? ==> r == ""
    ensures error.Some? ==> r == error.value
  {
    error.GetOr("")
  }
}

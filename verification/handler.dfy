/**
 * `OAuth2IntrospectionHandler.HandleAuthenticateAsync` as a pure function.
 * The retrieved token is an input (None stands for null), and the
 * introspection endpoint is a function from request to response; the
 * result records every request sent to it, so that the lemmas can say when
 * the endpoint is, and is not, consulted.
 */
module Handler {
  import opened Wrappers
  import opened Tokens
  import opened Claims
  import opened Introspection
  import opened Tickets

  /** `AuthenticateResult`: exactly one of Skip, Fail or Success. */
  datatype AuthenticateResult =
    | Skip
    | Fail(failure: string)
    | Success(ticket: AuthenticationTicket)

  /** One execution of the handler: its result and the requests it sent. */
  datatype Run = Run(result: AuthenticateResult, sent: seq<IntrospectionRequest>)

  const EndpointErrorPrefix: string := "Error returned from introspection endpoint: "
  const InactiveMessage: string := "Token is not active."
  const AccessTokenName: string := "access_token"

  /** Whether the handler gives up on a token before introspecting it. */
  function SkipsToken(token: Option<string>, options: IntrospectionOptions): (r: bool)
    ensures r <==>
              || token.None?
              || (forall i :: 0 <= i < |token.value| ==> IsWhiteSpace(token.value[i]))
              || (Dot in token.value && options.skipTokensWithDots)
  {
    || IsMissing(token)
    || (Contains(token.value, Dot) && options.skipTokensWithDots)
  }

  /** The request the handler sends for `token`. */
  function RequestFor(token: string, options: IntrospectionOptions): (r: IntrospectionRequest)
    ensures r.token == token
    ensures r.clientId == options.scopeName && r.clientSecret == options.scopeSecret
  {
    IntrospectionRequest(token, options.scopeName, options.scopeSecret)
  }

  /** The ticket built for an active response. */
  function TicketFor(token: string, options: IntrospectionOptions, claims: seq<Claim>): (t: AuthenticationTicket)
    ensures t.principal.identity.claims == claims
    ensures t.authenticationScheme == options.authenticationScheme
    ensures t.principal.identity.authenticationType == options.authenticationScheme
    ensures t.principal.identity.nameClaimType ==
              (if options.nameClaimType == "" then DefaultNameClaimType else options.nameClaimType)
    ensures t.principal.identity.roleClaimType ==
              (if options.roleClaimType == "" then DefaultRoleClaimType else options.roleClaimType)
    ensures options.saveToken ==> t.properties.tokens == [AuthenticationToken(AccessTokenName, token)]
    ensures !options.saveToken ==> t.properties.tokens == []
  {
    var id := NewClaimsIdentity(claims, options.authenticationScheme, options.nameClaimType, options.roleClaimType);
    var ticket := AuthenticationTicket(ClaimsPrincipal(id), EmptyProperties, options.authenticationScheme);
    if options.saveToken then
      ticket.(properties := StoreTokens(ticket.properties, [AuthenticationToken(AccessTokenName, token)]))
    else
      ticket
  }

  /** What the handler makes of the endpoint's answer for `token`. */
  function ConsumeResponse(token: string, options: IntrospectionOptions, response: IntrospectionResponse): (r: AuthenticateResult)
    ensures !r.Skip?
    ensures r.Success? <==> !response.isError && response.isActive
    ensures r.Fail? && response.isError ==>
              |r.failure| >= |EndpointErrorPrefix| && r.failure[..|EndpointErrorPrefix|] == EndpointErrorPrefix
  {
    if response.isError then
      Fail(EndpointErrorPrefix + ErrorText(response.error))
    else if response.isActive then
      Success(TicketFor(token, options, FilterClaims(response.claims)))
    else
      Fail(InactiveMessage)
  }

  /** `HandleAuthenticateAsync`. */
  function Authenticate(token: Option<string>, options: IntrospectionOptions, endpoint: Endpoint): (run: Run)
    ensures run.result.Skip? <==> SkipsToken(token, options)
    ensures run.result.Skip? <==> run.sent == []
    ensures |run.sent| <= 1
    ensures run.sent != [] ==>
              && token.Some?
              && run.sent[0].token == token.value
              && run.sent[0].clientId == options.scopeName
              && run.sent[0].clientSecret == options.scopeSecret
              && run.result == ConsumeResponse(token.value, options, endpoint(run.sent[0]))
  {
    if IsMissing(token) then
      Run(Skip, [])
    else if Contains(token.value, Dot) && options.skipTokensWithDots then
      Run(Skip, [])
    else
      var request := RequestFor(token.value, options);
      Run(ConsumeResponse(token.value, options, endpoint(request)), [request])
  }

  // ---------------------------------------------------------------------
  // Properties of the decision
  // ---------------------------------------------------------------------

  /** A null or blank token is skipped without consulting the endpoint. */
  lemma MissingTokenSkips(token: Option<string>, options: IntrospectionOptions, endpoint: Endpoint)
    requires token.None? || forall i :: 0 <= i < |token.value| ==> IsWhiteSpace(token.value[i])
    ensures Authenticate(token, options, endpoint) == Run(Skip, [])
  {
  }

  /** With `SkipTokensWithDots` set, a token holding a dot is skipped
      without consulting the endpoint; with it cleared, the same token is
      sent for introspection. */
  lemma DottedTokenRule(token: string, options: IntrospectionOptions, endpoint: Endpoint)
    requires Dot in token
    ensures options.skipTokensWithDots ==> Authenticate(Some(token), options, endpoint) == Run(Skip, [])
    ensures !options.skipTokensWithDots ==> Authenticate(Some(token), options, endpoint).sent == [RequestFor(token, options)]
  {
  }

  /** A token is introspected exactly when it is present, not blank, and
      not a dotted token that the options say to skip; it is then sent
      once, unchanged, with the scope name and secret as client
      credentials. */
  lemma IntrospectedExactlyOnce(token: Option<string>, options: IntrospectionOptions, endpoint: Endpoint)
    ensures Authenticate(token, options, endpoint).sent != [] <==>
              && token.Some?
              && !(forall i :: 0 <= i < |token.value| ==> IsWhiteSpace(token.value[i]))
              && !(Dot in token.value && options.skipTokensWithDots)
    ensures Authenticate(token, options, endpoint).sent != [] ==>
              Authenticate(token, options, endpoint).sent ==
                [IntrospectionRequest(token.value, options.scopeName, options.scopeSecret)]
  {
  }

  /** The endpoint's answer to the one request is all that matters: two
      endpoints that agree on it give the same run, and when nothing is
      sent any endpoint gives the same run. */
  lemma OnlyTheSentRequestMatters(token: Option<string>, options: IntrospectionOptions, e1: Endpoint, e2: Endpoint)
    requires forall q :: q in Authenticate(token, options, e1).sent ==> e1(q) == e2(q)
    ensures Authenticate(token, options, e1) == Authenticate(token, options, e2)
  {
  }

  /** An endpoint error fails with the endpoint's error text (nothing after
      the prefix when the text is null), whatever the activity flag and
      claims say, so no identity is built. */
  lemma ErrorTakesPrecedence(token: string, options: IntrospectionOptions, response: IntrospectionResponse)
    requires response.isError
    ensures ConsumeResponse(token, options, response) ==
              Fail(EndpointErrorPrefix + (if response.error.Some? then response.error.value else ""))
    ensures forall active: bool, claims: seq<ClaimPair> ::
              ConsumeResponse(token, options, response.(isActive := active, claims := claims)) ==
              ConsumeResponse(token, options, response)
  {
  }

  /** An inactive answer that is not an error fails with the inactivity
      message, whatever the claims contain. */
  lemma InactiveFails(token: string, options: IntrospectionOptions, response: IntrospectionResponse)
    requires !response.isError && !response.isActive
    ensures ConsumeResponse(token, options, response) == Fail(InactiveMessage)
  {
  }

  /** The two kinds of failure are told apart by their message: the
      inactivity message never carries the endpoint-error prefix. */
  lemma FailuresAreDistinguishable(token: string, options: IntrospectionOptions, r1: IntrospectionResponse, r2: IntrospectionResponse)
    requires r1.isError && !r2.isError && !r2.isActive
    ensures ConsumeResponse(token, options, r1) != ConsumeResponse(token, options, r2)
  {
  }

  /** An active, non-error answer succeeds with an identity whose claims
      are the response's pairs without the "active" ones, in their order,
      and which carries the configured scheme, name and role claim types
      (the framework's defaults for empty ones). */
  lemma ActiveSucceeds(token: string, options: IntrospectionOptions, response: IntrospectionResponse)
    requires !response.isError && response.isActive
    ensures var r := ConsumeResponse(token, options, response);
      && r.Success?
      && r.ticket.principal.identity ==
           NewClaimsIdentity(FilterClaims(response.claims), options.authenticationScheme,
                             options.nameClaimType, options.roleClaimType)
      && r.ticket.principal.identity.claims == FilterClaims(response.claims)
      && r.ticket.principal.identity.authenticationType == options.authenticationScheme
      && (options.nameClaimType != "" ==> r.ticket.principal.identity.nameClaimType == options.nameClaimType)
      && (options.roleClaimType != "" ==> r.ticket.principal.identity.roleClaimType == options.roleClaimType)
      && r.ticket.authenticationScheme == options.authenticationScheme
      && IsSubsequence(r.ticket.principal.identity.claims, AsClaims(response.claims))
      && (forall c: Claim :: c.claimType != ActiveClaimType ==>
            multiset(r.ticket.principal.identity.claims)[c] == multiset(AsClaims(response.claims))[c])
      && (forall c: Claim :: c in r.ticket.principal.identity.claims ==> c.claimType != ActiveClaimType)
  {
    FilterIsSubsequence(response.claims);
    forall c: Claim
      ensures c.claimType != ActiveClaimType ==>
                multiset(FilterClaims(response.claims))[c] == multiset(AsClaims(response.claims))[c]
    {
      FilterCounts(response.claims, c);
    }
  }

  /** The name and role claim types label the identity (an empty one is
      replaced by the framework's default) but change neither its claims
      nor whether the handler succeeds. */
  lemma ClaimTypesDoNotAffectClaims(token: Option<string>, options: IntrospectionOptions, endpoint: Endpoint, nameType: string, roleType: string)
    ensures var r1 := Authenticate(token, options, endpoint).result;
            var r2 := Authenticate(token, options.(nameClaimType := nameType, roleClaimType := roleType), endpoint).result;
      && (r1.Success? <==> r2.Success?)
      && (r1.Success? ==> r1.ticket.principal.identity.claims == r2.ticket.principal.identity.claims)
      && (r2.Success? ==>
            && r2.ticket.principal.identity.nameClaimType == (if nameType == "" then DefaultNameClaimType else nameType)
            && r2.ticket.principal.identity.roleClaimType == (if roleType == "" then DefaultRoleClaimType else roleType))
  {
  }

  /** With `SaveToken` set a successful ticket stores exactly one token,
      "access_token", holding the original token; with it cleared it
      stores none. */
  lemma SaveTokenRule(token: Option<string>, options: IntrospectionOptions, endpoint: Endpoint)
    requires Authenticate(token, options, endpoint).result.Success?
    ensures var props := Authenticate(token, options, endpoint).result.ticket.properties;
      && (options.saveToken ==> props.tokens == [AuthenticationToken(AccessTokenName, token.value)])
      && (options.saveToken ==> GetTokenValue(props, AccessTokenName) == Some(token.value))
      && (!options.saveToken ==> props.tokens == [])
      && (!options.saveToken ==> GetTokenValue(props, AccessTokenName).None?)
  {
  }

  /** Turning `SaveToken` on or off changes only the stored tokens. */
  lemma SaveTokenChangesOnlyProperties(token: Option<string>, options: IntrospectionOptions, endpoint: Endpoint)
    ensures var r1 := Authenticate(token, options.(saveToken := true), endpoint);
            var r2 := Authenticate(token, options.(saveToken := false), endpoint);
      && r1.sent == r2.sent
      && (r1.result.Success? <==> r2.result.Success?)
      && (!r1.result.Success? ==> r1.result == r2.result)
      && (r1.result.Success? ==>
            r1.result.ticket.(properties := EmptyProperties) == r2.result.ticket)
  {
  }

  /** The worked example: an active answer for an opaque token. */
  lemma ActiveExample(options: IntrospectionOptions, endpoint: Endpoint)
    requires endpoint(RequestFor("opaque-xyz", options)) ==
               IntrospectionResponse(false, None, true, [("active", "true"), ("sub", "u1"), ("scope", "api1 api2")])
    ensures Authenticate(Some("opaque-xyz"), options, endpoint).result.Success?
    ensures Authenticate(Some("opaque-xyz"), options, endpoint).result.ticket.principal.identity.claims ==
              [Claim("sub", "u1"), Claim("scope", "api1 api2")]
  {
    var token := "opaque-xyz";
    var pairs: seq<ClaimPair> := [("active", "true"), ("sub", "u1"), ("scope", "api1 api2")];
    assert Dot !in token by {
      forall i | 0 <= i < |token| ensures token[i] != Dot { }
    }
    assert !IsWhiteSpace(token[0]);
    assert pairs[1..][1..][1..] == [];
    assert FilterClaims(pairs[1..][1..]) == [Claim("scope", "api1 api2")];
    assert FilterClaims(pairs[1..]) == [Claim("sub", "u1"), Claim("scope", "api1 api2")];
    assert FilterClaims(pairs) == FilterClaims(pairs[1..]);
  }
}

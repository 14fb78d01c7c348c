/**
 * Plain records for the framework types the handler builds on success:
 * the claims identity, the principal, the ticket and its properties, with the
 * `StoreTokens` / `GetTokenValue` pair on the properties.
 */
module Tickets {
  import opened Wrappers
  import opened Claims

  datatype ClaimsIdentity = ClaimsIdentity(
    claims: seq<Claim>,
    authenticationType: string,
    nameClaimType: string,
    roleClaimType: string)

  /** `ClaimsIdentity.DefaultNameClaimType` (`ClaimTypes.Name`). */
  const DefaultNameClaimType: string := "http://schemas.xmlsoap.org/ws/2005/05/identity/claims/name"

  /** `ClaimsIdentity.DefaultRoleClaimType` (`ClaimTypes.Role`). */
  const DefaultRoleClaimType: string := "http://schemas.microsoft.com/ws/2008/06/identity/claims/role"

  /** The constructor `ClaimsIdentity(claims, authenticationType, nameType, roleType)`:
      an empty name or role type is replaced by the framework's default. */
  function NewClaimsIdentity(claims: seq<Claim>, authenticationType: string, nameType: string, roleType: string): (id: ClaimsIdentity)
    ensures id.claims == claims
    ensures id.authenticationType == authenticationType
    ensures id.nameClaimType != "" && id.roleClaimType != ""
    ensures nameType != "" ==> id.nameClaimType == nameType
    ensures roleType != "" ==> id.roleClaimType == roleType
  {
    ClaimsIdentity(
      claims,
      authenticationType,
      if nameType == "" then DefaultNameClaimType else nameType,
      if roleType == "" then DefaultRoleClaimType else roleType)
  }

  datatype ClaimsPrincipal = ClaimsPrincipal(identity: ClaimsIdentity)

  datatype AuthenticationToken = AuthenticationToken(name: string, value: string)

  /** Authentication properties, reduced to the tokens stored in them. */
  datatype AuthenticationProperties = AuthenticationProperties(tokens: seq<AuthenticationToken>)

  datatype AuthenticationTicket = AuthenticationTicket(
    principal: ClaimsPrincipal,
    properties: AuthenticationProperties,
    authenticationScheme: string)

  /** A fresh `AuthenticationProperties()`: no tokens stored. */
  const EmptyProperties := AuthenticationProperties([])

  /** `StoreTokens` replaces whatever tokens the properties held. */
  function StoreTokens(props: AuthenticationProperties, tokens: seq<AuthenticationToken>): (r: AuthenticationProperties)
    ensures r.tokens == tokens
  {
    props.(tokens := tokens)
  }

  /** `GetTokenValue`: the value of the last stored token with that name
      (a later token overwrites an earlier one of the same name). */
  function GetTokenValue(props: AuthenticationProperties, name: string): (r: Option<string>)
    ensures r.None? <==> forall i :: 0 <= i < |props.tokens| ==> props.tokens[i].name != name
    ensures r.Some? ==> AuthenticationToken(name, r.value) in props.tokens
    decreases |props.tokens|
  {
    var ts := props.tokens;
    if ts == [] then None
    else if ts[|ts| - 1].name == name then Some(ts[|ts| - 1].value)
    else
      var r := GetTokenValue(AuthenticationProperties(ts[..|ts| - 1]), name);
      assert forall i :: 0 <= i < |ts| - 1 ==> ts[..|ts| - 1][i] == ts[i];
      r
  }

  /** Storing a list of tokens and reading one back by name yields the
      value of the last token stored under that name. */
  lemma {:induction false} StoreThenGet(props: AuthenticationProperties, tokens: seq<AuthenticationToken>, i: nat)
    requires i < |tokens|
    requires forall j :: i < j < |tokens| ==> tokens[j].name != tokens[i].name
    ensures GetTokenValue(StoreTokens(props, tokens), tokens[i].name) == Some(tokens[i].value)
    decreases |tokens|
  {
    if i < |tokens| - 1 {
      var shorter := tokens[..|tokens| - 1];
      StoreThenGet(props, shorter, i);
      assert StoreTokens(props, tokens).tokens[..|tokens| - 1] == StoreTokens(props, shorter).tokens;
    }
  }
}

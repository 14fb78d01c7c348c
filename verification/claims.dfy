/**
 * Turning the introspection response's claim pairs into identity claims:
 * every pair named "active" is dropped (it is protocol metadata, defined in
 * section 2.2 of RFC 7662), every other pair becomes a claim, in order.
 */
module Claims {

  /** The name of the introspection member that says whether the token is active. */
  const ActiveClaimType: string := "active"

  /** A claim of the resulting identity: a type (name) and a value. */
  datatype Claim = Claim(claimType: string, value: string)

  /** A claim as the introspection response reports it: (Item1, Item2). */
  type ClaimPair = (string, string)

  function AsClaim(p: ClaimPair): Claim {
    Claim(p.0, p.1)
  }

  /** Every pair converted to a claim, with nothing dropped. */
  function AsClaims(pairs: seq<ClaimPair>): (r: seq<Claim>)
    ensures |r| == |pairs|
    ensures forall i :: 0 <= i < |pairs| ==> r[i] == AsClaim(pairs[i])
  {
    if pairs == [] then [] else [AsClaim(pairs[0])] + AsClaims(pairs[1..])
  }

  /** The `Where(c => c.Item1 != "active")` test. */
  predicate Kept(p: ClaimPair) {
    p.0 != ActiveClaimType
  }

  /** `Where(c => c.Item1 != "active").Select(c => new Claim(c.Item1, c.Item2))`. */
  function FilterClaims(pairs: seq<ClaimPair>): (r: seq<Claim>)
    ensures |r| <= |pairs|
    ensures forall i :: 0 <= i < |r| ==> r[i].claimType != ActiveClaimType
    ensures forall i :: 0 <= i < |pairs| && Kept(pairs[i]) ==> AsClaim(pairs[i]) in r
  {
    if pairs == [] then []
    else
      var rest := FilterClaims(pairs[1..]);
      assert forall i :: 1 <= i < |pairs| ==> pairs[i] == pairs[1..][i - 1];
      if Kept(pairs[0]) then [AsClaim(pairs[0])] + rest else rest
  }

  /** `sub` is obtained from `s` by deleting elements, keeping the order of the rest. */
  predicate IsSubsequence(sub: seq<Claim>, s: seq<Claim>)
    decreases |s|
  {
    || sub == []
    || (&& s != []
        && (|| (sub[0] == s[0] && IsSubsequence(sub[1..], s[1..]))
            || IsSubsequence(sub, s[1..])))
  }

  /** Filtering distributes over concatenation: the claims built from a
      response are the claims built from any prefix followed by those built
      from the matching suffix. */
  lemma {:induction false} FilterAppend(a: seq<ClaimPair>, b: seq<ClaimPair>)
    ensures FilterClaims(a + b) == FilterClaims(a) + FilterClaims(b)
  {
    if a == [] {
      assert a + b == b;
    } else {
      assert (a + b)[1..] == a[1..] + b;
      FilterAppend(a[1..], b);
    }
  }

  /** Filtering keeps the response's order: the built claims are a
      subsequence of the converted pairs. */
  lemma {:induction false} FilterIsSubsequence(pairs: seq<ClaimPair>)
    ensures IsSubsequence(FilterClaims(pairs), AsClaims(pairs))
  {
    if pairs != [] {
      var s := AsClaims(pairs);
      assert s[1..] == AsClaims(pairs[1..]);
      FilterIsSubsequence(pairs[1..]);
      if Kept(pairs[0]) {
        assert FilterClaims(pairs)[1..] == FilterClaims(pairs[1..]);
      }
    }
  }

  /** Filtering drops exactly the "active" pairs: a claim of any other type
      occurs as often in the result as in the response, an "active" claim
      never occurs. */
  lemma {:induction false} FilterCounts(pairs: seq<ClaimPair>, c: Claim)
    ensures c.claimType != ActiveClaimType ==>
              multiset(FilterClaims(pairs))[c] == multiset(AsClaims(pairs))[c]
    ensures c.claimType == ActiveClaimType ==> multiset(FilterClaims(pairs))[c] == 0
  {
    if pairs != [] {
      FilterCounts(pairs[1..], c);
      assert AsClaims(pairs) == [AsClaim(pairs[0])] + AsClaims(pairs[1..]);
      if Kept(pairs[0]) {
        assert FilterClaims(pairs) == [AsClaim(pairs[0])] + FilterClaims(pairs[1..]);
      }
    }
  }

  /** Builds the claim list pair by pair, as the handler fills its
      `List<Claim>` from the LINQ query. */
  method BuildClaimList(pairs: seq<ClaimPair>) returns (claims: seq<Claim>)
    ensures claims == FilterClaims(pairs)
  {
    claims := [];
    var i := 0;
    while i < |pairs|
      invariant 0 <= i <= |pairs|
      invariant claims == FilterClaims(pairs[..i])
    {
      FilterAppend(pairs[..i], [pairs[i]]);
      assert pairs[..i + 1] == pairs[..i] + [pairs[i]];
      if pairs[i].0 != ActiveClaimType {
        claims := claims + [Claim(pairs[i].0, pairs[i].1)];
      }
      i := i + 1;
    }
    assert pairs[..i] == pairs;
  }
}

/** The request authorizer: a `Bearer ` token is checked against the
    identity provider's published keys and turned into an Allow policy that
    carries the tenant context; anything that goes wrong is a Deny. Fetching
    the key set, decoding the token header and verifying the signature are
    outside inputs. */
module Authorizer {
  import opened Values

  /** The outcome of the kid lookup in the key set. */
  datatype KeyLookup = Found(key: Value) | NoKey | LookupRaised

  /** The loop of `get_public_key` over the remaining keys: the first key
      whose `kid` equals the header's `kid`; a key or a header without `kid`
      raises. */
  function FirstMatchingKey(keys: seq<Value>, header: Value): KeyLookup {
    if keys == [] then NoKey
    else if !(keys[0].Obj? && "kid" in keys[0].fields) then LookupRaised
    else if !(header.Obj? && "kid" in header.fields) then LookupRaised
    else if keys[0].fields["kid"] == header.fields["kid"] then Found(keys[0])
    else FirstMatchingKey(keys[1..], header)
  }

  /** `jwks['keys']` and the loop over it. */
  function KeyOfHeader(jwks: Value, header: Value): KeyLookup {
    if !(jwks.Obj? && "keys" in jwks.fields) then LookupRaised
    else
      match ElementsForLookup(jwks.fields["keys"])
      case None => LookupRaised
      case Some(keys) => FirstMatchingKey(keys, header)
  }

  predicate HasKid(v: Value) {
    v.Obj? && "kid" in v.fields
  }

  /** The lookup finds `keys[i]` exactly when every earlier key has a `kid`
      different from the header's and `keys[i]` has the header's `kid`; it
      finds nothing exactly when every key has a `kid`, none equal to the
      header's (which must have one unless there are no keys). */
  lemma {:induction false} FirstMatchingKeyMeaning(keys: seq<Value>, header: Value)
    ensures FirstMatchingKey(keys, header).Found? <==>
      exists i :: 0 <= i < |keys| && HasKid(header) && HasKid(keys[i]) &&
        keys[i].fields["kid"] == header.fields["kid"] &&
        forall j :: 0 <= j < i ==> HasKid(keys[j]) && keys[j].fields["kid"] != header.fields["kid"]
    ensures FirstMatchingKey(keys, header).Found? ==>
      var k := FirstMatchingKey(keys, header).key;
      k in keys && HasKid(k) && HasKid(header) && k.fields["kid"] == header.fields["kid"]
    ensures FirstMatchingKey(keys, header) == NoKey <==>
      (keys == [] || HasKid(header)) &&
      forall j :: 0 <= j < |keys| ==> HasKid(keys[j]) && keys[j].fields["kid"] != header.fields["kid"]
    decreases |keys|
  {
    if keys != [] {
      FirstMatchingKeyMeaning(keys[1..], header);
      assert forall j :: 0 < j < |keys| ==> keys[j] == keys[1..][j - 1];
      if HasKid(keys[0]) && HasKid(header) && keys[0].fields["kid"] != header.fields["kid"] {
        if FirstMatchingKey(keys[1..], header).Found? {
          var i :| 0 <= i < |keys[1..]| && HasKid(header) && HasKid(keys[1..][i]) &&
            keys[1..][i].fields["kid"] == header.fields["kid"] &&
            forall j :: 0 <= j < i ==> HasKid(keys[1..][j]) && keys[1..][j].fields["kid"] != header.fields["kid"];
          assert keys[i + 1] == keys[1..][i];
        }
      }
    }
  }

  /** `get_public_key`'s search loop. */
  method FindPublicKey(jwks: Value, header: Value) returns (r: KeyLookup)
    ensures r == KeyOfHeader(jwks, header)
  {
    if !(jwks.Obj? && "keys" in jwks.fields) {
      return LookupRaised;
    }
    var elements := ElementsForLookup(jwks.fields["keys"]);
    if elements.None? {
      return LookupRaised;
    }
    var keys := elements.value;
    var i := 0;
    while i < |keys|
      invariant 0 <= i <= |keys|
      invariant FirstMatchingKey(keys, header) == FirstMatchingKey(keys[i..], header)
    {
      assert keys[i..][1..] == keys[i + 1..];
      var key := keys[i];
      if !(key.Obj? && "kid" in key.fields) || !(header.Obj? && "kid" in header.fields) {
        return LookupRaised;
      }
      if key.fields["kid"] == header.fields["kid"] {
        return Found(key);
      }
      i := i + 1;
    }
    r := NoKey;
  }

  const DefaultTenant := "karachi-tech"

  /** `extract_tenant_context`: tenant from `custom:tenant_id` (a fixed
      tenant by default), user from `sub`, email (empty by default), and the
      role: the `Administrators` group gives ADMIN, otherwise the `Members`
      group gives MEMBER, otherwise the `custom:role` claim, otherwise
      MEMBER. A `cognito:groups` claim that `in` cannot search raises
      (`None`). */
  function TenantContext(claims: Record): (r: Option<Record>)
    ensures r.Some? ==> r.value.Keys == {"tenant_id", "user_id", "email", "role"}
    ensures r.None? <==> In("Administrators", Get(claims, "cognito:groups", List([]))).None?
  {
    var groups := Get(claims, "cognito:groups", List([]));
    match In("Administrators", groups)
    case None => None
    case Some(admin) =>
      var role :=
        if admin then Str("ADMIN")
        else if In("Members", groups) == Some(true) then Str("MEMBER")
        else Get(claims, "custom:role", Str("MEMBER"));
      Some(map[
        "tenant_id" := Get(claims, "custom:tenant_id", Str(DefaultTenant)),
        "user_id" := Get(claims, "sub", Null),
        "email" := Get(claims, "email", Str("")),
        "role" := role])
  }

  /** Group membership outranks the role claim: Administrators always gives
      ADMIN, Members without Administrators always gives MEMBER (whatever the
      role claim says), and ADMIN is only ever granted by the group or by the
      role claim; with neither group the role claim, whatever it says, is the
      role. Tenant, user and email are the claims of those names, tenant and
      email falling back to their defaults. */
  lemma RolePrecedence(claims: Record)
    requires TenantContext(claims).Some?
    ensures var ctx := TenantContext(claims).value;
      var groups := Get(claims, "cognito:groups", List([]));
      && ctx.Keys == {"tenant_id", "user_id", "email", "role"}
      && (In("Administrators", groups) == Some(true) ==> ctx["role"] == Str("ADMIN"))
      && (In("Administrators", groups) == Some(false) && In("Members", groups) == Some(true) ==> ctx["role"] == Str("MEMBER"))
      && (ctx["role"] == Str("ADMIN") <==>
            In("Administrators", groups) == Some(true) ||
            (In("Members", groups) == Some(false) && Get(claims, "custom:role", Str("MEMBER")) == Str("ADMIN")))
      && (In("Administrators", groups) == Some(false) && In("Members", groups) == Some(false) ==>
            ctx["role"] == Get(claims, "custom:role", Str("MEMBER")))
      && ctx["user_id"] == Get(claims, "sub", Null)
      && ctx["tenant_id"] == Get(claims, "custom:tenant_id", Str(DefaultTenant))
      && ctx["email"] == Get(claims, "email", Str(""))
      && ("custom:tenant_id" !in claims ==> ctx["tenant_id"] == Str(DefaultTenant))
      && ("email" !in claims ==> ctx["email"] == Str(""))
      && ("cognito:groups" !in claims && "custom:role" !in claims ==> ctx["role"] == Str("MEMBER"))
  {
  }

  /** The policy document API Gateway receives. */
  datatype Policy = Policy(principalId: Value, version: string, action: string, effect: string,
                           resource: Value, context: Option<Record>)

  /** `generate_policy`: one statement allowing or denying `execute-api:Invoke`
      on the resource; the principal is the context's `user_id` and the
      context is attached only when a non-empty context is given. */
  function GeneratePolicy(effect: string, resource: Value, context: Option<Record>): (p: Policy)
    ensures p.action == "execute-api:Invoke" && p.version == "2012-10-17"
    ensures p.effect == effect && p.resource == resource
    ensures p.context.Some? <==> context.Some? && context.value != map[]
    ensures p.context.Some? ==> p.context == context
  {
    var given := context.Some? && context.value != map[];
    Policy(if given then Get(context.value, "user_id", Str("unknown")) else Str("unknown"),
           "2012-10-17", "execute-api:Invoke", effect, resource,
           if given then context else None)
  }

  /** The outside inputs: the key set fetch (`None` when the request
      fails), the unverified header decoding and the signature check of the
      token against the matched key (`None` when they raise). */
  datatype Oracles = Oracles(jwks: Option<Value>, header: string -> Option<Value>,
                             verify: (string, Value) -> Option<Record>)

  /** The token the handler verifies: the header value with every
      `Bearer ` removed; `None` when the header is not a string starting with
      `Bearer ` (checked case-sensitively). */
  function BearerToken(event: Record): Option<string> {
    var auth := Get(event, "authorizationToken", Str(""));
    if auth.Str? && StartsWith(auth.s, "Bearer ") then Some(Replace(auth.s, "Bearer ", "")) else None
  }

  /** The claims `verify_token` returns, or `None` when any step raises. */
  function VerifiedClaims(token: string, o: Oracles): Option<Record> {
    match o.header(token)
    case None => None
    case Some(header) =>
      match o.jwks
      case None => None
      case Some(jwks) =>
        match KeyOfHeader(jwks, header)
        case Found(key) => o.verify(token, key)
        case _ => None
  }

  /** The handler's answer: a policy, or the KeyError for a missing
      `methodArn`, which escapes even the handler's own `except` branches. */
  datatype Decision = Decided(policy: Policy) | Unhandled

  /** The handler's decision. */
  function Authorize(event: Record, o: Oracles): Decision {
    if "methodArn" !in event then Unhandled
    else
      var deny := Decided(GeneratePolicy("Deny", event["methodArn"], None));
      match BearerToken(event)
      case None => deny
      case Some(token) =>
        match VerifiedClaims(token, o)
        case None => deny
        case Some(claims) =>
          match TenantContext(claims)
          case None => deny
          case Some(ctx) => Decided(GeneratePolicy("Allow", event["methodArn"], Some(ctx)))
  }

  /** `handler`: the `Bearer ` check, verification, context extraction and
      policy, every failure turned into a Deny. */
  method Handler(event: Record, o: Oracles) returns (d: Decision)
    ensures d == Authorize(event, o)
  {
    if "methodArn" !in event {
      return Unhandled;
    }
    var resource := event["methodArn"];
    var token := BearerToken(event);
    if token.None? {
      return Decided(GeneratePolicy("Deny", resource, None));
    }
    var header := o.header(token.value);
    if header.None? || o.jwks.None? {
      return Decided(GeneratePolicy("Deny", resource, None));
    }
    var key := FindPublicKey(o.jwks.value, header.value);
    if !key.Found? {
      return Decided(GeneratePolicy("Deny", resource, None));
    }
    var claims := o.verify(token.value, key.key);
    if claims.None? {
      return Decided(GeneratePolicy("Deny", resource, None));
    }
    var ctx := TenantContext(claims.value);
    if ctx.None? {
      return Decided(GeneratePolicy("Deny", resource, None));
    }
    d := Decided(GeneratePolicy("Allow", resource, ctx));
  }

  /** Every decision is a single-statement `execute-api:Invoke` policy on the
      requested resource. A Deny carries no context and the principal
      `unknown`. An Allow is only ever given for a `Bearer ` token whose
      header names a published key and whose signature that key verifies;
      it carries the context taken from the verified claims, and its
      principal is that context's user. */
  lemma DecisionShape(event: Record, o: Oracles)
    requires Authorize(event, o).Decided?
    ensures var p := Authorize(event, o).policy;
      && "methodArn" in event && p.resource == event["methodArn"] && p.action == "execute-api:Invoke"
      && (p.effect == "Allow" || p.effect == "Deny")
      && (p.effect == "Deny" ==> p.context.None? && p.principalId == Str("unknown"))
      && (p.effect == "Allow" ==>
            && BearerToken(event).Some?
            && o.jwks.Some? && o.header(BearerToken(event).value).Some?
            && KeyOfHeader(o.jwks.value, o.header(BearerToken(event).value).value).Found?
            && VerifiedClaims(BearerToken(event).value, o).Some?
            && p.context == TenantContext(VerifiedClaims(BearerToken(event).value, o).value)
            && p.context.Some? && p.principalId == p.context.value["user_id"])
  {
    var token := BearerToken(event);
    if token.Some? && VerifiedClaims(token.value, o).Some? {
      var ctx := TenantContext(VerifiedClaims(token.value, o).value);
      if ctx.Some? {
        assert "user_id" in ctx.value;
      }
    }
  }

  /** The converse of the Allow clause above: a `Bearer ` token whose claims
      verify against a published key, and whose groups claim supports `in`,
      is allowed with the context of those claims. */
  lemma VerifiedTokenAllowed(event: Record, o: Oracles)
    requires "methodArn" in event && BearerToken(event).Some?
    requires VerifiedClaims(BearerToken(event).value, o).Some?
    requires TenantContext(VerifiedClaims(BearerToken(event).value, o).value).Some?
    ensures Authorize(event, o) ==
      Decided(GeneratePolicy("Allow", event["methodArn"], TenantContext(VerifiedClaims(BearerToken(event).value, o).value)))
    ensures Authorize(event, o).policy.effect == "Allow"
  {
  }

  /** A header that is not a string starting with `Bearer ` is denied, and
      an absent `methodArn` is never answered with a policy. */
  lemma MalformedHeaderDenied(event: Record, o: Oracles)
    ensures "methodArn" !in event <==> Authorize(event, o) == Unhandled
    ensures "methodArn" in event && BearerToken(event).None? ==>
      Authorize(event, o).policy.effect == "Deny"
  {
  }

  /** `Bearer <token>` hands the verifier exactly `<token>` when the token
      does not itself contain `Bearer `. */
  lemma BearerPrefixStripped(token: string)
    requires !Contains(token, "Bearer ")
    ensures BearerToken(map["authorizationToken" := Str("Bearer " + token)]) == Some(token)
  {
    var h := "Bearer " + token;
    assert StartsWith(h, "Bearer ") by {
      assert h[..7] == "Bearer ";
    }
    assert h[|"Bearer "|..] == token;
    ReplaceAbsent(token, "Bearer ", "");
    assert Replace(h, "Bearer ", "") == "" + Replace(token, "Bearer ", "");
    var event := map["authorizationToken" := Str(h)];
    assert Get(event, "authorizationToken", Str("")) == Str(h);
    assert Replace(h, "Bearer ", "") == token;
    assert BearerToken(event) == Some(token);
  }
}

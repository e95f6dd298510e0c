/** The workspace service (src/services/workspace.service.ts). */
module WorkspaceService {
  import opened Wrappers
  import opened Http

  /** Every method of the service takes 200 and 201 and throws the message otherwise. */
  function WorkspaceResult<D>(response: Response<D>): (r: Result<D, string>)
    ensures r.Success? <==> response.status == 200 || response.status == 201
    ensures r.Success? ==> r.value == response.data
    ensures r.Failure? ==> r.error == response.message
  {
    Accept(response, {200, 201})
  }

  /** The path of `getWorkSpaceSocials`: the workspace id between `/workspaces/` and
      `/social-profiles`. */
  function SocialsPath(workspaceId: string): (path: string)
    ensures |path| == |workspaceId| + 28
    ensures path[..12] == "/workspaces/" && path[12..12 + |workspaceId|] == workspaceId
    ensures path[12 + |workspaceId|..] == "/social-profiles"
  {
    "/workspaces/" + workspaceId + "/social-profiles"
  }

  /** Distinct workspaces are asked for through distinct paths. */
  lemma SocialsPathInjective(a: string, b: string)
    requires SocialsPath(a) == SocialsPath(b)
    ensures a == b
  {
    assert |a| == |b|;
    assert a == SocialsPath(a)[12..12 + |a|];
  }

  // ---------------------------------------------------------------------------
  // connectSocialAccount

  /** The query of `connectSocialAccount`: both names are always set, platform first. */
  function AuthQuery(platform: string, organizationId: string): Pairs {
    [("platform", platform), ("organizationId", organizationId)]
  }

  /** The path of `connectSocialAccount`. */
  method AuthUrlPath(platform: string, organizationId: string) returns (path: string)
    ensures path == "/social-connections/auth-url?" + Render(AuthQuery(platform, organizationId))
  {
    var queries := new SearchParams();
    queries.Set("platform", platform);
    assert queries.pairs == [("platform", platform)];
    SetParamAbsent(queries.pairs, "organizationId", organizationId);
    queries.Set("organizationId", organizationId);
    path := "/social-connections/auth-url?" + queries.ToString();
  }

  /** The auth-url query reads `platform=<platform>&organizationId=<id>`. */
  lemma AuthQueryText(platform: string, organizationId: string)
    ensures Render(AuthQuery(platform, organizationId))
      == "platform=" + platform + "&organizationId=" + organizationId
  {
    var q := AuthQuery(platform, organizationId);
    assert q[1..] == [("organizationId", organizationId)];
    assert Render(q[1..]) == "organizationId" + "=" + organizationId;
    assert Render(q) == "platform" + "=" + platform + "&" + Render(q[1..]);
  }

  // ---------------------------------------------------------------------------
  // connectedSocialsVerification

  /** The OAuth parameters handed to `connectedSocialsVerification`; absent ones are `None`. */
  datatype CallbackData = CallbackData(
    code: Option<string>,
    state: Option<string>,
    oauthToken: Option<string>,
    oauthVerifier: Option<string>)

  /** JavaScript truthiness of an optional string. */
  predicate Given(s: Option<string>) {
    s.Some? && s.value != ""
  }

  /** The query from the four guarded `set` calls, with g1..g4 whether each is given. */
  function CallbackPairs(g1: bool, v1: string, g2: bool, v2: string, g3: bool, v3: string,
                         g4: bool, v4: string): Pairs
  {
    AddIf(AddIf(AddIf(AddIf([], g1, "code", v1), g2, "state", v2), g3, "oauth_token", v3),
      g4, "oauth_verifier", v4)
  }

  function VerificationQuery(d: CallbackData): Pairs {
    CallbackPairs(Given(d.code), d.code.GetOr(""), Given(d.state), d.state.GetOr(""),
      Given(d.oauthToken), d.oauthToken.GetOr(""), Given(d.oauthVerifier), d.oauthVerifier.GetOr(""))
  }

  /** The path of `connectedSocialsVerification`: the platform, then the query after `?`. */
  method VerificationPath(platform: string, d: CallbackData) returns (path: string)
    ensures path == "/social-connections/callback/" + platform + "?" + Render(VerificationQuery(d))
  {
    var queries := new SearchParams();
    var code := d.code.GetOr("");
    var state := d.state.GetOr("");
    var token := d.oauthToken.GetOr("");
    var verifier := d.oauthVerifier.GetOr("");
    CallbackKeys(Given(d.code), code, Given(d.state), state, Given(d.oauthToken), token,
      Given(d.oauthVerifier), verifier);
    queries.SetIf(Given(d.code), "code", code);
    queries.SetIf(Given(d.state), "state", state);
    queries.SetIf(Given(d.oauthToken), "oauth_token", token);
    queries.SetIf(Given(d.oauthVerifier), "oauth_verifier", verifier);
    path := "/social-connections/callback/" + platform + "?" + queries.ToString();
  }

  /** The names of the query grow in the order code, state, oauth_token, oauth_verifier,
      each when given, so every guarded `set` meets a new name. */
  lemma CallbackKeys(g1: bool, v1: string, g2: bool, v2: string, g3: bool, v3: string,
                     g4: bool, v4: string)
    ensures var q1 := AddIf([], g1, "code", v1);
      var q2 := AddIf(q1, g2, "state", v2);
      var q3 := AddIf(q2, g3, "oauth_token", v3);
      && Keys(q1) == (if g1 then ["code"] else [])
      && Keys(q2) == Keys(q1) + (if g2 then ["state"] else [])
      && Keys(q3) == Keys(q2) + (if g3 then ["oauth_token"] else [])
      && Keys(CallbackPairs(g1, v1, g2, v2, g3, v3, g4, v4)) == Keys(q3) + (if g4 then ["oauth_verifier"] else [])
      && "code" !in Keys([]) && "state" !in Keys(q1) && "oauth_token" !in Keys(q2)
      && "oauth_verifier" !in Keys(q3)
  {
    var q1 := AddIf([], g1, "code", v1);
    var q2 := AddIf(q1, g2, "state", v2);
    var q3 := AddIf(q2, g3, "oauth_token", v3);
    KeysAddIf([], g1, "code", v1);
    KeysAddIf(q1, g2, "state", v2);
    KeysAddIf(q2, g3, "oauth_token", v3);
    KeysAddIf(q3, g4, "oauth_verifier", v4);
  }

  /** The names sent are the given parameters, in the order code, state, oauth_token,
      oauth_verifier. */
  lemma VerificationQueryKeys(d: CallbackData)
    ensures Keys(VerificationQuery(d)) ==
      (if Given(d.code) then ["code"] else [])
      + (if Given(d.state) then ["state"] else [])
      + (if Given(d.oauthToken) then ["oauth_token"] else [])
      + (if Given(d.oauthVerifier) then ["oauth_verifier"] else [])
  {
    CallbackKeys(Given(d.code), d.code.GetOr(""), Given(d.state), d.state.GetOr(""),
      Given(d.oauthToken), d.oauthToken.GetOr(""), Given(d.oauthVerifier), d.oauthVerifier.GetOr(""));
  }

  lemma CallbackLookup(g1: bool, v1: string, g2: bool, v2: string, g3: bool, v3: string,
                       g4: bool, v4: string, j: string)
    ensures Lookup(CallbackPairs(g1, v1, g2, v2, g3, v3, g4, v4), j) ==
      if g4 && j == "oauth_verifier" then Some(v4)
      else if g3 && j == "oauth_token" then Some(v3)
      else if g2 && j == "state" then Some(v2)
      else if g1 && j == "code" then Some(v1)
      else None
  {
    var q1 := AddIf([], g1, "code", v1);
    var q2 := AddIf(q1, g2, "state", v2);
    var q3 := AddIf(q2, g3, "oauth_token", v3);
    CallbackKeys(g1, v1, g2, v2, g3, v3, g4, v4);
    LookupAddIf([], g1, "code", v1, j);
    LookupAddIf(q1, g2, "state", v2, j);
    LookupAddIf(q2, g3, "oauth_token", v3, j);
    LookupAddIf(q3, g4, "oauth_verifier", v4, j);
  }

  /** A non-empty parameter is sent as given; an absent or empty one is not sent at all. */
  lemma VerificationQueryValues(d: CallbackData)
    ensures var q := VerificationQuery(d);
      && Lookup(q, "code") == (if Given(d.code) then d.code else None)
      && Lookup(q, "state") == (if Given(d.state) then d.state else None)
      && Lookup(q, "oauth_token") == (if Given(d.oauthToken) then d.oauthToken else None)
      && Lookup(q, "oauth_verifier") == (if Given(d.oauthVerifier) then d.oauthVerifier else None)
  {
    var g1, v1 := Given(d.code), d.code.GetOr("");
    var g2, v2 := Given(d.state), d.state.GetOr("");
    var g3, v3 := Given(d.oauthToken), d.oauthToken.GetOr("");
    var g4, v4 := Given(d.oauthVerifier), d.oauthVerifier.GetOr("");
    CallbackLookup(g1, v1, g2, v2, g3, v3, g4, v4, "code");
    CallbackLookup(g1, v1, g2, v2, g3, v3, g4, v4, "state");
    CallbackLookup(g1, v1, g2, v2, g3, v3, g4, v4, "oauth_token");
    CallbackLookup(g1, v1, g2, v2, g3, v3, g4, v4, "oauth_verifier");
  }
}

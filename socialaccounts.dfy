/**
 * The social accounts page (src/app/dashboard/social-accounts/page.tsx): the roster of one
 * entry per allowed platform, and the connect request with its stored platform.
 */
module SocialAccounts {
  import opened Wrappers
  import opened Http
  import opened AppStore
  import opened WorkspaceService

  /** `SocialAccountProps` (src/types.ts). */
  datatype SocialAccount = SocialAccount(
    platform: string,
    isActive: bool,
    username: string,
    id: string,
    followerCount: Option<int>,
    picture: Option<string>,
    name: string)

  /** What the page reads of the cached user profile; anything missing is `None`. */
  datatype Profile = Profile(
    lastActiveWorkspace: Option<string>,
    allowedPlatforms: Option<seq<string>>,
    organizationId: Option<string>)

  /** The entry shown for an allowed platform with no connected account. */
  function Placeholder(platform: string): SocialAccount {
    SocialAccount(platform, false, "", "", Some(0), None, "")
  }

  /** `connectedSocials?.find(s => s.platform === platform)` */
  function FirstOnPlatform(connected: seq<SocialAccount>, platform: string): (r: Option<SocialAccount>)
    ensures r.Some? ==> r.value in connected && r.value.platform == platform
    ensures r.None? ==> forall a :: a in connected ==> a.platform != platform
    decreases |connected|
  {
    if connected == [] then None
    else if connected[0].platform == platform then Some(connected[0])
    else FirstOnPlatform(connected[1..], platform)
  }

  /** The account found is the first on its platform: every account before it is on another. */
  lemma {:induction false} FirstOnPlatformIsFirst(connected: seq<SocialAccount>, platform: string, i: nat)
    requires i < |connected| && connected[i].platform == platform
    ensures exists k :: 0 <= k <= i && FirstOnPlatform(connected, platform) == Some(connected[k])
                       && (forall j :: 0 <= j < k ==> connected[j].platform != platform)
    decreases i
  {
    if connected[0].platform == platform {
      assert FirstOnPlatform(connected, platform) == Some(connected[0]);
    } else {
      FirstOnPlatformIsFirst(connected[1..], platform, i - 1);
      var k :| 0 <= k <= i - 1 && FirstOnPlatform(connected[1..], platform) == Some(connected[1..][k])
               && (forall j :: 0 <= j < k ==> connected[1..][j].platform != platform);
      assert FirstOnPlatform(connected, platform) == Some(connected[k + 1]);
      forall j | 0 <= j < k + 1 ensures connected[j].platform != platform {
        if j > 0 {
          assert connected[j] == connected[1..][j - 1];
        }
      }
    }
  }

  /** The roster entry for one allowed platform. */
  function Entry(connected: Option<seq<SocialAccount>>, platform: string): (e: SocialAccount)
    ensures e.platform == platform
    ensures connected.Some? && FirstOnPlatform(connected.value, platform).Some? ==>
      e == FirstOnPlatform(connected.value, platform).value
    ensures (connected.None? || FirstOnPlatform(connected.value, platform).None?) ==> e == Placeholder(platform)
  {
    var found := if connected.Some? then FirstOnPlatform(connected.value, platform) else None;
    match found
    case Some(a) => a
    case None => Placeholder(platform)
  }

  /** One entry per allowed platform, in the order of the list. */
  function Roster(connected: Option<seq<SocialAccount>>, allowed: seq<string>): (r: seq<SocialAccount>)
    ensures |r| == |allowed|
    ensures forall i :: 0 <= i < |r| ==> r[i] == Entry(connected, allowed[i])
  {
    seq(|allowed|, i requires 0 <= i < |allowed| => Entry(connected, allowed[i]))
  }

  /** JavaScript truthiness of an optional string. */
  predicate Given(s: Option<string>) {
    s.Some? && s.value != ""
  }

  /** The list `userSocials` is computed from: `allowedPlatforms || []`. */
  function Allowed(p: Profile): seq<string> {
    p.allowedPlatforms.GetOr([])
  }

  /**
   * `userSocials`: nothing while loading or refetching, nothing without a last active
   * workspace or allowed platforms; otherwise the `forEach` over the allowed platforms
   * pushing the first connected account on each, or its placeholder.
   */
  method UserSocials(isLoading: bool, isRefetching: bool, p: Profile, connected: Option<seq<SocialAccount>>)
    returns (socials: seq<SocialAccount>)
    ensures (isLoading || isRefetching || !Given(p.lastActiveWorkspace) || Allowed(p) == []) ==> socials == []
    ensures !isLoading && !isRefetching && Given(p.lastActiveWorkspace) ==> socials == Roster(connected, Allowed(p))
  {
    if !isLoading && !isRefetching {
      if !Given(p.lastActiveWorkspace) {
        return [];
      }
      var allowedPlatforms := Allowed(p);
      if |allowedPlatforms| == 0 {
        return [];
      }
      socials := [];
      var i := 0;
      while i < |allowedPlatforms|
        invariant 0 <= i <= |allowedPlatforms|
        invariant socials == Roster(connected, allowedPlatforms[..i])
      {
        var platform := allowedPlatforms[i];
        var connectedSocial := if connected.Some? then FirstOnPlatform(connected.value, platform) else None;
        if connectedSocial.Some? {
          socials := socials + [connectedSocial.value];
        } else {
          socials := socials + [Placeholder(platform)];
        }
        i := i + 1;
      }
      assert allowedPlatforms[..i] == allowedPlatforms;
      return;
    }
    return [];
  }

  /** Every entry is on an allowed platform: a connected account on any other platform never
      shows, and an entry is a real account only if it was connected. */
  lemma RosterOnlyAllowed(connected: Option<seq<SocialAccount>>, allowed: seq<string>, a: SocialAccount)
    requires a in Roster(connected, allowed)
    ensures a.platform in allowed
    ensures a == Placeholder(a.platform) || (connected.Some? && a in connected.value)
  {
    var r := Roster(connected, allowed);
    var i :| 0 <= i < |r| && r[i] == a;
    assert a == Entry(connected, allowed[i]);
  }

  /** The entries follow the allowed platforms one for one. */
  lemma RosterPlatforms(connected: Option<seq<SocialAccount>>, allowed: seq<string>, i: nat)
    requires i < |allowed|
    ensures Roster(connected, allowed)[i].platform == allowed[i]
  {
  }

  // ---------------------------------------------------------------------------
  // Connecting an account

  /** What `handleConnect` sends as the organization id: the profile's, and the text
      `undefined` when the profile has none, as `URLSearchParams.set` writes it. */
  function OrganizationIdText(p: Profile): string {
    p.organizationId.GetOr("undefined")
  }

  /**
   * `handleConnect` and the connect mutation: the store's platform is set to the requested
   * one, the auth-url request is built, and an error (`ok` false) sets the platform back to
   * null. The result is the request path.
   */
  method HandleConnect(store: Store, platform: string, p: Profile, ok: bool) returns (request: string)
    modifies store
    ensures request == "/social-connections/auth-url?" + Render(AuthQuery(platform, OrganizationIdText(p)))
    ensures store.State() == old(store.State()).(platform := if ok then Some(platform) else None)
  {
    store.SetPlatform(Some(platform));
    request := AuthUrlPath(platform, OrganizationIdText(p));
    if !ok {
      store.SetPlatform(None);
    }
  }
}

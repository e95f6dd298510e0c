/**
 * The OAuth callback page (src/app/dashboard/social-accounts/success/page.tsx): the
 * verification request made on arrival, the page list built from its answer, the selection
 * of pages, and the bulk add that follows.
 */
module SocialCallback {
  import opened Wrappers
  import opened Http
  import opened IdLists
  import opened WorkspaceService

  datatype Status = LOADING | SELECTIDS | SUCCESS | ERROR

  /** A page as the verification answer lists it: the five fields the page reads, and
      whatever else the server sends. */
  datatype AvailablePage = AvailablePage(
    id: string, name: string, pageType: string, username: string, platform: string,
    rest: map<string, string>)

  /** The answer of a successful verification. */
  datatype Verification = Verification(connectionId: string, availablePages: seq<AvailablePage>)

  /** An entry of `platformPages`. */
  datatype PlatformPage = PlatformPage(id: string, name: string, pageType: string, username: string, platform: string)

  /** The call `addBulkSocialAccounts(workspaceId, { connectionId, platform, platformIds })`. */
  datatype BulkAdd = BulkAdd(workspaceId: Option<string>, connectionId: Option<string>, platform: Option<string>,
                             platformIds: seq<string>)

  /** `x || ""` on a search parameter that may be missing. */
  function OrEmpty(s: Option<string>): string {
    s.GetOr("")
  }

  /** The data the page hands to `connectedSocialsVerification`: every parameter present,
      the missing ones as empty text. */
  function CallbackRequest(code: Option<string>, state: Option<string>, oauthVerifier: Option<string>,
                           oauthToken: Option<string>): CallbackData
  {
    CallbackData(Some(OrEmpty(code)), Some(OrEmpty(state)), Some(OrEmpty(oauthToken)), Some(OrEmpty(oauthVerifier)))
  }

  /** The stored platform as it appears in the path; a null platform prints as `null`. */
  function PlatformText(platform: Option<string>): string {
    platform.GetOr("null")
  }

  /** The verification request the page makes once mounted. */
  method VerificationRequest(platform: Option<string>, code: Option<string>, state: Option<string>,
                             oauthVerifier: Option<string>, oauthToken: Option<string>) returns (path: string)
    ensures path == "/social-connections/callback/" + PlatformText(platform) + "?"
      + Render(VerificationQuery(CallbackRequest(code, state, oauthVerifier, oauthToken)))
  {
    var data := CallbackRequest(code, state, oauthVerifier, oauthToken);
    path := VerificationPath(PlatformText(platform), data);
  }

  /** A parameter missing from the callback URL, or empty in it, is not sent; one present
      and non-empty is sent as it is. */
  lemma CallbackRequestQuery(code: Option<string>, state: Option<string>, oauthVerifier: Option<string>,
                             oauthToken: Option<string>)
    ensures var q := VerificationQuery(CallbackRequest(code, state, oauthVerifier, oauthToken));
      && Lookup(q, "code") == (if Given(code) then code else None)
      && Lookup(q, "state") == (if Given(state) then state else None)
      && Lookup(q, "oauth_token") == (if Given(oauthToken) then oauthToken else None)
      && Lookup(q, "oauth_verifier") == (if Given(oauthVerifier) then oauthVerifier else None)
  {
    VerificationQueryValues(CallbackRequest(code, state, oauthVerifier, oauthToken));
  }

  /** The copy `onSuccess` makes of one page. */
  function PageOf(p: AvailablePage): PlatformPage {
    PlatformPage(p.id, p.name, p.pageType, p.username, p.platform)
  }

  /** The pages of the answer, copied in order. */
  function PagesOf(pages: seq<AvailablePage>): (r: seq<PlatformPage>)
    ensures |r| == |pages|
    ensures forall i :: 0 <= i < |r| ==> r[i] == PageOf(pages[i])
  {
    seq(|pages|, i requires 0 <= i < |pages| => PageOf(pages[i]))
  }

  /** The fields of each page survive the copy, and nothing else of it does. */
  lemma PageOfKeeps(p: AvailablePage, other: map<string, string>)
    ensures PageOf(p).id == p.id && PageOf(p).name == p.name && PageOf(p).pageType == p.pageType
    ensures PageOf(p).username == p.username && PageOf(p).platform == p.platform
    ensures PageOf(p.(rest := other)) == PageOf(p)
  {
  }

  /** The `forEach` of `onSuccess` pushing the copy of each page. */
  method BuildPlatformPages(pages: seq<AvailablePage>) returns (items: seq<PlatformPage>)
    ensures items == PagesOf(pages)
  {
    items := [];
    var i := 0;
    while i < |pages|
      invariant 0 <= i <= |pages|
      invariant items == PagesOf(pages[..i])
    {
      var page := pages[i];
      items := items + [PlatformPage(page.id, page.name, page.pageType, page.username, page.platform)];
      i := i + 1;
    }
    assert pages[..i] == pages;
  }

  /** The id of a page. */
  function PageId(p: PlatformPage): string {
    p.id
  }

  /** The ids of the copied pages are the ids of the answer's pages. */
  lemma PagesOfIds(pages: seq<AvailablePage>, i: nat)
    requires i < |pages|
    ensures Ids(PagesOf(pages), PageId)[i] == pages[i].id
  {
  }

  /** The pages that are selected, in page order: what the bulk add would send if it sent the
      selection. */
  function SelectedPageIds(pages: seq<PlatformPage>, selected: seq<string>): seq<string>
    decreases |pages|
  {
    if pages == [] then []
    else (if pages[0].id in selected then [pages[0].id] else []) + SelectedPageIds(pages[1..], selected)
  }

  /** Sending the selection sends exactly the selected ids that are pages of the answer. */
  lemma {:induction false} SelectedPageIdsSendsSelection(pages: seq<PlatformPage>, selected: seq<string>, id: string)
    ensures id in SelectedPageIds(pages, selected) <==> id in selected && id in Ids(pages, PageId)
    decreases |pages|
  {
    if pages != [] {
      SelectedPageIdsSendsSelection(pages[1..], selected, id);
      assert Ids(pages, PageId) == [pages[0].id] + Ids(pages[1..], PageId);
    }
  }

  /** The page's state cells. */
  class CallbackPage {
    var status: Status
    var platformPages: seq<PlatformPage>
    var connectionId: Option<string>
    var selectedIds: seq<string>

    constructor()
      ensures status == LOADING && platformPages == [] && connectionId.None? && selectedIds == []
    {
      status := LOADING;
      platformPages := [];
      connectionId := None;
      selectedIds := [];
    }

    /** The verification's `onSuccess`: the pages of the answer are offered for selection. */
    method OnVerified(answer: Verification)
      modifies this
      ensures status == SELECTIDS && connectionId == Some(answer.connectionId)
      ensures platformPages == PagesOf(answer.availablePages)
      ensures selectedIds == old(selectedIds)
    {
      var items := BuildPlatformPages(answer.availablePages);
      status := SELECTIDS;
      connectionId := Some(answer.connectionId);
      platformPages := items;
    }

    /** The verification's `onError`. */
    method OnVerifyFailed()
      modifies this
      ensures status == ERROR
      ensures platformPages == old(platformPages) && connectionId == old(connectionId)
      ensures selectedIds == old(selectedIds)
    {
      status := ERROR;
    }

    /** A page's checkbox: deselect it if selected, select it otherwise. */
    method ToggleSelected(id: string)
      modifies this
      ensures selectedIds == Toggle(old(selectedIds), id)
      ensures status == old(status) && platformPages == old(platformPages) && connectionId == old(connectionId)
    {
      if id in selectedIds {
        selectedIds := Remove(selectedIds, id);
      } else {
        selectedIds := selectedIds + [id];
      }
    }

    /** The Proceed button is disabled while the bulk add is pending, while verifying, and
        while nothing is selected. */
    function ProceedDisabled(isPending: bool): (b: bool)
      reads this
      ensures b <==> isPending || status == LOADING || |selectedIds| == 0
      ensures !b ==> status != LOADING && selectedIds != []
    {
      isPending || status == LOADING || |selectedIds| == 0
    }

    /** The bulk add, for the profile's last active workspace and the store's platform: every
        page of the answer, whatever is selected. */
    function BulkPayload(workspaceId: Option<string>, platform: Option<string>): (r: BulkAdd)
      reads this
      ensures r.platformIds == Ids(platformPages, PageId)
      ensures r.workspaceId == workspaceId && r.connectionId == connectionId && r.platform == platform
    {
      BulkAdd(workspaceId, connectionId, platform, Ids(platformPages, PageId))
    }

    /** The bulk payload the selection implies: the selected pages only. */
    function SelectedBulkPayload(workspaceId: Option<string>, platform: Option<string>): (r: BulkAdd)
      reads this
      ensures forall id :: id in r.platformIds <==> id in selectedIds && id in Ids(platformPages, PageId)
      ensures r.workspaceId == workspaceId && r.connectionId == connectionId && r.platform == platform
    {
      forall id ensures id in SelectedPageIds(platformPages, selectedIds) <==> id in selectedIds && id in Ids(platformPages, PageId) {
        SelectedPageIdsSendsSelection(platformPages, selectedIds, id);
      }
      BulkAdd(workspaceId, connectionId, platform, SelectedPageIds(platformPages, selectedIds))
    }

    /** The bulk add's `onSuccess`. */
    method OnBulkAdded()
      modifies this
      ensures status == SUCCESS
      ensures platformPages == old(platformPages) && connectionId == old(connectionId)
      ensures selectedIds == old(selectedIds)
    {
      status := SUCCESS;
    }

    /** The bulk add's `onError`. */
    method OnBulkFailed()
      modifies this
      ensures status == ERROR
      ensures platformPages == old(platformPages) && connectionId == old(connectionId)
      ensures selectedIds == old(selectedIds)
    {
      status := ERROR;
    }
  }

  /** With two pages offered and only the first selected, the bulk add still sends both. */
  lemma BulkPayloadIgnoresSelection(a: PlatformPage, b: PlatformPage)
    requires a.id != b.id
    ensures Ids([a, b], PageId) == [a.id, b.id]
    ensures SelectedPageIds([a, b], [a.id]) == [a.id]
    ensures Ids([a, b], PageId) != SelectedPageIds([a, b], [a.id])
  {
    assert [a, b][1..] == [b];
    assert SelectedPageIds([b], [a.id]) == [];
  }
}

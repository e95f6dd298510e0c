/** The post service (src/services/post.service.ts) and the post types it carries. */
module PostService {
  import opened Wrappers
  import opened Strings
  import opened Http

  datatype ContentType = POST | REEL | STORY | THREAD

  function ContentTypeName(c: ContentType): string {
    match c
    case POST => "POST"
    case REEL => "REEL"
    case STORY => "STORY"
    case THREAD => "THREAD"
  }

  /** The string a form holds for a content type, read back; anything else is refused. */
  function ParseContentType(s: string): (r: Option<ContentType>)
    ensures r.Some? ==> ContentTypeName(r.value) == s
    ensures forall c: ContentType :: ContentTypeName(c) == s ==> r == Some(c)
  {
    if s == "POST" then Some(POST)
    else if s == "REEL" then Some(REEL)
    else if s == "STORY" then Some(STORY)
    else if s == "THREAD" then Some(THREAD)
    else None
  }

  datatype PostStatus = DRAFT | SCHEDULED | PUBLISHED | PENDING_APPROVAL | PUBLISHING | FAILED

  function PostStatusName(s: PostStatus): string {
    match s
    case DRAFT => "DRAFT"
    case SCHEDULED => "SCHEDULED"
    case PUBLISHED => "PUBLISHED"
    case PENDING_APPROVAL => "PENDING_APPROVAL"
    case PUBLISHING => "PUBLISHING"
    case FAILED => "FAILED"
  }

  datatype Override = Override(socialProfileId: string, content: string)
  datatype Thread = Thread(content: string, mediaIds: Option<seq<string>>, targetProfileIds: Option<seq<string>>)

  /** `CreatePostPayload` (src/types.ts); the optional fields are `None` when absent. */
  datatype CreatePostPayload = CreatePostPayload(
    content: string,
    contentType: ContentType,
    socialProfileIds: seq<string>,
    mediaIds: Option<seq<string>>,
    timezone: string,
    scheduledAt: string,
    isAutoSchedule: Option<bool>,
    campaignId: Option<string>,
    labelIds: Option<seq<string>>,
    needsApproval: Option<bool>,
    overrides: Option<seq<Override>>,
    threads: Option<seq<Thread>>)

  /** The filter of `getWorkspacePosts`; absent fields are `None`. */
  datatype PostsFilter = PostsFilter(
    page: Option<int>,
    limit: Option<int>,
    status: Option<PostStatus>,
    contentType: Option<ContentType>,
    search: Option<string>)

  /** JavaScript truthiness of an optional number and of an optional string. */
  predicate NumberGiven(n: Option<int>) {
    n.Some? && n.value != 0
  }

  predicate TextGiven(s: Option<string>) {
    s.Some? && s.value != ""
  }

  // ---------------------------------------------------------------------------
  // Paths

  function PostsPath(workspaceId: string): string {
    "/workspaces/" + workspaceId + "/posts"
  }

  /** The path of `getPostById` and of `deletePost`. */
  function PostPath(workspaceId: string, postId: string): (p: string)
    ensures p == PostsPath(workspaceId) + "/" + postId
  {
    "/workspaces/" + workspaceId + "/posts/" + postId
  }

  // ---------------------------------------------------------------------------
  // The query of getWorkspacePosts

  /**
   * The query `getWorkspacePosts` builds from the five guarded `set` calls, with g1..g5
   * whether each field is given and v1..v5 the text it is sent as.
   */
  function QueryPairs(g1: bool, v1: string, g2: bool, v2: string, g3: bool, v3: string,
                      g4: bool, v4: string, g5: bool, v5: string): Pairs
  {
    AddIf(AddIf(AddIf(AddIf(AddIf([], g1, "page", v1), g2, "limit", v2), g3, "status", v3),
      g4, "contentType", v4), g5, "search", v5)
  }

  function PostsQuery(f: PostsFilter): Pairs {
    QueryPairs(NumberGiven(f.page), IntToString(f.page.GetOr(0)),
      NumberGiven(f.limit), IntToString(f.limit.GetOr(0)),
      f.status.Some?, PostStatusName(f.status.GetOr(DRAFT)),
      f.contentType.Some?, ContentTypeName(f.contentType.GetOr(POST)),
      TextGiven(f.search), f.search.GetOr(""))
  }

  /**
   * `getWorkspacePosts` up to the request: a fresh `URLSearchParams` filled by the five
   * guarded `set` calls, appended to the list path after `?`.
   */
  method WorkspacePostsPath(workspaceId: string, f: PostsFilter) returns (path: string)
    ensures path == PostsPath(workspaceId) + "?" + Render(PostsQuery(f))
  {
    var params := new SearchParams();
    var page := IntToString(f.page.GetOr(0));
    var limit := IntToString(f.limit.GetOr(0));
    var status := PostStatusName(f.status.GetOr(DRAFT));
    var contentType := ContentTypeName(f.contentType.GetOr(POST));
    var search := f.search.GetOr("");
    QueryKeysSteps(NumberGiven(f.page), page, NumberGiven(f.limit), limit, f.status.Some?, status,
      f.contentType.Some?, contentType, TextGiven(f.search), search);
    params.SetIf(NumberGiven(f.page), "page", page);
    params.SetIf(NumberGiven(f.limit), "limit", limit);
    params.SetIf(f.status.Some?, "status", status);
    params.SetIf(f.contentType.Some?, "contentType", contentType);
    params.SetIf(TextGiven(f.search), "search", search);
    path := PostsPath(workspaceId) + "?" + params.ToString();
  }

  /** Each guarded `set` of the query finds its name not yet set. */
  lemma QueryKeysSteps(g1: bool, v1: string, g2: bool, v2: string, g3: bool, v3: string,
                       g4: bool, v4: string, g5: bool, v5: string)
    ensures var q1 := AddIf([], g1, "page", v1);
      var q2 := AddIf(q1, g2, "limit", v2);
      var q3 := AddIf(q2, g3, "status", v3);
      var q4 := AddIf(q3, g4, "contentType", v4);
      && "page" !in Keys([]) && "limit" !in Keys(q1) && "status" !in Keys(q2)
      && "contentType" !in Keys(q3) && "search" !in Keys(q4)
  {
    var q1 := AddIf([], g1, "page", v1);
    var q2 := AddIf(q1, g2, "limit", v2);
    var q3 := AddIf(q2, g3, "status", v3);
    var q4 := AddIf(q3, g4, "contentType", v4);
    QueryKeys(g1, v1, g2, v2, g3, v3, g4, v4, g5, v5);
    assert Keys(q1) == (if g1 then ["page"] else []);
    assert "limit" !in Keys(q1);
    assert Keys(q2) == Keys(q1) + (if g2 then ["limit"] else []);
    assert "status" !in Keys(q2);
    assert Keys(q3) == Keys(q2) + (if g3 then ["status"] else []);
    assert "contentType" !in Keys(q3);
    assert Keys(q4) == Keys(q3) + (if g4 then ["contentType"] else []);
    assert "search" !in Keys(q4);
  }

  /** The names of the query: the given fields, in the order page, limit, status,
      contentType, search. */
  lemma QueryKeys(g1: bool, v1: string, g2: bool, v2: string, g3: bool, v3: string,
                  g4: bool, v4: string, g5: bool, v5: string)
    ensures var q1 := AddIf([], g1, "page", v1);
      var q2 := AddIf(q1, g2, "limit", v2);
      var q3 := AddIf(q2, g3, "status", v3);
      var q4 := AddIf(q3, g4, "contentType", v4);
      && Keys(q1) == (if g1 then ["page"] else [])
      && Keys(q2) == Keys(q1) + (if g2 then ["limit"] else [])
      && Keys(q3) == Keys(q2) + (if g3 then ["status"] else [])
      && Keys(q4) == Keys(q3) + (if g4 then ["contentType"] else [])
      && Keys(QueryPairs(g1, v1, g2, v2, g3, v3, g4, v4, g5, v5))
         == Keys(q4) + (if g5 then ["search"] else [])
  {
    var q1 := AddIf([], g1, "page", v1);
    var q2 := AddIf(q1, g2, "limit", v2);
    var q3 := AddIf(q2, g3, "status", v3);
    var q4 := AddIf(q3, g4, "contentType", v4);
    KeysAddIf([], g1, "page", v1);
    KeysAddIf(q1, g2, "limit", v2);
    KeysAddIf(q2, g3, "status", v3);
    KeysAddIf(q3, g4, "contentType", v4);
    KeysAddIf(q4, g5, "search", v5);
  }

  /** The names in the query of a filter are its given fields, in the order page, limit,
      status, contentType, search. */
  lemma PostsQueryKeys(f: PostsFilter)
    ensures Keys(PostsQuery(f)) ==
      (if NumberGiven(f.page) then ["page"] else [])
      + (if NumberGiven(f.limit) then ["limit"] else [])
      + (if f.status.Some? then ["status"] else [])
      + (if f.contentType.Some? then ["contentType"] else [])
      + (if TextGiven(f.search) then ["search"] else [])
  {
    QueryKeys(NumberGiven(f.page), IntToString(f.page.GetOr(0)),
      NumberGiven(f.limit), IntToString(f.limit.GetOr(0)),
      f.status.Some?, PostStatusName(f.status.GetOr(DRAFT)),
      f.contentType.Some?, ContentTypeName(f.contentType.GetOr(POST)),
      TextGiven(f.search), f.search.GetOr(""));
  }

  /** A given field reads back its text from the query; one not given is not there. */
  lemma QueryLookups(g1: bool, v1: string, g2: bool, v2: string, g3: bool, v3: string,
                     g4: bool, v4: string, g5: bool, v5: string)
    ensures var q := QueryPairs(g1, v1, g2, v2, g3, v3, g4, v4, g5, v5);
      && Lookup(q, "page") == (if g1 then Some(v1) else None)
      && Lookup(q, "limit") == (if g2 then Some(v2) else None)
      && Lookup(q, "status") == (if g3 then Some(v3) else None)
      && Lookup(q, "contentType") == (if g4 then Some(v4) else None)
      && Lookup(q, "search") == (if g5 then Some(v5) else None)
  {
    QueryLookup(g1, v1, g2, v2, g3, v3, g4, v4, g5, v5, "page");
    QueryLookup(g1, v1, g2, v2, g3, v3, g4, v4, g5, v5, "limit");
    QueryLookup(g1, v1, g2, v2, g3, v3, g4, v4, g5, v5, "status");
    QueryLookup(g1, v1, g2, v2, g3, v3, g4, v4, g5, v5, "contentType");
    QueryLookup(g1, v1, g2, v2, g3, v3, g4, v4, g5, v5, "search");
  }

  lemma QueryLookup(g1: bool, v1: string, g2: bool, v2: string, g3: bool, v3: string,
                    g4: bool, v4: string, g5: bool, v5: string, j: string)
    ensures Lookup(QueryPairs(g1, v1, g2, v2, g3, v3, g4, v4, g5, v5), j) ==
      if g5 && j == "search" then Some(v5)
      else if g4 && j == "contentType" then Some(v4)
      else if g3 && j == "status" then Some(v3)
      else if g2 && j == "limit" then Some(v2)
      else if g1 && j == "page" then Some(v1)
      else None
  {
    var q1 := AddIf([], g1, "page", v1);
    var q2 := AddIf(q1, g2, "limit", v2);
    var q3 := AddIf(q2, g3, "status", v3);
    var q4 := AddIf(q3, g4, "contentType", v4);
    QueryKeysSteps(g1, v1, g2, v2, g3, v3, g4, v4, g5, v5);
    LookupAddIf([], g1, "page", v1, j);
    LookupAddIf(q1, g2, "limit", v2, j);
    LookupAddIf(q2, g3, "status", v3, j);
    LookupAddIf(q3, g4, "contentType", v4, j);
    LookupAddIf(q4, g5, "search", v5, j);
  }

  /** Each given field of a filter is sent as text: page and limit in decimal, the names of
      status and content type, and search as typed; a field not given is not sent. */
  lemma PostsQueryValues(f: PostsFilter)
    ensures var q := PostsQuery(f);
      && Lookup(q, "page") == (if NumberGiven(f.page) then Some(IntToString(f.page.value)) else None)
      && Lookup(q, "limit") == (if NumberGiven(f.limit) then Some(IntToString(f.limit.value)) else None)
      && Lookup(q, "status") == (if f.status.Some? then Some(PostStatusName(f.status.value)) else None)
      && Lookup(q, "contentType") ==
         (if f.contentType.Some? then Some(ContentTypeName(f.contentType.value)) else None)
      && Lookup(q, "search") == (if TextGiven(f.search) then Some(f.search.value) else None)
  {
    QueryLookups(NumberGiven(f.page), IntToString(f.page.GetOr(0)),
      NumberGiven(f.limit), IntToString(f.limit.GetOr(0)),
      f.status.Some?, PostStatusName(f.status.GetOr(DRAFT)),
      f.contentType.Some?, ContentTypeName(f.contentType.GetOr(POST)),
      TextGiven(f.search), f.search.GetOr(""));
  }

  /** With nothing given the list path keeps its trailing `?`. */
  lemma EmptyFilterPath(workspaceId: string, f: PostsFilter)
    requires !NumberGiven(f.page) && !NumberGiven(f.limit) && f.status.None?
    requires f.contentType.None? && !TextGiven(f.search)
    ensures PostsPath(workspaceId) + "?" + Render(PostsQuery(f)) == "/workspaces/" + workspaceId + "/posts?"
  {
  }

  // ---------------------------------------------------------------------------
  // Status acceptance

  /** `createWorkspacePost` takes 200 and 201. */
  function CreateWorkspacePostResult<D>(response: Response<D>): (r: Result<D, string>)
    ensures r.Success? <==> response.status == 200 || response.status == 201
    ensures r.Success? ==> r.value == response.data
    ensures r.Failure? ==> r.error == response.message
  {
    Accept(response, {200, 201})
  }

  /** `getWorkspacePosts`, `getPostById` and `deletePost` take 200 only. */
  function ReadPostResult<D>(response: Response<D>): (r: Result<D, string>)
    ensures r.Success? <==> response.status == 200
    ensures r.Success? ==> r.value == response.data
    ensures r.Failure? ==> r.error == response.message
  {
    Accept(response, {200})
  }
}

# Rooli frontend core, modelled in Dafny

Rooli is a social-media scheduling web app. Its frontend is written in TypeScript with React
and Next.js. This project models the parts of that frontend that hold deterministic logic,
and proves properties of the model:

- `formatMoney`, the amount normaliser (lib/utils.ts);
- the media upload field in src/components/ui/media-upload.tsx: batch admission and the
  8 MB limit, the split into images and other files, the crop queue with its index and
  pending files, the uploads it issues, and the list of media ids;
- the create-post form: the zod schema, the default values, the social-profile toggle, the
  payload `onSubmit` sends, and the platform icon lookup;
- the social accounts page: one roster entry per allowed platform, and the stored platform
  around the connect request;
- the OAuth callback page: the four-state status, the page list built from the
  verification answer, the page selection, the Proceed guard, and the bulk-add payload;
- the dashboard header's title and the sidebar's active items;
- the zustand session store: setters, `clearAuth`, the persisted projection and
  rehydration;
- the workspace settings panel: the plan limit, the create guard and payload, and the
  switch and delete dialogs;
- the post and workspace services: their query strings, request paths and accepted status
  codes.

Each source file has its own module, plus shared ones:

- `Wrappers` has `Option` and `Result`.
- `Strings` has `indexOf`, `includes`, `split`, `substring`, `replace` of one character, and
  integer-to-text conversion.
- `IdLists` has id removal by `filter` and the select/deselect toggle.
- `Http` has status acceptance and `URLSearchParams`, as a class holding an ordered list of
  name/value pairs.

Two JavaScript stringifications are modelled explicitly:

- `URLSearchParams.set(k, undefined)` stores the text `undefined`.
- A `null` platform interpolated into a path prints as `null`.

React state cells, the store and the search parameters become classes whose methods update
their fields. Each handler is one atomic step. Loops become methods proved against a
specification function: the file admission loop, the roster loop and the page-list loop.

## Model

| member | source | states |
|---|---|---|
| Money.FormatMoneyEmpty | lib/utils.ts:9 | The result is empty exactly when the input is empty. |
| Money.KeepMoneyCharsAlphabet | lib/utils.ts:10 | After cleaning, only digits and dots are left. |
| Money.NormaliseDecimalSplit | lib/utils.ts:12-23 | After the dot normalisation and the split on `.`, there are exactly two pieces. The first is the digits before the first dot. The second is at most two fraction digits, or `00` when the cleaned text had no dot. |
| Money.SeparateIsGroupByThree | lib/utils.ts:31 | The regular expression puts a comma before each non-first digit followed by a multiple of three digits. This is the same as grouping the digits by threes from the right. |
| Money.GroupByThreeWellGrouped | lib/utils.ts:31 | Grouped digits have a leading group of one to three digits, and a comma before every later group of exactly three. |
| Money.GroupByThreeDropCommas | lib/utils.ts:31 | Removing the commas from grouped digits gives the digits back. |
| Money.FormatMoneyParts | lib/utils.ts:9-33 | A non-empty input becomes three parts, in order. First the grouped digits before the first dot of the cleaned input, or `0`. Then one dot. Then the first two digits after that dot, with later dots dropped and zeros padded on the right. |
| Money.FormatMoneyShape | lib/utils.ts:13-33 | A non-empty result has one dot followed by exactly two digits. Before the dot is a well-grouped integer. With its commas removed, it equals the digits before the first dot of the cleaned input, or `0`. |
| Money.FormatMoneyAlphabet | lib/utils.ts:10-33 | The result holds only digits, commas and dots. |
| Money.FormatMoneyIdempotent | lib/utils.ts:8-34 | Formatting a formatted amount returns it unchanged. |
| MoneyExamples.FormatMoneyNoDigits | lib/utils.ts:10-25 | A non-empty input with no digit and no dot becomes `0.00`. |
| MoneyExamples.FormatMoneyLetters | lib/utils.ts:10-25 | `abc` becomes `0.00`. |
| MoneyExamples.FormatMoneyExtraDots | lib/utils.ts:12-18 | `1.2.3` becomes `1.23`. |
| MoneyExamples.FormatMoneyGroupsThousands | lib/utils.ts:10-33 | `$1234.5` becomes `1,234.50`. |
| Strings.IndexOf | lib/utils.ts:12 | `indexOf` gives -1 exactly when the character is absent. Otherwise it gives a position holding the character, with none before it. |
| Strings.DropCharRemoves | lib/utils.ts:15-17 | `replace(/\./g, "")` leaves no dot, and never makes the text longer. |
| Strings.Take | lib/utils.ts:18 | `substring(0, n)` is the prefix of exactly min(n, length) characters. |
| Strings.SplitJoin | lib/utils.ts:23 | Joining the pieces of a split with the separator gives the text back. |
| Strings.SplitPiecesClean | src/components/dashboard/header.tsx:42 | No piece of a split holds the separator. |
| Strings.IntToStringRoundTrip | src/services/post.service.ts:36-37 | The decimal text `toString` gives for an integer starts with a digit or `-`, and parses back to that integer. |
| IdLists.Remove | src/components/ui/media-upload.tsx:152 | After `filter(id => id !== x)`, x is gone and the list is not longer. |
| IdLists.RemoveMembers | src/components/ui/media-upload.tsx:152 | An id survives the filter exactly when it was there and is not x. |
| IdLists.RemoveAppend | src/components/ui/media-upload.tsx:152 | The filter works piece by piece, so the remaining ids keep their order. |
| IdLists.RemoveNoDup | src/components/ui/media-upload.tsx:152 | A duplicate-free list stays duplicate-free after the filter. |
| IdLists.Toggle | src/app/dashboard/content/create-post/page.tsx:361-369 | The toggled id becomes present exactly when it was absent. Every other id keeps its membership. |
| IdLists.ToggleNoDup | src/app/dashboard/content/create-post/page.tsx:361-369 | The toggle keeps a duplicate-free list duplicate-free. |
| IdLists.ToggleTwiceAbsent | src/app/dashboard/content/create-post/page.tsx:361-369 | Toggling an absent id twice gives the original list back. |
| IdLists.ToggleTwicePresent | src/app/dashboard/content/create-post/page.tsx:361-369 | Toggling a present id twice, in a duplicate-free list, moves it to the end. |
| Http.Accept | src/services/post.service.ts:11-15 | A response is accepted exactly when its status is in the accepted set. Acceptance yields its data; refusal yields its message. |
| Http.Render | src/services/post.service.ts:43 | `toString` of the parameters is empty exactly when no pair is set. |
| Http.SetParamSets | src/services/workspace.service.ts:20-22 | After `set(k, v)`, k reads v and exactly one pair is named k. |
| Http.SetParamOthers | src/services/workspace.service.ts:20-22 | `set(k, v)` leaves every other name reading as before. |
| Http.SetParamAbsent | src/services/workspace.service.ts:20-22 | Setting a name not yet present appends the pair at the end. |
| Http.SearchParams.constructor | src/services/post.service.ts:34 | `new URLSearchParams({})` holds no pair. |
| Http.SearchParams.Set | src/services/workspace.service.ts:20-22 | The pairs become those `set` semantics give. |
| Http.SearchParams.SetIf | src/services/post.service.ts:36-40 | A guarded `set` of a new name appends the pair when the guard holds, and changes nothing otherwise. |
| PostService.ParseContentType | src/app/dashboard/content/create-post/page.tsx:51 | The enum check accepts exactly the names POST, REEL, STORY and THREAD, and reads each back as its own content type. |
| PostService.WorkspacePostsPath | src/services/post.service.ts:34-44 | The list request is `/workspaces/{id}/posts?` followed by the rendered query that the five guarded `set` calls build. |
| PostService.PostsQueryKeys | src/services/post.service.ts:36-40 | The query names are the truthy fields, in the order page, limit, status, contentType, search. So page 0, limit 0 and an empty search are left out. |
| PostService.PostsQueryValues | src/services/post.service.ts:36-40 | A truthy field reads back as its text: page and limit in decimal, the status and content-type names, and search as typed. Any other field is absent. |
| PostService.EmptyFilterPath | src/services/post.service.ts:42-44 | With no field truthy, the list path ends in a bare `?`. |
| PostService.PostPath | src/services/post.service.ts:55 | The get and delete paths are the list path, then `/`, then the post id. |
| PostService.CreateWorkspacePostResult | src/services/post.service.ts:11-15 | Create accepts exactly the statuses 200 and 201 and then yields the response data. Otherwise it fails with the response message. |
| PostService.ReadPostResult | src/services/post.service.ts:46-50 | List, get and delete accept exactly status 200 and then yield the response data. Otherwise they fail with the response message. |
| WorkspaceService.WorkspaceResult | src/services/workspace.service.ts:9-13 | Every workspace-service method accepts exactly 200 and 201. Acceptance yields the data; refusal yields the message. |
| WorkspaceService.SocialsPath | src/services/workspace.service.ts:6 | The socials request is `/workspaces/`, then the workspace id, then `/social-profiles`. |
| WorkspaceService.SocialsPathInjective | src/services/workspace.service.ts:6 | Two workspaces with the same socials path are the same workspace. |
| WorkspaceService.AuthUrlPath | src/services/workspace.service.ts:20-26 | The auth-url request carries the query of the two `set` calls. |
| WorkspaceService.AuthQueryText | src/services/workspace.service.ts:20-22 | That query reads `platform=<platform>&organizationId=<id>`, platform first. |
| WorkspaceService.VerificationPath | src/services/workspace.service.ts:44-64 | The verification request is `/social-connections/callback/{platform}?` followed by the query that the four guarded `set` calls build. |
| WorkspaceService.VerificationQueryKeys | src/services/workspace.service.ts:46-60 | The names sent are the non-empty parameters, in the order code, state, oauth_token, oauth_verifier. |
| WorkspaceService.VerificationQueryValues | src/services/workspace.service.ts:46-60 | A non-empty parameter is sent as given. An absent or empty one is not sent. |
| Platforms.PlatformIcon | src/app/dashboard/content/create-post/page.tsx:343-349 | TWITTER, FACEBOOK and LINKEDIN each map to their own icon, and only those names do. Every other name falls back to the Instagram icon. |
| Platforms.IconKeyFound | src/app/dashboard/content/create-post/page.tsx:343-349 | Each icon is found under its own key, so no entry of the record is shadowed. |
| Platforms.KnownPlatformKey | src/app/dashboard/social-accounts/success/page.tsx:193-199 | A known platform name is the key of the icon it finds. |
| CreatePost.IssueMessage | src/app/dashboard/content/create-post/page.tsx:50-56 | Every check has a message of the schema's own, ending in ` is required`, except the enum check, which keeps zod's message. |
| CreatePost.IssueMessagesDistinct | src/app/dashboard/content/create-post/page.tsx:50-56 | Two different checks with messages of the schema's own have different messages. |
| CreatePost.Issues | src/app/dashboard/content/create-post/page.tsx:50-56 | Each check fails under its own condition: empty content, a content type outside the enum, no social profile, or a timezone shorter than two characters. |
| CreatePost.Validate | src/app/dashboard/content/create-post/page.tsx:49-79 | The schema accepts exactly when no check fails. Otherwise it reports every failing check. Accepted data carries the content type that was typed. |
| CreatePost.ValidateKeeps | src/app/dashboard/content/create-post/page.tsx:49-79 | Accepted data holds the form's other fields unchanged. |
| CreatePost.DefaultsRejected | src/app/dashboard/content/create-post/page.tsx:107-120 | The default values fail on content, profiles and timezone. Their content type, POST, passes. |
| CreatePost.SubmittedPayload | src/app/dashboard/content/create-post/page.tsx:170-183 | The payload copies content, contentType, socialProfileIds, mediaIds, timezone, scheduledAt, isAutoSchedule and needsApproval unchanged. The content is never split or cut. The payload carries no campaignId, labelIds, overrides or threads. |
| CreatePost.PostForm.constructor | src/app/dashboard/content/create-post/page.tsx:105-121 | The form starts from its default values. |
| CreatePost.PostForm.ToggleProfile | src/app/dashboard/content/create-post/page.tsx:360-370 | A profile button toggles its id in `socialProfileIds` and leaves the other fields alone. The button then shows as selected exactly when it did not before. Every other button keeps its state. |
| CreatePost.PostForm.Selected | src/app/dashboard/content/create-post/page.tsx:356 | A profile button shows as selected exactly when its id is in `socialProfileIds`. |
| MediaUpload.MaxFiles | src/components/ui/media-upload.tsx:41 | `maxFiles \|\| 5`: the prop when it is non-zero, and 5 when it is missing or 0. |
| MediaUpload.PartitionComplete | src/components/ui/media-upload.tsx:88-104 | Every file of a batch is exactly one of these: queued for the cropper, kept to upload as is, or skipped. |
| MediaUpload.PartitionMembers | src/components/ui/media-upload.tsx:88-104 | Images of at most 8 MB go to the cropper. Other files of at most 8 MB are kept. Files over 8 MB are skipped. |
| MediaUpload.PartitionBatch | src/components/ui/media-upload.tsx:85-104 | The loop yields the queue entries of the images and the other files, each in batch order. |
| MediaUpload.RemovePreviewIds | src/components/ui/media-upload.tsx:152-156 | Filtering the previews and filtering the ids agree: the preview ids after a delete are the old ids without the deleted one. |
| MediaUpload.DeleteAfterUpload | src/components/ui/media-upload.tsx:152-156 | Deleting an id that only the latest upload brought leaves the earlier ids as they were. |
| MediaUpload.MediaUploader.constructor | src/components/ui/media-upload.tsx:21-41 | The value defaults to `[]`, the limit is `MAX_FILES`, there are no previews, and the crop queue is idle. |
| MediaUpload.MediaUploader.ShowPicker | src/components/ui/media-upload.tsx:168 | The picker shows exactly while fewer than `MAX_FILES` ids are held. |
| MediaUpload.MediaUploader.CroppingImage | src/components/ui/media-upload.tsx:163 | The current image is defined exactly while the queue is non-empty, and is the entry at the index. |
| MediaUpload.MediaUploader.HandleFileSelect | src/components/ui/media-upload.tsx:72-115 | An empty batch, or one that would pass `MAX_FILES`, changes nothing and uploads nothing. Otherwise, if images pass, they form the queue at index 0 and the other files wait. If no image passes, the other files, if any, are uploaded at once. |
| MediaUpload.MediaUploader.HandleCropComplete | src/components/ui/media-upload.tsx:117-128 | The cropped file joins the pending files. Before the last image the index advances. After the last image, all pending files are uploaded and the queue resets. |
| MediaUpload.MediaUploader.HandleCropCancel | src/components/ui/media-upload.tsx:130-141 | Cancelling adds nothing. Before the last image the index advances. After the last image, pending files are uploaded only if there are any, and the queue resets. |
| MediaUpload.MediaUploader.ResetCroppingState | src/components/ui/media-upload.tsx:143-147 | The queue is empty, the index is 0 and nothing is pending; the ids and previews are untouched. |
| MediaUpload.MediaUploader.OnUploadSuccess | src/components/ui/media-upload.tsx:53-61 | The ids become the old ids followed by the new ids in response order, when `onChange` is given. The records join the previews. |
| MediaUpload.MediaUploader.HandleDelete | src/components/ui/media-upload.tsx:149-161 | A successful delete removes every copy of the id from the ids and from the previews, keeping the others in order. A failed delete changes nothing. |
| AppStore.InitialState | src/store/app-store.ts:29-43 | Every nullable field starts null, and `hasHydrated` starts false. |
| AppStore.ClearedForgets | src/store/app-store.ts:44-52 | `clearAuth` nulls the six session fields, and keeps `hasHydrated` and the last workspace. What it persists afterwards carries no token. |
| AppStore.PersistRoundTrip | src/store/app-store.ts:56-58 | Storing and rehydrating brings back the access token and nothing else. |
| AppStore.MergeOwn | src/store/app-store.ts:56-61 | Rehydrating the state's own stored projection changes nothing. |
| AppStore.Store.constructor | src/store/app-store.ts:29-43 | The store starts in the initial state. |
| AppStore.Store.SetAccessToken | src/store/app-store.ts:31 | Only `accessToken` changes. |
| AppStore.Store.SetRefreshToken | src/store/app-store.ts:33 | Only `refreshToken` changes. |
| AppStore.Store.SetHasHydrated | src/store/app-store.ts:35 | Only `hasHydrated` changes. |
| AppStore.Store.SetUser | src/store/app-store.ts:37 | Only `user` changes. |
| AppStore.Store.SetOrganizationId | src/store/app-store.ts:39 | Only `organizationId` changes. |
| AppStore.Store.SetReference | src/store/app-store.ts:41 | Only `reference` changes. |
| AppStore.Store.SetPlatform | src/store/app-store.ts:43 | Only `platform` changes. |
| AppStore.Store.SetLastWorkspace | src/components/settings/user-workspaces.tsx:138 | Only `lastWorkspace` changes. |
| AppStore.Store.ClearAuth | src/store/app-store.ts:44-52 | The state becomes the cleared state of the old one. |
| AppStore.Store.Rehydrate | src/store/app-store.ts:59-61 | When a state is handed over, any stored token is merged in and `hasHydrated` becomes true. When reading fails, nothing changes. |
| UserWorkspaces.MaxWorkspaces | src/components/settings/user-workspaces.tsx:37-38 | The plan's limit, or 1 when the plan gives none. |
| UserWorkspaces.IsLimitReached | src/components/settings/user-workspaces.tsx:182 | The limit is reached exactly when the list is loaded and holds at least the limit. It is false while the list is not loaded. |
| UserWorkspaces.HandleCreate | src/components/settings/user-workspaces.tsx:151-168 | No request is sent exactly when the limit is reached. Otherwise the payload has the typed name, the organization name, `Active`, the user's email and `#FF0000`. |
| UserWorkspaces.DefaultLimitIsOne | src/components/settings/user-workspaces.tsx:37-38 | With no plan limit, one loaded workspace already blocks creation, and an empty list does not. |
| UserWorkspaces.InitialWorkspace | src/components/settings/user-workspaces.tsx:40-42 | The stored last workspace, else the profile's last active workspace, else the empty text. |
| UserWorkspaces.WorkspaceSettings.constructor | src/components/settings/user-workspaces.tsx:40-49 | The panel starts on the initial workspace, with nothing selected and every dialog shut. |
| UserWorkspaces.WorkspaceSettings.OpenCreate | src/components/settings/user-workspaces.tsx:199-203 | The create button opens its dialog only while the limit is not reached. |
| UserWorkspaces.WorkspaceSettings.ToggleSwitch | src/components/settings/user-workspaces.tsx:232-237 | The switch dialog opens, with the workspace selected, only for a workspace other than the current one. |
| UserWorkspaces.WorkspaceSettings.ToggleDelete | src/components/settings/user-workspaces.tsx:228-231 | The delete dialog opens with the workspace selected. |
| UserWorkspaces.WorkspaceSettings.Target | src/components/settings/user-workspaces.tsx:170-180 | Delete and switch send a request for the selected workspace's id, and none when nothing is selected. |
| UserWorkspaces.WorkspaceSettings.OnSwitchSuccess | src/components/settings/user-workspaces.tsx:138-140 | A successful switch stores the target as the last workspace, makes it current, and shuts the dialog. |
| UserWorkspaces.WorkspaceSettings.OnCreateSuccess | src/components/settings/user-workspaces.tsx:81 | A successful create shuts its dialog. |
| UserWorkspaces.WorkspaceSettings.OnDeleteSuccess | src/components/settings/user-workspaces.tsx:107 | A successful delete shuts its dialog. |
| SocialAccounts.FirstOnPlatform | src/app/dashboard/social-accounts/page.tsx:90-92 | `find` returns a connected account on the platform, or nothing when no account is on it. |
| SocialAccounts.FirstOnPlatformIsFirst | src/app/dashboard/social-accounts/page.tsx:90-92 | The account found is the first on its platform: every account before it is on another platform. |
| SocialAccounts.Entry | src/app/dashboard/social-accounts/page.tsx:90-109 | The entry is the account found, or else the placeholder: inactive, with empty username, id and name, follower count 0 and no picture. |
| SocialAccounts.Roster | src/app/dashboard/social-accounts/page.tsx:89-111 | There is one entry per allowed platform, in the order of the list. |
| SocialAccounts.UserSocials | src/app/dashboard/social-accounts/page.tsx:78-117 | The list is empty while loading or refetching, without a last active workspace, or with no allowed platform. Otherwise the loop yields exactly the roster. |
| SocialAccounts.RosterOnlyAllowed | src/app/dashboard/social-accounts/page.tsx:89-111 | Every entry is on an allowed platform, and is a placeholder or a connected account. So an account on a platform that is not allowed never shows. |
| SocialAccounts.RosterPlatforms | src/app/dashboard/social-accounts/page.tsx:89-111 | The entries follow the allowed platforms one for one. |
| SocialAccounts.HandleConnect | src/app/dashboard/social-accounts/page.tsx:51-76 | The store's platform is set to the requested one, and the auth-url request carries the profile's organization id, or `undefined`. An error sets the platform back to null. Nothing else in the store changes. |
| SocialCallback.VerificationRequest | src/app/dashboard/social-accounts/success/page.tsx:152-162 | The verification request carries the stored platform, `null` when there is none, and the four callback parameters. A missing parameter is passed as empty text. |
| SocialCallback.CallbackRequestQuery | src/app/dashboard/social-accounts/success/page.tsx:156-159 | A callback parameter that is missing or empty is not sent. One present and non-empty is sent as it is. |
| SocialCallback.PagesOf | src/app/dashboard/social-accounts/success/page.tsx:85-93 | There is one copied page per page of the answer, in order. |
| SocialCallback.PageOfKeeps | src/app/dashboard/social-accounts/success/page.tsx:86-92 | The copy keeps id, name, type, username and platform, and nothing else of the page. |
| SocialCallback.BuildPlatformPages | src/app/dashboard/social-accounts/success/page.tsx:85-93 | The `forEach` yields exactly the copied pages. |
| SocialCallback.PagesOfIds | src/app/dashboard/social-accounts/success/page.tsx:121 | The ids of the copied pages are the ids of the answer's pages. |
| SocialCallback.SelectedPageIdsSendsSelection | src/app/dashboard/social-accounts/success/page.tsx:214-223 | Sending the selection would send exactly the selected ids that belong to offered pages. |
| SocialCallback.CallbackPage.constructor | src/app/dashboard/social-accounts/success/page.tsx:32-46 | The status starts at LOADING, with no pages, no connection and nothing selected. |
| SocialCallback.CallbackPage.OnVerified | src/app/dashboard/social-accounts/success/page.tsx:73-98 | A verified connection moves the status to SELECTIDS and records the connection id and the copied pages. |
| SocialCallback.CallbackPage.OnVerifyFailed | src/app/dashboard/social-accounts/success/page.tsx:99-100 | A failed verification moves the status to ERROR. |
| SocialCallback.CallbackPage.ToggleSelected | src/app/dashboard/social-accounts/success/page.tsx:215-223 | A checkbox toggles its page id in the selection. |
| SocialCallback.CallbackPage.ProceedDisabled | src/app/dashboard/social-accounts/success/page.tsx:231-233 | Proceed is disabled exactly when a request is pending, the status is LOADING, or nothing is selected. |
| SocialCallback.CallbackPage.BulkPayload | src/app/dashboard/social-accounts/success/page.tsx:109-124 | The bulk add is sent for the profile's last active workspace. It carries the connection id, the stored platform and the ids of all offered pages. |
| SocialCallback.CallbackPage.SelectedBulkPayload | src/app/dashboard/social-accounts/success/page.tsx:121 | The corrected bulk add, for the same workspace, connection and platform, sends exactly the selected ids of offered pages. |
| SocialCallback.BulkPayloadIgnoresSelection | src/app/dashboard/social-accounts/success/page.tsx:121 | With two pages offered and only the first selected, the bulk add as written sends both ids. The selection would send only the first. |
| SocialCallback.CallbackPage.OnBulkAdded | src/app/dashboard/social-accounts/success/page.tsx:125-126 | A successful bulk add moves the status to SUCCESS. |
| SocialCallback.CallbackPage.OnBulkFailed | src/app/dashboard/social-accounts/success/page.tsx:142-143 | A failed bulk add moves the status to ERROR. |
| Header.CurrentPath | src/components/dashboard/header.tsx:42 | The segment is the third piece of the path split on `/`, and undefined when there are fewer pieces. It never holds a `/`. |
| Header.DashboardSegment | src/components/dashboard/header.tsx:42 | On `/dashboard/<seg>`, for a segment without `/`, the segment is `<seg>`. |
| Header.DashboardSubpageSegment | src/components/dashboard/header.tsx:42 | On `/dashboard/<seg>/<rest>`, for a segment without `/`, the segment is still `<seg>`. |
| Header.HeaderTitle | src/components/dashboard/header.tsx:45-63 | The title is always one of the eight listed titles. |
| Header.HeaderTitleByRules | src/components/dashboard/header.tsx:53-63 | The chain is the rule table analytics, scheduler, content, social-accounts, ai-assistant, team, inbox, tried in order. A missing or empty segment gives Dashboard, and so does a segment that matches no rule. |
| Header.FirstMatchIsFirst | src/components/dashboard/header.tsx:55-61 | A rule decides exactly when it matches and no earlier rule does. |
| Header.FirstMatchNone | src/components/dashboard/header.tsx:62 | When no rule matches, the table gives no title. |
| Header.DashboardTitle | src/components/dashboard/header.tsx:54-62 | The Dashboard title shows exactly when the segment is missing or empty, or contains none of the keys. |
| Header.ContentTitle | src/components/dashboard/header.tsx:55-57 | The segment `content` is titled Content Library. |
| Header.CreatePostTitle | src/components/dashboard/header.tsx:42-63 | `/dashboard/content/create-post` is titled Content Library. |
| Sidebar.NavigationLists | src/components/app-sidebar.tsx:32-50 | There are eight main items, from Dashboard to Inbox, and two bottom items: Settings, then Help & Support. |
| Sidebar.MainHrefsExtendDashboard | src/components/app-sidebar.tsx:32-45 | Every main href starts with `/dashboard`. |
| Sidebar.DashboardAlwaysActive | src/components/app-sidebar.tsx:90 | The Dashboard item is active whenever any main item is. |
| Sidebar.OwnItemActive | src/components/app-sidebar.tsx:90 | On a main item's own path, that item is active. |
| Sidebar.OneBottomActive | src/components/app-sidebar.tsx:117 | At most one bottom item is active. |

## Left out

- The network and React Query. Requests become their paths and payloads. A response is a
  status code with data and a message, or an `ok` flag where only success or failure
  matters. The message is `response.data.message`. Caching, invalidation, retries, pending
  flags and toasts are left out.
- The axios instance is not part of this model. The failure branch of each status check
  assumes that the instance hands every status back to the service. With axios's default
  status check, a non-2xx status would be rejected before the service's own check runs.
- Percent-encoding by `URLSearchParams`: a query is its ordered name/value list, rendered
  as `k=v` joined by `&`.
- The FileReader data-URL read. It is a parameter `read` of the file-selection handler.
- The image cropper and the date-time picker. They involve floating point, canvas and JS
  `Date`.
- Async interleaving. Each handler is one atomic step. The `value` captured by the upload's
  `onSuccess` closure is not modelled: the field is read at the time of the call.
- The `value` and `onChange` props of the media upload. They are one field, and calling
  `onChange` assigns it. This holds only for a parent that passes the new value straight
  back.
- `cn` (class-name merging), routing (`router.push`, `window.open`), layouts and every other
  part the files only render.
- Thread splitting. The composer has none: content is sent as typed, and overrides and
  threads are commented out of the payload. The model follows the code.
- `lastWorkspace` and `setLastWorkspace`. The components use them, but
  src/store/app-store.ts does not declare them. They are one more nullable field of the
  store.
- Rehydration assumes zustand's default shallow merge of the stored projection over the
  current state.
- Number and text conversion is modelled for integers below 10^21 only. From 10^21 up,
  `toString` switches to exponent form (`1e+21`), which `IntToString` does not produce.
  `toString` of a fractional or NaN page or limit, and the truthiness of NaN, are not
  modelled.
- CreatePost.Issues: string lengths count Unicode characters, while zod's `.min` counts
  UTF-16 code units. So a timezone of one character outside the Basic Multilingual Plane
  passes the source's check and fails the model's.
- The icon lookup is modelled on the record's own four keys. Inherited object properties,
  such as `constructor`, are not modelled.
- The zod message of the content-type enum check is zod's own text. `IssueMessage` gives
  none for it.
- The optional chaining `payload.data?.` in the verification query. `data` is always given
  there, so only the absent and empty parameters are modelled.
- Media-service calls are not modelled: `uploadMultipleMedia`, and `deleteMedia` beyond its
  success flag. Nor are the workspace-service methods defined outside the files shown.

## Findings

| source | as written | input that shows it | evidently intended | confidence | as-written member | corrected member |
|---|---|---|---|---|---|---|
| src/app/dashboard/social-accounts/success/page.tsx:121 | The bulk add sends `platformPages.map(page => page.id)`: every offered page, whatever the checkboxes say. | Two pages `a` and `b` are offered and only `a` is checked. The payload still holds both ids. | The page asks the user to "select the pages you want to connect", and Proceed is disabled while nothing is selected. The selected page ids should be sent. | not executed; high | SocialCallback.BulkPayloadIgnoresSelection | SocialCallback.CallbackPage.SelectedBulkPayload |

/**
 * The create-post page (src/app/dashboard/content/create-post/page.tsx): the form schema, the
 * default values, the profile toggle and the payload `onSubmit` sends.
 */
module CreatePost {
  import opened Wrappers
  import opened IdLists
  import opened PostService

  /** The form's values as the form holds them; the content type is still text. */
  datatype FormValues = FormValues(
    content: string,
    contentType: string,
    socialProfileIds: seq<string>,
    mediaIds: Option<seq<string>>,
    timezone: string,
    scheduledAt: string,
    isAutoSchedule: Option<bool>,
    campaignId: Option<string>,
    labelIds: Option<seq<string>>,
    needsApproval: Option<bool>,
    overrides: Option<seq<Override>>,
    threads: Option<seq<Thread>>)

  /** The values `formSchema` accepts, with the content type read. */
  datatype FormData = FormData(
    content: string,
    contentType: ContentType,
    socialProfileIds: seq<string>,
    mediaIds: Option<seq<string>>,
    timezone: string,
    scheduledAt: string,
    isAutoSchedule: Option<bool>,
    campaignId: Option<string>,
    labelIds: Option<seq<string>>,
    needsApproval: Option<bool>,
    overrides: Option<seq<Override>>,
    threads: Option<seq<Thread>>)

  /** The checks of `formSchema` that can fail, in field order. */
  datatype Issue = ContentRequired | InvalidContentType | ProfileRequired | TimezoneRequired

  /** The messages the schema gives; the enum check keeps zod's own message. Each message of
      the schema's own says that its field is required. */
  function IssueMessage(i: Issue): (m: Option<string>)
    ensures m.None? <==> i == InvalidContentType
    ensures m.Some? ==> |m.value| > 12 && m.value[|m.value| - 12..] == " is required"
  {
    match i
    case ContentRequired => Some("Content is required")
    case InvalidContentType => None
    case ProfileRequired => Some("Social profile is required")
    case TimezoneRequired => Some("Timezone is required")
  }

  /** The schema's own messages tell its checks apart. */
  lemma IssueMessagesDistinct(i: Issue, j: Issue)
    requires i != j && IssueMessage(i).Some? && IssueMessage(j).Some?
    ensures IssueMessage(i) != IssueMessage(j)
  {
  }

  /** `defaultValues` of the form. */
  function Defaults(): FormValues {
    FormValues("", "POST", [], Some([]), "", "", Some(false), Some(""), Some([]), Some(false),
      Some([]), Some([]))
  }

  /** Every failing check of the schema, in field order. */
  function Issues(v: FormValues): (issues: seq<Issue>)
    ensures ContentRequired in issues <==> |v.content| < 1
    ensures InvalidContentType in issues <==> ParseContentType(v.contentType).None?
    ensures ProfileRequired in issues <==> |v.socialProfileIds| < 1
    ensures TimezoneRequired in issues <==> |v.timezone| < 2
    ensures |issues| <= 4
  {
    (if |v.content| < 1 then [ContentRequired] else [])
    + (if ParseContentType(v.contentType).None? then [InvalidContentType] else [])
    + (if |v.socialProfileIds| < 1 then [ProfileRequired] else [])
    + (if |v.timezone| < 2 then [TimezoneRequired] else [])
  }

  /** `formSchema` applied to the form's values: the data, or every issue found. */
  function Validate(v: FormValues): (r: Result<FormData, seq<Issue>>)
    ensures r.Success? <==> Issues(v) == []
    ensures r.Failure? ==> r.error == Issues(v) && r.error != []
    ensures r.Success? ==> ContentTypeName(r.value.contentType) == v.contentType
  {
    var issues := Issues(v);
    if issues != [] then Failure(issues)
    else
      var ct := ParseContentType(v.contentType);
      Success(FormData(v.content, ct.value, v.socialProfileIds, v.mediaIds, v.timezone,
        v.scheduledAt, v.isAutoSchedule, v.campaignId, v.labelIds, v.needsApproval,
        v.overrides, v.threads))
  }

  /** The form as loaded fails on content, profiles and timezone, but not on its content
      type, which is POST. */
  lemma DefaultsRejected()
    ensures Validate(Defaults()) == Failure([ContentRequired, ProfileRequired, TimezoneRequired])
    ensures ParseContentType(Defaults().contentType) == Some(POST)
  {
    var v := Defaults();
    assert ParseContentType(v.contentType) == Some(POST);
    assert Issues(v) == [ContentRequired] + [] + [ProfileRequired] + [TimezoneRequired];
    assert [ContentRequired] + [] + [ProfileRequired] + [TimezoneRequired]
      == [ContentRequired, ProfileRequired, TimezoneRequired];
  }

  /** Accepted data leaves everything else of the form as it was. */
  lemma ValidateKeeps(v: FormValues)
    requires Validate(v).Success?
    ensures var d := Validate(v).value;
      && d.content == v.content && d.socialProfileIds == v.socialProfileIds
      && d.mediaIds == v.mediaIds && d.timezone == v.timezone && d.scheduledAt == v.scheduledAt
      && d.isAutoSchedule == v.isAutoSchedule && d.needsApproval == v.needsApproval
  {
  }

  /** The payload `onSubmit` sends: eight fields copied, the commented-out ones absent. */
  function Payload(d: FormData): CreatePostPayload {
    CreatePostPayload(d.content, d.contentType, d.socialProfileIds, d.mediaIds, d.timezone,
      d.scheduledAt, d.isAutoSchedule, None, None, d.needsApproval, None, None)
  }

  /**
   * What reaches the service from a submitted form: the content as typed, never split or
   * cut, at least one profile, a timezone of two characters or more, and no campaign,
   * labels, overrides or threads, whatever the form held for them.
   */
  lemma SubmittedPayload(v: FormValues)
    requires Validate(v).Success?
    ensures var p := Payload(Validate(v).value);
      && p.content == v.content && |p.content| >= 1
      && p.socialProfileIds == v.socialProfileIds && |p.socialProfileIds| >= 1
      && |p.timezone| >= 2 && ContentTypeName(p.contentType) == v.contentType
      && p.mediaIds == v.mediaIds && p.scheduledAt == v.scheduledAt
      && p.isAutoSchedule == v.isAutoSchedule && p.needsApproval == v.needsApproval
      && p.campaignId.None? && p.labelIds.None? && p.overrides.None? && p.threads.None?
  {
  }

  /** The form's state; the profile buttons replace its `socialProfileIds`. */
  class PostForm {
    var values: FormValues

    /** `useForm({ defaultValues })` */
    constructor()
      ensures values == Defaults()
    {
      values := Defaults();
    }

    /** The `onClick` of a profile button: deselect the profile if selected, else select it. */
    method ToggleProfile(profileId: string)
      modifies this
      ensures values == old(values).(socialProfileIds := Toggle(old(values.socialProfileIds), profileId))
      ensures Selected(profileId) <==> !old(Selected(profileId))
      ensures forall q :: q != profileId ==> (Selected(q) <==> old(Selected(q)))
    {
      values := values.(socialProfileIds := Toggle(values.socialProfileIds, profileId));
    }

    /** Whether a profile button shows as selected. */
    function Selected(profileId: string): (r: bool)
      reads this
      ensures r <==> profileId in values.socialProfileIds
    {
      profileId in values.socialProfileIds
    }
  }
}

/**
 * The workspace settings panel (src/components/settings/user-workspaces.tsx): the plan's
 * workspace limit, the create guard and payload, and the switch and delete dialogs.
 */
module UserWorkspaces {
  import opened Wrappers
  import opened AppStore

  /** A workspace as the organization's list returns it. */
  datatype Workspace = Workspace(id: string, name: string, slug: string, createdAt: string)

  /** What the panel reads of the cached user profile; anything missing is `None`. */
  datatype Profile = Profile(
    email: Option<string>,
    lastActiveWorkspace: Option<string>,
    organizationName: Option<string>,
    maxWorkspaces: Option<int>)

  /** `CreateWorkspacePayload`; a field read from a missing profile entry is `None`. */
  datatype CreateWorkspacePayload = CreateWorkspacePayload(
    name: string,
    clientName: Option<string>,
    clientStatus: string,
    clientContact: Option<string>,
    clientColor: string)

  /** `plan?.maxWorkspaces ?? 1`: the plan's limit, or one workspace when the plan gives none. */
  function MaxWorkspaces(p: Profile): (m: int)
    ensures p.maxWorkspaces.None? ==> m == 1
    ensures p.maxWorkspaces.Some? ==> m == p.maxWorkspaces.value
  {
    p.maxWorkspaces.GetOr(1)
  }

  /** `data?.length >= organizationMaxWorkspace`, false while the list is not loaded. */
  function IsLimitReached(data: Option<seq<Workspace>>, p: Profile): (b: bool)
    ensures b <==> data.Some? && |data.value| >= MaxWorkspaces(p)
    ensures data.None? ==> !b
  {
    match data
    case None => false
    case Some(ws) => |ws| >= MaxWorkspaces(p)
  }

  /** `handleCreateWorkspace`: the payload sent, or nothing when the limit is reached. */
  function HandleCreate(name: string, data: Option<seq<Workspace>>, p: Profile): (r: Option<CreateWorkspacePayload>)
    ensures r.None? <==> IsLimitReached(data, p)
    ensures r.Some? ==> r.value.name == name && r.value.clientStatus == "Active" && r.value.clientColor == "#FF0000"
    ensures r.Some? ==> r.value.clientName == p.organizationName && r.value.clientContact == p.email
  {
    if IsLimitReached(data, p) then None
    else Some(CreateWorkspacePayload(name, p.organizationName, "Active", p.email, "#FF0000"))
  }

  /** With no plan limit, one loaded workspace already blocks creation; none loaded does not. */
  lemma DefaultLimitIsOne(p: Profile, w: Workspace)
    requires p.maxWorkspaces.None?
    ensures IsLimitReached(Some([w]), p)
    ensures !IsLimitReached(Some([]), p)
    ensures HandleCreate("n", Some([w]), p).None?
  {
  }

  /** `lastWorkspace ?? lastActiveWorkspace ?? ""` */
  function InitialWorkspace(lastWorkspace: Option<string>, p: Profile): (w: string)
    ensures lastWorkspace.Some? ==> w == lastWorkspace.value
    ensures lastWorkspace.None? && p.lastActiveWorkspace.Some? ==> w == p.lastActiveWorkspace.value
    ensures lastWorkspace.None? && p.lastActiveWorkspace.None? ==> w == ""
  {
    match lastWorkspace
    case Some(w) => w
    case None => p.lastActiveWorkspace.GetOr("")
  }

  /** The panel's state cells. */
  class WorkspaceSettings {
    var currentWorkspace: string
    var selectedWorkspace: Option<Workspace>
    var isCreateModalOpen: bool
    var isDeleteModalOpen: bool
    var isSwitchModalOpen: bool

    constructor(lastWorkspace: Option<string>, p: Profile)
      ensures currentWorkspace == InitialWorkspace(lastWorkspace, p)
      ensures selectedWorkspace.None? && !isCreateModalOpen && !isDeleteModalOpen && !isSwitchModalOpen
    {
      currentWorkspace := InitialWorkspace(lastWorkspace, p);
      selectedWorkspace := None;
      isCreateModalOpen := false;
      isDeleteModalOpen := false;
      isSwitchModalOpen := false;
    }

    /** The create button, which does nothing while disabled. */
    method OpenCreate(data: Option<seq<Workspace>>, p: Profile)
      modifies this
      ensures isCreateModalOpen == (old(isCreateModalOpen) || !IsLimitReached(data, p))
      ensures currentWorkspace == old(currentWorkspace) && selectedWorkspace == old(selectedWorkspace)
      ensures isDeleteModalOpen == old(isDeleteModalOpen) && isSwitchModalOpen == old(isSwitchModalOpen)
    {
      if !IsLimitReached(data, p) {
        isCreateModalOpen := true;
      }
    }

    /** `toggleSwitchWorkspace`: the switch dialog opens only for another workspace. */
    method ToggleSwitch(w: Workspace)
      modifies this
      ensures w.id != old(currentWorkspace) ==> selectedWorkspace == Some(w) && isSwitchModalOpen
      ensures w.id == old(currentWorkspace) ==>
        selectedWorkspace == old(selectedWorkspace) && isSwitchModalOpen == old(isSwitchModalOpen)
      ensures currentWorkspace == old(currentWorkspace) && isCreateModalOpen == old(isCreateModalOpen)
      ensures isDeleteModalOpen == old(isDeleteModalOpen)
    {
      if currentWorkspace != w.id {
        selectedWorkspace := Some(w);
        isSwitchModalOpen := true;
      }
    }

    /** `toggleDeleteWorkspace`: the delete dialog opens for the workspace. */
    method ToggleDelete(w: Workspace)
      modifies this
      ensures selectedWorkspace == Some(w) && isDeleteModalOpen
      ensures currentWorkspace == old(currentWorkspace) && isCreateModalOpen == old(isCreateModalOpen)
      ensures isSwitchModalOpen == old(isSwitchModalOpen)
    {
      selectedWorkspace := Some(w);
      isDeleteModalOpen := true;
    }

    /** The workspace `handleDeleteWorkspace` and `handleSwitchWorkspace` send a request for:
        the selected one, or none when nothing is selected. */
    function Target(): (r: Option<string>)
      reads this
      ensures r.Some? <==> selectedWorkspace.Some?
      ensures r.Some? ==> r.value == selectedWorkspace.value.id
    {
      match selectedWorkspace
      case None => None
      case Some(w) => Some(w.id)
    }

    /** A successful switch records the target in the store and as the current workspace,
        and closes the dialog. */
    method OnSwitchSuccess(store: Store, workspaceId: string)
      modifies this, store
      ensures store.State() == old(store.State()).(lastWorkspace := Some(workspaceId))
      ensures currentWorkspace == workspaceId && !isSwitchModalOpen
      ensures selectedWorkspace == old(selectedWorkspace) && isCreateModalOpen == old(isCreateModalOpen)
      ensures isDeleteModalOpen == old(isDeleteModalOpen)
    {
      store.SetLastWorkspace(Some(workspaceId));
      currentWorkspace := workspaceId;
      isSwitchModalOpen := false;
    }

    /** A successful create closes its dialog. */
    method OnCreateSuccess()
      modifies this
      ensures !isCreateModalOpen
      ensures currentWorkspace == old(currentWorkspace) && selectedWorkspace == old(selectedWorkspace)
      ensures isDeleteModalOpen == old(isDeleteModalOpen) && isSwitchModalOpen == old(isSwitchModalOpen)
    {
      isCreateModalOpen := false;
    }

    /** A successful delete closes its dialog. */
    method OnDeleteSuccess()
      modifies this
      ensures !isDeleteModalOpen
      ensures currentWorkspace == old(currentWorkspace) && selectedWorkspace == old(selectedWorkspace)
      ensures isCreateModalOpen == old(isCreateModalOpen) && isSwitchModalOpen == old(isSwitchModalOpen)
    {
      isDeleteModalOpen := false;
    }
  }
}

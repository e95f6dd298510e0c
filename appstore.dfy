/**
 * The session store (src/store/app-store.ts): a record of nullable fields with one setter
 * each, `clearAuth`, the projection that is persisted, and the rehydration callback.
 * `lastWorkspace` is read and set by the components but not declared in the store; it is
 * one more nullable field here.
 */
module AppStore {
  import opened Wrappers

  /** `UserType` (src/types.ts). */
  datatype User = User(
    avatar: Option<string>,
    email: string,
    firstName: string,
    lastName: string,
    role: string,
    timezone: string,
    lastActiveAt: Option<string>,
    id: string,
    isEmailVerified: bool)

  /** The store's data fields; `null` is `None`. */
  datatype StoreState = StoreState(
    accessToken: Option<string>,
    refreshToken: Option<string>,
    hasHydrated: bool,
    user: Option<User>,
    organizationId: Option<string>,
    reference: Option<string>,
    platform: Option<string>,
    lastWorkspace: Option<string>)

  /** What `partialize` keeps for storage. */
  datatype Persisted = Persisted(accessToken: Option<string>)

  /** The store as created: every nullable field null, not hydrated. */
  function InitialState(): (s: StoreState)
    ensures s.accessToken.None? && s.refreshToken.None? && s.user.None?
    ensures s.organizationId.None? && s.reference.None? && s.platform.None? && s.lastWorkspace.None?
    ensures !s.hasHydrated
  {
    StoreState(None, None, false, None, None, None, None, None)
  }

  /** The state `clearAuth` leaves. */
  function Cleared(s: StoreState): StoreState {
    s.(accessToken := None, refreshToken := None, user := None, organizationId := None,
       reference := None, platform := None)
  }

  /** `partialize`: only the access token is written to storage. */
  function Partialize(s: StoreState): Persisted {
    Persisted(s.accessToken)
  }

  /** Rehydration merges what was stored over the state, shallowly. */
  function Merge(s: StoreState, p: Persisted): StoreState {
    s.(accessToken := p.accessToken)
  }

  /** `clearAuth` forgets the session but keeps whether the store has hydrated, and what
      it persists afterwards carries no token. */
  lemma ClearedForgets(s: StoreState)
    ensures var c := Cleared(s);
      && c.hasHydrated == s.hasHydrated && c.lastWorkspace == s.lastWorkspace
      && c == InitialState().(hasHydrated := s.hasHydrated, lastWorkspace := s.lastWorkspace)
      && Partialize(c) == Persisted(None)
  {
  }

  /** Storing a state and rehydrating it into another brings back the access token and
      nothing else. */
  lemma PersistRoundTrip(saved: StoreState, current: StoreState)
    ensures Merge(current, Partialize(saved)).accessToken == saved.accessToken
    ensures Merge(current, Partialize(saved)) == current.(accessToken := saved.accessToken)
  {
  }

  /** Rehydrating what the state itself would store changes nothing. */
  lemma MergeOwn(s: StoreState)
    ensures Merge(s, Partialize(s)) == s
  {
  }

  /** How rehydration ends: a stored state (if any) was read, or reading failed. */
  datatype Rehydration = Restored(saved: Option<Persisted>) | Failed

  /** The zustand store. */
  class Store {
    var accessToken: Option<string>
    var refreshToken: Option<string>
    var hasHydrated: bool
    var user: Option<User>
    var organizationId: Option<string>
    var reference: Option<string>
    var platform: Option<string>
    var lastWorkspace: Option<string>

    /** The fields as one value. */
    function State(): StoreState
      reads this
    {
      StoreState(accessToken, refreshToken, hasHydrated, user, organizationId, reference,
        platform, lastWorkspace)
    }

    constructor()
      ensures State() == InitialState()
    {
      accessToken := None;
      refreshToken := None;
      hasHydrated := false;
      user := None;
      organizationId := None;
      reference := None;
      platform := None;
      lastWorkspace := None;
    }

    method SetAccessToken(value: Option<string>)
      modifies this
      ensures State() == old(State()).(accessToken := value)
    {
      accessToken := value;
    }

    method SetRefreshToken(value: Option<string>)
      modifies this
      ensures State() == old(State()).(refreshToken := value)
    {
      refreshToken := value;
    }

    method SetHasHydrated(value: bool)
      modifies this
      ensures State() == old(State()).(hasHydrated := value)
    {
      hasHydrated := value;
    }

    method SetUser(value: Option<User>)
      modifies this
      ensures State() == old(State()).(user := value)
    {
      user := value;
    }

    method SetOrganizationId(value: Option<string>)
      modifies this
      ensures State() == old(State()).(organizationId := value)
    {
      organizationId := value;
    }

    method SetReference(value: Option<string>)
      modifies this
      ensures State() == old(State()).(reference := value)
    {
      reference := value;
    }

    method SetPlatform(value: Option<string>)
      modifies this
      ensures State() == old(State()).(platform := value)
    {
      platform := value;
    }

    method SetLastWorkspace(value: Option<string>)
      modifies this
      ensures State() == old(State()).(lastWorkspace := value)
    {
      lastWorkspace := value;
    }

    /** `clearAuth` */
    method ClearAuth()
      modifies this
      ensures State() == Cleared(old(State()))
    {
      accessToken := None;
      refreshToken := None;
      user := None;
      organizationId := None;
      reference := None;
      platform := None;
    }

    /** What is written to storage. */
    function Persist(): Persisted
      reads this
    {
      Partialize(State())
    }

    /** Rehydration: the stored fields are merged in, and `onRehydrateStorage` marks the
        store hydrated whenever it is handed a state, that is, unless reading failed. */
    method Rehydrate(outcome: Rehydration)
      modifies this
      ensures outcome.Failed? ==> State() == old(State())
      ensures outcome == Restored(None) ==> State() == old(State()).(hasHydrated := true)
      ensures outcome.Restored? && outcome.saved.Some? ==>
        State() == Merge(old(State()), outcome.saved.value).(hasHydrated := true)
    {
      if outcome.Restored? {
        if outcome.saved.Some? {
          accessToken := outcome.saved.value.accessToken;
        }
        SetHasHydrated(true);
      }
    }
  }
}

/** The session store: the signed-in user, their profile, the user's settings and
    the loading/initialized flags, with the transitions of checkAuth, signIn,
    signUp and signOut given the replies of the authentication service. */
module AuthStore {
  import opened Common
  import opened Supabase

  // ---------------------------------------------------------------------------
  // Settings

  datatype ViewMode = Grid | List | Table

  /** The thirteen settings. `autoSaveInterval` is a number that parseInt may have
      made NaN; `None` stands for NaN. */
  datatype Settings = Settings(
    autoReload: bool,
    defaultViewMode: ViewMode,
    autoSaveInterval: Option<int>,
    showVersionHistory: bool,
    enableAnnotations: bool,
    enableComments: bool,
    emailNotifications: bool,
    documentUpdates: bool,
    commentNotifications: bool,
    versionUpdates: bool,
    twoFactorAuth: bool,
    requireApproval: bool,
    documentWatermark: bool)

  function DefaultSettings(): Settings
  {
    Settings(true, Grid, Some(5), true, true, true, true, true, true, true, false, true, true)
  }

  /** The eleven on/off settings, in declaration order. */
  function Flags(s: Settings): seq<bool>
  {
    [s.autoReload, s.showVersionHistory, s.enableAnnotations, s.enableComments,
     s.emailNotifications, s.documentUpdates, s.commentNotifications, s.versionUpdates,
     s.twoFactorAuth, s.requireApproval, s.documentWatermark]
  }

  const TwoFactorFlag := 8

  /** By default the view is the grid, the interval 5, and every flag is on except
      two-factor authentication. */
  lemma DefaultsOnlyTwoFactorOff()
    ensures DefaultSettings().defaultViewMode == Grid && DefaultSettings().autoSaveInterval == Some(5)
    ensures |Flags(DefaultSettings())| == 11 && Flags(DefaultSettings())[TwoFactorFlag] == DefaultSettings().twoFactorAuth
    ensures forall i :: 0 <= i < |Flags(DefaultSettings())| ==> (Flags(DefaultSettings())[i] <==> i != TwoFactorFlag)
  {
  }

  /** A `Partial<Settings>`: each key either given or absent. */
  datatype SettingsPatch = SettingsPatch(
    autoReload: Option<bool>,
    defaultViewMode: Option<ViewMode>,
    autoSaveInterval: Option<Option<int>>,
    showVersionHistory: Option<bool>,
    enableAnnotations: Option<bool>,
    enableComments: Option<bool>,
    emailNotifications: Option<bool>,
    documentUpdates: Option<bool>,
    commentNotifications: Option<bool>,
    versionUpdates: Option<bool>,
    twoFactorAuth: Option<bool>,
    requireApproval: Option<bool>,
    documentWatermark: Option<bool>)

  const NoChanges := SettingsPatch(None, None, None, None, None, None, None, None, None, None, None, None, None)

  /** The patch that gives every key, as a submitted settings form does. */
  function FullPatch(s: Settings): SettingsPatch
  {
    SettingsPatch(Some(s.autoReload), Some(s.defaultViewMode), Some(s.autoSaveInterval),
      Some(s.showVersionHistory), Some(s.enableAnnotations), Some(s.enableComments),
      Some(s.emailNotifications), Some(s.documentUpdates), Some(s.commentNotifications),
      Some(s.versionUpdates), Some(s.twoFactorAuth), Some(s.requireApproval), Some(s.documentWatermark))
  }

  function Pick<T>(given: Option<T>, current: T): T
  {
    if given.Some? then given.value else current
  }

  /** `{ ...settings, ...patch }`. */
  function Merge(s: Settings, p: SettingsPatch): Settings
  {
    Settings(
      Pick(p.autoReload, s.autoReload),
      Pick(p.defaultViewMode, s.defaultViewMode),
      Pick(p.autoSaveInterval, s.autoSaveInterval),
      Pick(p.showVersionHistory, s.showVersionHistory),
      Pick(p.enableAnnotations, s.enableAnnotations),
      Pick(p.enableComments, s.enableComments),
      Pick(p.emailNotifications, s.emailNotifications),
      Pick(p.documentUpdates, s.documentUpdates),
      Pick(p.commentNotifications, s.commentNotifications),
      Pick(p.versionUpdates, s.versionUpdates),
      Pick(p.twoFactorAuth, s.twoFactorAuth),
      Pick(p.requireApproval, s.requireApproval),
      Pick(p.documentWatermark, s.documentWatermark))
  }

  /** The settings' keys, and a value of any of their types, so that a statement
      can range over all thirteen keys at once. */
  datatype Key =
    | AutoReload | DefaultViewMode | AutoSaveInterval | ShowVersionHistory | EnableAnnotations
    | EnableComments | EmailNotifications | DocumentUpdates | CommentNotifications
    | VersionUpdates | TwoFactorAuth | RequireApproval | DocumentWatermark

  datatype Value = FlagValue(flag: bool) | ViewValue(view: ViewMode) | NumberValue(number: Option<int>)

  function Get(s: Settings, k: Key): Value
  {
    match k
    case AutoReload => FlagValue(s.autoReload)
    case DefaultViewMode => ViewValue(s.defaultViewMode)
    case AutoSaveInterval => NumberValue(s.autoSaveInterval)
    case ShowVersionHistory => FlagValue(s.showVersionHistory)
    case EnableAnnotations => FlagValue(s.enableAnnotations)
    case EnableComments => FlagValue(s.enableComments)
    case EmailNotifications => FlagValue(s.emailNotifications)
    case DocumentUpdates => FlagValue(s.documentUpdates)
    case CommentNotifications => FlagValue(s.commentNotifications)
    case VersionUpdates => FlagValue(s.versionUpdates)
    case TwoFactorAuth => FlagValue(s.twoFactorAuth)
    case RequireApproval => FlagValue(s.requireApproval)
    case DocumentWatermark => FlagValue(s.documentWatermark)
  }

  /** The value a patch gives for a key, if it gives one. */
  function Given(p: SettingsPatch, k: Key): Option<Value>
  {
    match k
    case AutoReload => if p.autoReload.Some? then Some(FlagValue(p.autoReload.value)) else None
    case DefaultViewMode => if p.defaultViewMode.Some? then Some(ViewValue(p.defaultViewMode.value)) else None
    case AutoSaveInterval => if p.autoSaveInterval.Some? then Some(NumberValue(p.autoSaveInterval.value)) else None
    case ShowVersionHistory => if p.showVersionHistory.Some? then Some(FlagValue(p.showVersionHistory.value)) else None
    case EnableAnnotations => if p.enableAnnotations.Some? then Some(FlagValue(p.enableAnnotations.value)) else None
    case EnableComments => if p.enableComments.Some? then Some(FlagValue(p.enableComments.value)) else None
    case EmailNotifications => if p.emailNotifications.Some? then Some(FlagValue(p.emailNotifications.value)) else None
    case DocumentUpdates => if p.documentUpdates.Some? then Some(FlagValue(p.documentUpdates.value)) else None
    case CommentNotifications => if p.commentNotifications.Some? then Some(FlagValue(p.commentNotifications.value)) else None
    case VersionUpdates => if p.versionUpdates.Some? then Some(FlagValue(p.versionUpdates.value)) else None
    case TwoFactorAuth => if p.twoFactorAuth.Some? then Some(FlagValue(p.twoFactorAuth.value)) else None
    case RequireApproval => if p.requireApproval.Some? then Some(FlagValue(p.requireApproval.value)) else None
    case DocumentWatermark => if p.documentWatermark.Some? then Some(FlagValue(p.documentWatermark.value)) else None
  }

  /** updateSettings overrides exactly the keys the patch gives: each given key
      takes the patch's value, each other key keeps its old one. */
  lemma MergeOverridesGivenKeys(s: Settings, p: SettingsPatch, k: Key)
    ensures Get(Merge(s, p), k) == if Given(p, k).Some? then Given(p, k).value else Get(s, k)
  {
    match k
    case AutoReload =>
    case DefaultViewMode =>
    case AutoSaveInterval =>
    case ShowVersionHistory =>
    case EnableAnnotations =>
    case EnableComments =>
    case EmailNotifications =>
    case DocumentUpdates =>
    case CommentNotifications =>
    case VersionUpdates =>
    case TwoFactorAuth =>
    case RequireApproval =>
    case DocumentWatermark =>
  }

  /** An empty patch changes nothing. */
  lemma MergeNoChanges(s: Settings)
    ensures Merge(s, NoChanges) == s
  {
  }

  /** Applying the same patch twice is applying it once. */
  lemma MergeIdempotent(s: Settings, p: SettingsPatch)
    ensures Merge(Merge(s, p), p) == Merge(s, p)
  {
  }

  /** A patch giving every key replaces the settings whatever they were. */
  lemma FullPatchOverwrites(s: Settings, t: Settings)
    ensures Merge(s, FullPatch(t)) == t
  {
  }

  // ---------------------------------------------------------------------------
  // Replies of the authentication service

  /** getSession: an error, no session (or one without a user), a thrown
      exception, or a session's user. */
  datatype SessionReply = SessionError | NoSession | SessionThrew | Session(user: User)

  /** The profiles select by id with `.single()`: the row, an error reply, or a
      thrown exception. */
  datatype ProfileReply = ProfileRow(profile: Profile) | ProfileError | ProfileThrew(failure: Failure)

  /** signInWithPassword: an error reply (rethrown), or the user it returned. */
  datatype SignInReply = SignInFailed(failure: Failure) | SignedIn(user: Option<User>)

  /** What the persist middleware writes to session storage. */
  datatype Persisted = Persisted(user: Option<User>, profile: Option<Profile>, settings: Settings)

  datatype Snapshot = Snapshot(user: Option<User>, profile: Option<Profile>, settings: Settings,
                               loading: bool, initialized: bool)

  /** partialize: only user, profile and settings are kept. */
  function Partialize(s: Snapshot): Persisted
  {
    Persisted(s.user, s.profile, s.settings)
  }

  /** Two states that differ only in loading and initialized persist identically,
      and the persisted record determines the three fields it keeps. */
  lemma PartializeDropsFlags(s: Snapshot, loading: bool, initialized: bool)
    ensures Partialize(s.(loading := loading, initialized := initialized)) == Partialize(s)
    ensures var p := Partialize(s); p.user == s.user && p.profile == s.profile && p.settings == s.settings
  {
  }

  class AuthState {
    var user: Option<User>
    var profile: Option<Profile>
    var settings: Settings
    var loading: bool
    var initialized: bool

    constructor ()
      ensures user == None && profile == None && settings == DefaultSettings()
      ensures loading && !initialized
    {
      user := None;
      profile := None;
      settings := DefaultSettings();
      loading := true;
      initialized := false;
    }

    function State(): Snapshot
      reads this
    {
      Snapshot(user, profile, settings, loading, initialized)
    }

    method SetUser(u: Option<User>)
      modifies this`user
      ensures user == u
    {
      user := u;
    }

    method SetProfile(p: Option<Profile>)
      modifies this`profile
      ensures profile == p
    {
      profile := p;
    }

    method SetLoading(b: bool)
      modifies this`loading
      ensures loading == b
    {
      loading := b;
    }

    method SetInitialized(b: bool)
      modifies this`initialized
      ensures initialized == b
    {
      initialized := b;
    }

    method UpdateSettings(patch: SettingsPatch)
      modifies this`settings
      ensures settings == Merge(old(settings), patch)
    {
      settings := Merge(settings, patch);
    }

    /** checkAuth. Every path ends loaded and initialized; settings are untouched. */
    method CheckAuth(session: SessionReply, profileReply: ProfileReply)
      modifies this`user, this`profile, this`loading, this`initialized
      ensures !loading && initialized
      ensures !session.Session? ==> user == None && profile == None
      ensures session.Session? ==>
        match profileReply
        case ProfileRow(p) => user == Some(session.user) && profile == Some(p)
        case ProfileError => user == Some(session.user) && profile == None
        case ProfileThrew(_) => user == None && profile == None
    {
      match session {
        case SessionError =>
          user, profile, loading, initialized := None, None, false, true;
        case NoSession =>
          user, profile, loading, initialized := None, None, false, true;
        case SessionThrew =>
          user, profile, loading, initialized := None, None, false, true;
        case Session(u) =>
          user := Some(u);
          match profileReply {
            case ProfileRow(p) =>
              profile, loading, initialized := Some(p), false, true;
            case ProfileError =>
              profile, loading, initialized := None, false, true;
            case ProfileThrew(_) =>
              user, profile, loading, initialized := None, None, false, true;
          }
      }
    }

    /** signIn. The profile select's own error is ignored (its data is null then);
        an exception from it propagates with the user already set. */
    method SignIn(reply: SignInReply, profileReply: ProfileReply) returns (outcome: Outcome)
      modifies this`user, this`profile, this`loading, this`initialized
      ensures !loading && initialized
      ensures reply.SignInFailed? ==>
        outcome == Threw(reply.failure) && user == old(user) && profile == old(profile)
      ensures reply.SignedIn? ==> user == reply.user
      ensures reply.SignedIn? && reply.user.None? ==> outcome == Done && profile == old(profile)
      ensures reply.SignedIn? && reply.user.Some? ==>
        match profileReply
        case ProfileRow(p) => outcome == Done && profile == Some(p)
        case ProfileError => outcome == Done && profile == None
        case ProfileThrew(f) => outcome == Threw(f) && profile == old(profile)
    {
      loading := true;
      match reply {
        case SignInFailed(f) =>
          outcome := Threw(f);
        case SignedIn(u) =>
          user := u;
          outcome := Done;
          if u.Some? {
            match profileReply {
              case ProfileRow(p) => profile := Some(p);
              case ProfileError => profile := None;
              case ProfileThrew(f) => outcome := Threw(f);
            }
          }
      }
      loading, initialized := false, true;
    }

    /** signUp: user and profile wait for the e-mail confirmation, so only the
        flags change. */
    method SignUp(reply: Outcome) returns (outcome: Outcome)
      modifies this`loading, this`initialized
      ensures !loading && initialized && outcome == reply
    {
      loading := true;
      outcome := reply;
      loading, initialized := false, true;
    }

    /** signOut. On success everything is cleared and the settings go back to the
        defaults; on failure only loading changes and the error is rethrown. */
    method SignOut(reply: Outcome) returns (outcome: Outcome)
      modifies this`user, this`profile, this`settings, this`loading, this`initialized
      ensures !loading && outcome == reply
      ensures reply.Done? ==>
        user == None && profile == None && settings == DefaultSettings() && initialized
      ensures reply.Threw? ==>
        user == old(user) && profile == old(profile) && settings == old(settings)
        && initialized == old(initialized)
    {
      loading := true;
      if reply.Done? {
        user, profile, loading, initialized, settings := None, None, false, true, DefaultSettings();
      }
      outcome := reply;
      loading := false;
    }
  }
}

/** The renderer slice of the application store: its state record, the initial
    state, and the reducers that update the state in place. */
module RendererSlice {
  import opened Wrappers

  /** A dynamic value, standing for the payloads the source types as `any`
      (dialog data, sub-navigation data, formats, the season record). */
  datatype Value =
    | Null
    | Bool(b: bool)
    | Number(n: int)
    | Text(s: string)
    | List(items: seq<Value>)
    | Record(fields: map<string, Value>)

  datatype Patreon = Patreon(patreon: bool, patreonTier: int)

  datatype SyncToPush = SyncToPush(
    courses: seq<string>,
    matches: seq<string>,
    drafts: seq<string>,
    economy: seq<string>,
    seasonal: seq<string>)

  datatype Popup = Popup(text: string, time: int, duration: int)

  /** The share dialog; the source's `type` field is `kind` here. */
  datatype ShareDialog = ShareDialog(open: bool, url: string, kind: string, data: Value, id: string)

  /** A `Partial<ShareDialog>`: each field may be left out. */
  datatype ShareDialogPatch = ShareDialogPatch(
    open: Option<bool>,
    url: Option<string>,
    kind: Option<string>,
    data: Option<Value>,
    id: Option<string>)

  /** The sub-navigation target; `data` is optional (`None` when absent). */
  datatype SubNav = SubNav(kind: int, id: string, data: Option<Value>)

  /** The payload of `setArchived`. */
  datatype ArchivedPayload = ArchivedPayload(id: string, archived: bool)

  /** The whole renderer state, as a value. */
  datatype State = State(
    archivedCache: map<string, bool>,
    backgroundColor: string,
    backgroundGrpId: int,
    backgroundImage: string,
    loading: bool,
    noLog: bool,
    offline: bool,
    patreon: Patreon,
    role: int,
    syncState: int,
    syncToPush: SyncToPush,
    popup: Popup,
    formats: map<string, Value>,
    season: Value,
    rewards_daily_ends: string,
    rewards_weekly_ends: string,
    authSettings: bool,
    shareDialog: ShareDialog,
    detailedLogsDialog: bool,
    subNav: SubNav,
    topArtist: string,
    topNav: int,
    navIndex: int,
    updateState: string)

  /** The fields of `State`, to say which ones a reducer may change. */
  datatype Field =
    | ArchivedCacheField | BackgroundColorField | BackgroundGrpIdField | BackgroundImageField
    | LoadingField | NoLogField | OfflineField | PatreonField | RoleField | SyncStateField
    | SyncToPushField | PopupField | FormatsField | SeasonField | RewardsDailyEndsField
    | RewardsWeeklyEndsField | AuthSettingsField | ShareDialogField | DetailedLogsDialogField
    | SubNavField | TopArtistField | TopNavField | NavIndexField | UpdateStateField

  /** The fields a reducer writes: `first` and `second`, equal when it writes one. */
  datatype Footprint = Footprint(first: Field, second: Field) {
    predicate Covers(f: Field) {
      f == first || f == second
    }
  }

  /** `s` and `t` agree on every field outside the footprint `w`. */
  predicate SameExcept(s: State, t: State, w: Footprint) {
    && (!w.Covers(ArchivedCacheField) ==> s.archivedCache == t.archivedCache)
    && (!w.Covers(BackgroundColorField) ==> s.backgroundColor == t.backgroundColor)
    && (!w.Covers(BackgroundGrpIdField) ==> s.backgroundGrpId == t.backgroundGrpId)
    && (!w.Covers(BackgroundImageField) ==> s.backgroundImage == t.backgroundImage)
    && (!w.Covers(LoadingField) ==> s.loading == t.loading)
    && (!w.Covers(NoLogField) ==> s.noLog == t.noLog)
    && (!w.Covers(OfflineField) ==> s.offline == t.offline)
    && (!w.Covers(PatreonField) ==> s.patreon == t.patreon)
    && (!w.Covers(RoleField) ==> s.role == t.role)
    && (!w.Covers(SyncStateField) ==> s.syncState == t.syncState)
    && (!w.Covers(SyncToPushField) ==> s.syncToPush == t.syncToPush)
    && (!w.Covers(PopupField) ==> s.popup == t.popup)
    && (!w.Covers(FormatsField) ==> s.formats == t.formats)
    && (!w.Covers(SeasonField) ==> s.season == t.season)
    && (!w.Covers(RewardsDailyEndsField) ==> s.rewards_daily_ends == t.rewards_daily_ends)
    && (!w.Covers(RewardsWeeklyEndsField) ==> s.rewards_weekly_ends == t.rewards_weekly_ends)
    && (!w.Covers(AuthSettingsField) ==> s.authSettings == t.authSettings)
    && (!w.Covers(ShareDialogField) ==> s.shareDialog == t.shareDialog)
    && (!w.Covers(DetailedLogsDialogField) ==> s.detailedLogsDialog == t.detailedLogsDialog)
    && (!w.Covers(SubNavField) ==> s.subNav == t.subNav)
    && (!w.Covers(TopArtistField) ==> s.topArtist == t.topArtist)
    && (!w.Covers(TopNavField) ==> s.topNav == t.topNav)
    && (!w.Covers(NavIndexField) ==> s.navIndex == t.navIndex)
    && (!w.Covers(UpdateStateField) ==> s.updateState == t.updateState)
  }

  /** `initialRendererState`. */
  function Initial(): (s: State)
    ensures s.navIndex == 0 && s.topNav == 0
    ensures s.subNav.kind == -1 && !s.shareDialog.open
    ensures s.archivedCache == map[]
  {
    State(
      archivedCache := map[],
      backgroundColor := "rgba(0, 0, 0, 0.25)",
      backgroundGrpId := 0,
      backgroundImage := "default",
      loading := false,
      noLog := false,
      offline := false,
      patreon := Patreon(false, -1),
      role := 0,
      syncState := 0,
      syncToPush := SyncToPush([], [], [], [], []),
      popup := Popup("", 0, 0),
      formats := map[],
      season := Record(map[]),
      rewards_daily_ends := "",
      rewards_weekly_ends := "",
      authSettings := false,
      shareDialog := ShareDialog(false, "", "", Record(map[]), ""),
      detailedLogsDialog := false,
      subNav := SubNav(-1, "", Some(Null)),
      topArtist := "Sublime Epiphany by Lindsey Look",
      topNav := 0,
      navIndex := 0,
      updateState := "")
  }

  /** A footprint of one field. */
  function Only(f: Field): Footprint {
    Footprint(f, f)
  }

  // The case reducers of the slice, one per action. The plain setters store their
  // payload in one field and leave every other field alone.

  function ReduceBackgroundColor(s: State, v: string): (r: State)
    ensures r.backgroundColor == v && SameExcept(s, r, Only(BackgroundColorField))
  {
    s.(backgroundColor := v)
  }

  function ReduceBackgroundGrpId(s: State, v: int): (r: State)
    ensures r.backgroundGrpId == v && SameExcept(s, r, Only(BackgroundGrpIdField))
  {
    s.(backgroundGrpId := v)
  }

  function ReduceBackgroundImage(s: State, v: string): (r: State)
    ensures r.backgroundImage == v && SameExcept(s, r, Only(BackgroundImageField))
  {
    s.(backgroundImage := v)
  }

  function ReduceDetailedLogsDialog(s: State, v: bool): (r: State)
    ensures r.detailedLogsDialog == v && SameExcept(s, r, Only(DetailedLogsDialogField))
  {
    s.(detailedLogsDialog := v)
  }

  function ReduceLoading(s: State, v: bool): (r: State)
    ensures r.loading == v && SameExcept(s, r, Only(LoadingField))
  {
    s.(loading := v)
  }

  function ReduceNoLog(s: State, v: bool): (r: State)
    ensures r.noLog == v && SameExcept(s, r, Only(NoLogField))
  {
    s.(noLog := v)
  }

  function ReduceOffline(s: State, v: bool): (r: State)
    ensures r.offline == v && SameExcept(s, r, Only(OfflineField))
  {
    s.(offline := v)
  }

  function ReducePatreon(s: State, v: Patreon): (r: State)
    ensures r.patreon == v && SameExcept(s, r, Only(PatreonField))
  {
    s.(patreon := v)
  }

  function ReduceRole(s: State, v: int): (r: State)
    ensures r.role == v && SameExcept(s, r, Only(RoleField))
  {
    s.(role := v)
  }

  function ReducePopup(s: State, v: Popup): (r: State)
    ensures r.popup == v && SameExcept(s, r, Only(PopupField))
  {
    s.(popup := v)
  }

  function ReduceTopArtist(s: State, v: string): (r: State)
    ensures r.topArtist == v && SameExcept(s, r, Only(TopArtistField))
  {
    s.(topArtist := v)
  }

  function ReduceNavIndex(s: State, v: int): (r: State)
    ensures r.navIndex == v && SameExcept(s, r, Only(NavIndexField))
  {
    s.(navIndex := v)
  }

  function ReduceAuthSettings(s: State, v: bool): (r: State)
    ensures r.authSettings == v && SameExcept(s, r, Only(AuthSettingsField))
  {
    s.(authSettings := v)
  }

  function ReduceFormats(s: State, v: map<string, Value>): (r: State)
    ensures r.formats == v && SameExcept(s, r, Only(FormatsField))
  {
    s.(formats := v)
  }

  function ReduceUpdateState(s: State, v: string): (r: State)
    ensures r.updateState == v && SameExcept(s, r, Only(UpdateStateField))
  {
    s.(updateState := v)
  }

  function ReduceSyncState(s: State, v: int): (r: State)
    ensures r.syncState == v && SameExcept(s, r, Only(SyncStateField))
  {
    s.(syncState := v)
  }

  function ReduceSyncToPush(s: State, v: SyncToPush): (r: State)
    ensures r.syncToPush == v && SameExcept(s, r, Only(SyncToPushField))
  {
    s.(syncToPush := v)
  }

  function ReduceSeason(s: State, v: Value): (r: State)
    ensures r.season == v && SameExcept(s, r, Only(SeasonField))
  {
    s.(season := v)
  }

  function ReduceRewardsDailyEnds(s: State, v: string): (r: State)
    ensures r.rewards_daily_ends == v && SameExcept(s, r, Only(RewardsDailyEndsField))
  {
    s.(rewards_daily_ends := v)
  }

  function ReduceRewardsWeeklyEnds(s: State, v: string): (r: State)
    ensures r.rewards_weekly_ends == v && SameExcept(s, r, Only(RewardsWeeklyEndsField))
  {
    s.(rewards_weekly_ends := v)
  }

  /** `Object.assign(dialog, patch)`: the fields the patch carries overwrite the dialog's. */
  function Assign(d: ShareDialog, p: ShareDialogPatch): ShareDialog {
    ShareDialog(
      p.open.GetOr(d.open),
      p.url.GetOr(d.url),
      p.kind.GetOr(d.kind),
      p.data.GetOr(d.data),
      p.id.GetOr(d.id))
  }

  /** `setShareDialog` overwrites the dialog fields its patch carries, keeps the others,
      and opens the dialog whatever the patch says. */
  function ReduceShareDialog(s: State, p: ShareDialogPatch): (r: State)
    ensures r.shareDialog.open
    ensures r.shareDialog.url == (if p.url.Some? then p.url.value else s.shareDialog.url)
    ensures r.shareDialog.kind == (if p.kind.Some? then p.kind.value else s.shareDialog.kind)
    ensures r.shareDialog.data == (if p.data.Some? then p.data.value else s.shareDialog.data)
    ensures r.shareDialog.id == (if p.id.Some? then p.id.value else s.shareDialog.id)
    ensures SameExcept(s, r, Only(ShareDialogField))
  {
    s.(shareDialog := Assign(s.shareDialog, p).(open := true))
  }

  /** `setShareDialogOpen` changes only the dialog's `open` flag. */
  function ReduceShareDialogOpen(s: State, v: bool): (r: State)
    ensures r.shareDialog.open == v
    ensures r.shareDialog.url == s.shareDialog.url && r.shareDialog.kind == s.shareDialog.kind
    ensures r.shareDialog.data == s.shareDialog.data && r.shareDialog.id == s.shareDialog.id
    ensures SameExcept(s, r, Only(ShareDialogField))
  {
    s.(shareDialog := s.shareDialog.(open := v))
  }

  /** `setShareDialogUrl` changes only the dialog's `url`. */
  function ReduceShareDialogUrl(s: State, v: string): (r: State)
    ensures r.shareDialog.url == v
    ensures r.shareDialog.open == s.shareDialog.open && r.shareDialog.kind == s.shareDialog.kind
    ensures r.shareDialog.data == s.shareDialog.data && r.shareDialog.id == s.shareDialog.id
    ensures SameExcept(s, r, Only(ShareDialogField))
  {
    s.(shareDialog := s.shareDialog.(url := v))
  }

  /** `setSubNav` stores its payload and selects the sub-navigation view (index 1)
      exactly when the payload's type is not -1, the top-level view (index 0) otherwise. */
  function ReduceSubNav(s: State, v: SubNav): (r: State)
    ensures r.subNav == v
    ensures r.navIndex == 0 <==> v.kind == -1
    ensures r.navIndex == 1 <==> v.kind != -1
    ensures SameExcept(s, r, Footprint(SubNavField, NavIndexField))
  {
    var navIndex := if v.kind == -1 then 0 else 1;
    s.(navIndex := navIndex, subNav := v)
  }

  /** `setTopNav` stores the selected tab and always returns to the top-level view. */
  function ReduceTopNav(s: State, v: int): (r: State)
    ensures r.topNav == v && r.navIndex == 0
    ensures SameExcept(s, r, Footprint(TopNavField, NavIndexField))
  {
    s.(navIndex := 0, topNav := v)
  }

  /** `setArchived` ignores an empty id; otherwise it records the flag for that id and
      leaves every other id as it was. */
  function ReduceArchived(s: State, p: ArchivedPayload): (r: State)
    ensures p.id == "" ==> r == s
    ensures p.id != "" ==> p.id in r.archivedCache && r.archivedCache[p.id] == p.archived
    ensures forall k :: k != p.id ==> (k in r.archivedCache <==> k in s.archivedCache)
    ensures forall k :: k != p.id && k in r.archivedCache ==> r.archivedCache[k] == s.archivedCache[k]
    ensures SameExcept(s, r, Only(ArchivedCacheField))
  {
    if p.id == "" then s else s.(archivedCache := s.archivedCache[p.id := p.archived])
  }

  /** Patching the share dialog twice with the same patch is patching it once. */
  lemma ShareDialogIdempotent(s: State, p: ShareDialogPatch)
    ensures ReduceShareDialog(ReduceShareDialog(s, p), p) == ReduceShareDialog(s, p)
  {
  }

  /** The store's renderer state, updated in place by the reducers. */
  class Renderer {
    var archivedCache: map<string, bool>
    var backgroundColor: string
    var backgroundGrpId: int
    var backgroundImage: string
    var loading: bool
    var noLog: bool
    var offline: bool
    var patreon: Patreon
    var role: int
    var syncState: int
    var syncToPush: SyncToPush
    var popup: Popup
    var formats: map<string, Value>
    var season: Value
    var rewards_daily_ends: string
    var rewards_weekly_ends: string
    var authSettings: bool
    var shareDialog: ShareDialog
    var detailedLogsDialog: bool
    var subNav: SubNav
    var topArtist: string
    var topNav: int
    var navIndex: int
    var updateState: string

    /** The current state as a value. */
    function Snapshot(): State
      reads this
    {
      State(archivedCache, backgroundColor, backgroundGrpId, backgroundImage, loading, noLog,
        offline, patreon, role, syncState, syncToPush, popup, formats, season,
        rewards_daily_ends, rewards_weekly_ends, authSettings, shareDialog, detailedLogsDialog,
        subNav, topArtist, topNav, navIndex, updateState)
    }

    constructor ()
      ensures Snapshot() == Initial()
    {
      var s := Initial();
      archivedCache, backgroundColor, backgroundGrpId, backgroundImage := s.archivedCache, s.backgroundColor, s.backgroundGrpId, s.backgroundImage;
      loading, noLog, offline, patreon := s.loading, s.noLog, s.offline, s.patreon;
      role, syncState, syncToPush, popup := s.role, s.syncState, s.syncToPush, s.popup;
      formats, season, rewards_daily_ends, rewards_weekly_ends := s.formats, s.season, s.rewards_daily_ends, s.rewards_weekly_ends;
      authSettings, shareDialog, detailedLogsDialog, subNav := s.authSettings, s.shareDialog, s.detailedLogsDialog, s.subNav;
      topArtist, topNav, navIndex, updateState := s.topArtist, s.topNav, s.navIndex, s.updateState;
    }

    method SetBackgroundColor(payload: string)
      modifies this
      ensures Snapshot() == ReduceBackgroundColor(old(Snapshot()), payload)
    {
      backgroundColor := payload;
    }

    method SetBackgroundGrpId(payload: int)
      modifies this
      ensures Snapshot() == ReduceBackgroundGrpId(old(Snapshot()), payload)
    {
      backgroundGrpId := payload;
    }

    method SetBackgroundImage(payload: string)
      modifies this
      ensures Snapshot() == ReduceBackgroundImage(old(Snapshot()), payload)
    {
      backgroundImage := payload;
    }

    method SetDetailedLogsDialog(payload: bool)
      modifies this
      ensures Snapshot() == ReduceDetailedLogsDialog(old(Snapshot()), payload)
    {
      detailedLogsDialog := payload;
    }

    method SetLoading(payload: bool)
      modifies this
      ensures Snapshot() == ReduceLoading(old(Snapshot()), payload)
    {
      loading := payload;
    }

    method SetNoLog(payload: bool)
      modifies this
      ensures Snapshot() == ReduceNoLog(old(Snapshot()), payload)
    {
      noLog := payload;
    }

    method SetOffline(payload: bool)
      modifies this
      ensures Snapshot() == ReduceOffline(old(Snapshot()), payload)
    {
      offline := payload;
    }

    method SetPatreon(payload: Patreon)
      modifies this
      ensures Snapshot() == ReducePatreon(old(Snapshot()), payload)
    {
      patreon := payload;
    }

    method SetRole(payload: int)
      modifies this
      ensures Snapshot() == ReduceRole(old(Snapshot()), payload)
    {
      role := payload;
    }

    method SetPopup(payload: Popup)
      modifies this
      ensures Snapshot() == ReducePopup(old(Snapshot()), payload)
    {
      popup := payload;
    }

    /** `Object.assign(state.shareDialog, payload)`, then `open = true`. */
    method SetShareDialog(payload: ShareDialogPatch)
      modifies this
      ensures Snapshot() == ReduceShareDialog(old(Snapshot()), payload)
    {
      shareDialog := Assign(shareDialog, payload);
      shareDialog := shareDialog.(open := true);
    }

    method SetShareDialogOpen(payload: bool)
      modifies this
      ensures Snapshot() == ReduceShareDialogOpen(old(Snapshot()), payload)
    {
      shareDialog := shareDialog.(open := payload);
    }

    method SetShareDialogUrl(payload: string)
      modifies this
      ensures Snapshot() == ReduceShareDialogUrl(old(Snapshot()), payload)
    {
      shareDialog := shareDialog.(url := payload);
    }

    method SetSubNav(payload: SubNav)
      modifies this
      ensures Snapshot() == ReduceSubNav(old(Snapshot()), payload)
    {
      if payload.kind == -1 {
        navIndex := 0;
      } else {
        navIndex := 1;
      }
      subNav := payload;
    }

    method SetTopArtist(payload: string)
      modifies this
      ensures Snapshot() == ReduceTopArtist(old(Snapshot()), payload)
    {
      topArtist := payload;
    }

    method SetTopNav(payload: int)
      modifies this
      ensures Snapshot() == ReduceTopNav(old(Snapshot()), payload)
    {
      navIndex := 0;
      topNav := payload;
    }

    method SetNavIndex(payload: int)
      modifies this
      ensures Snapshot() == ReduceNavIndex(old(Snapshot()), payload)
    {
      navIndex := payload;
    }

    method SetAuthSettings(payload: bool)
      modifies this
      ensures Snapshot() == ReduceAuthSettings(old(Snapshot()), payload)
    {
      authSettings := payload;
    }

    method SetFormats(payload: map<string, Value>)
      modifies this
      ensures Snapshot() == ReduceFormats(old(Snapshot()), payload)
    {
      formats := payload;
    }

    method SetUpdateState(payload: string)
      modifies this
      ensures Snapshot() == ReduceUpdateState(old(Snapshot()), payload)
    {
      updateState := payload;
    }

    method SetArchived(payload: ArchivedPayload)
      modifies this
      ensures Snapshot() == ReduceArchived(old(Snapshot()), payload)
    {
      if payload.id == "" {
        return;
      }
      archivedCache := archivedCache[payload.id := payload.archived];
    }

    method SetSyncState(payload: int)
      modifies this
      ensures Snapshot() == ReduceSyncState(old(Snapshot()), payload)
    {
      syncState := payload;
    }

    /** Stores a shallow copy of the payload; with value semantics the copy is the payload. */
    method SetSyncToPush(payload: SyncToPush)
      modifies this
      ensures Snapshot() == ReduceSyncToPush(old(Snapshot()), payload)
    {
      syncToPush := payload;
    }

    method SetSeason(payload: Value)
      modifies this
      ensures Snapshot() == ReduceSeason(old(Snapshot()), payload)
    {
      season := payload;
    }

    method SetRewardsDailyEnds(payload: string)
      modifies this
      ensures Snapshot() == ReduceRewardsDailyEnds(old(Snapshot()), payload)
    {
      rewards_daily_ends := payload;
    }

    method SetRewardsWeeklyEnds(payload: string)
      modifies this
      ensures Snapshot() == ReduceRewardsWeeklyEnds(old(Snapshot()), payload)
    {
      rewards_weekly_ends := payload;
    }
  }
}

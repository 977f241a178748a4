/**
  The blocking service of the newer core (Core/AppBlockingService.swift), device branch: it holds
  the blocking mode, the apps the user wants to keep, and whether the app may shield at all.
 */
module AppBlocking {
  import opened Optional
  import opened Shield
  import FamilyControls

  datatype BlockingMode = Strict | Whitelist | Relaxed

  /** `displayName`. */
  function DisplayName(mode: BlockingMode): string
  {
    match mode
    case Strict => "Strict"
    case Whitelist => "Whitelist"
    case Relaxed => "Relaxed"
  }

  /** Different modes are shown under different names. */
  lemma DisplayNameInjective(a: BlockingMode, b: BlockingMode)
    ensures DisplayName(a) == DisplayName(b) ==> a == b
  {
    if a != b {
      assert DisplayName(a)[0] != DisplayName(b)[0];
    }
  }

  /**
    The shield that `stopBlocking` leaves: no category shielded (`.none`, not nil) and no apps named;
    the web fields, which this service never writes, keep their values.
   */
  function ShieldAfterStopBlocking(shield: ShieldSettings): (r: ShieldSettings)
    ensures r.applicationCategories == Some(NoCategories) && r.applications == None
    ensures r.webDomainCategories == shield.webDomainCategories && r.webDomains == shield.webDomains
    ensures !BlocksApps(r)
  {
    shield.(applicationCategories := Some(NoCategories)).(applications := None)
  }

  /** Stopping twice is the same as stopping once. */
  lemma StopBlockingIdempotent(shield: ShieldSettings)
    ensures ShieldAfterStopBlocking(ShieldAfterStopBlocking(shield)) == ShieldAfterStopBlocking(shield)
  {
  }

  /**
    The shield that `startBlocking` leaves once permission is held. Strict shields every app
    category. Whitelist with apps selected shields every category except those apps; with none
    selected it leaves the shield as it was. Relaxed does what `stopBlocking` does.
   */
  function ShieldAfterStartBlocking(shield: ShieldSettings, mode: BlockingMode, selectedApps: Selection): (r: ShieldSettings)
    ensures mode == Strict ==> r == shield.(applicationCategories := Some(AllCategories))
    ensures mode == Whitelist && selectedApps.applicationTokens != {} ==>
              r == shield.(applicationCategories := Some(AllCategories), applications := Some(selectedApps.applicationTokens))
    ensures mode == Whitelist && selectedApps.applicationTokens == {} ==> r == shield
    ensures mode == Relaxed ==> r == ShieldAfterStopBlocking(shield)
    ensures r.webDomainCategories == shield.webDomainCategories && r.webDomains == shield.webDomains
  {
    match mode
    case Strict => shield.(applicationCategories := Some(AllCategories))
    case Whitelist =>
      if selectedApps.applicationTokens != {} then
        shield.(applicationCategories := Some(AllCategories)).(applications := Some(selectedApps.applicationTokens))
      else shield
    case Relaxed => ShieldAfterStopBlocking(shield)
  }

  /**
    The two services part ways on a whitelist with nothing selected: the manager of the older timer
    clears the whole shield, while this service leaves whatever shield was in place, so a shield left
    by an earlier strict session stays up.
   */
  lemma EmptyWhitelistDiverges(shield: ShieldSettings)
    requires BlocksApps(shield)
    ensures FamilyControls.ShieldAfterBlockApps(shield, true, FamilyControls.Whitelist, Some(Selection({}))) == Cleared
    ensures ShieldAfterStartBlocking(shield, Whitelist, Selection({})) == shield
    ensures !BlocksApps(FamilyControls.ShieldAfterBlockApps(shield, true, FamilyControls.Whitelist, Some(Selection({}))))
    ensures BlocksApps(ShieldAfterStartBlocking(shield, Whitelist, Selection({})))
  {
  }

  class AppBlockingService {
    var blockingMode: BlockingMode
    var selectedApps: Selection
    var hasPermission: bool
    const store: ManagedSettingsStore

    /** The initialiser, which checks the authorisation status; `approved` is that status. */
    constructor (store: ManagedSettingsStore, approved: bool)
      ensures this.store == store
      ensures blockingMode == Strict && selectedApps == Selection({}) && hasPermission == approved
    {
      this.store := store;
      blockingMode := Strict;
      selectedApps := Selection({});
      hasPermission := approved;
    }

    /** `checkAuthorizationStatus`: permission mirrors the authorisation centre's status. */
    method CheckAuthorizationStatus(approved: bool)
      modifies this
      ensures hasPermission == approved
      ensures blockingMode == old(blockingMode) && selectedApps == old(selectedApps)
    {
      hasPermission := approved;
    }

    /** `requestAuthorization`: `succeeds` is whether the system request returned without throwing. */
    method RequestAuthorization(succeeds: bool) returns (granted: bool)
      modifies this
      ensures granted == succeeds && hasPermission == succeeds
      ensures blockingMode == old(blockingMode) && selectedApps == old(selectedApps)
    {
      if succeeds {
        hasPermission := true;
        return true;
      } else {
        hasPermission := false;
        return false;
      }
    }

    /**
      `startBlocking`. Without permission it asks for it and returns on both outcomes, so the shield
      never changes on that call. With permission it applies the current mode.
     */
    method StartBlocking(requestSucceeds: bool)
      modifies this, store
      ensures blockingMode == old(blockingMode) && selectedApps == old(selectedApps)
      ensures !old(hasPermission) ==> hasPermission == requestSucceeds && store.shield == old(store.shield)
      ensures old(hasPermission) ==>
                hasPermission && store.shield == ShieldAfterStartBlocking(old(store.shield), blockingMode, selectedApps)
    {
      if !hasPermission {
        var gotPermission := RequestAuthorization(requestSucceeds);
        if !gotPermission {
          return;
        }
        return;
      }
      match blockingMode {
        case Strict =>
          store.shield := store.shield.(applicationCategories := Some(AllCategories));
        case Whitelist =>
          if selectedApps.applicationTokens != {} {
            store.shield := store.shield.(applicationCategories := Some(AllCategories));
            store.shield := store.shield.(applications := Some(selectedApps.applicationTokens));
          }
        case Relaxed =>
          StopBlocking();
      }
    }

    /** `stopBlocking`. */
    method StopBlocking()
      modifies store
      ensures store.shield == ShieldAfterStopBlocking(old(store.shield))
    {
      store.shield := store.shield.(applicationCategories := Some(NoCategories));
      store.shield := store.shield.(applications := None);
    }
  }
}

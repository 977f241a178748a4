/**
  The blocking manager of the older timer (Managers/FamilyControlsManager.swift): it keeps the
  user's app selection and maps a focus mode and a selection onto the shield. Whether the platform
  has approved the app is a field that mirrors the authorisation centre's status.
 */
module FamilyControls {
  import opened Optional
  import opened Shield

  /** The focus modes of the older timer (Models/FocusMode.swift). */
  datatype FocusMode = Strict | Whitelist | Relax

  /** A selection that names at least one app. */
  predicate HasApps(selection: Option<Selection>)
  {
    selection.Some? && selection.value.applicationTokens != {}
  }

  /**
    The shield that `blockApps` leaves. Without authorisation nothing changes. Strict shields every
    app and web category and leaves the named apps and domains alone. Whitelist with a non-empty
    selection clears the shield, then shields every category except the selected apps. Whitelist
    without apps and relax clear the shield entirely.
   */
  function ShieldAfterBlockApps(shield: ShieldSettings, authorized: bool, mode: FocusMode, selection: Option<Selection>): (r: ShieldSettings)
    ensures !authorized ==> r == shield
    ensures authorized && mode == Strict ==>
              r.applicationCategories == Some(AllCategories) && r.webDomainCategories == Some(AllCategories) &&
              r.applications == shield.applications && r.webDomains == shield.webDomains
    ensures authorized && mode == Whitelist && HasApps(selection) ==>
              r.applicationCategories == Some(AllCategories) && r.webDomainCategories == Some(AllCategories) &&
              r.applications == Some(selection.value.applicationTokens) && r.webDomains == None
    ensures authorized && ((mode == Whitelist && !HasApps(selection)) || mode == Relax) ==> r == Cleared
  {
    if !authorized then shield
    else
      match mode
      case Strict => shield.(applicationCategories := Some(AllCategories), webDomainCategories := Some(AllCategories))
      case Whitelist =>
        if HasApps(selection) then
          var cleared := Cleared;
          var categories := cleared.(applicationCategories := Some(AllCategories), webDomainCategories := Some(AllCategories));
          categories.(applications := Some(selection.value.applicationTokens))
        else Cleared
      case Relax => Cleared
  }

  /**
    With authorisation, `blockApps` shields apps exactly in strict mode and in whitelist mode with a
    non-empty selection.
   */
  lemma {:induction false} BlockAppsBlocksIff(shield: ShieldSettings, mode: FocusMode, selection: Option<Selection>)
    ensures BlocksApps(ShieldAfterBlockApps(shield, true, mode, selection))
            <==> mode == Strict || (mode == Whitelist && HasApps(selection))
  {
    match mode
    case Strict =>
    case Whitelist =>
    case Relax =>
  }

  /** Applying the same mode and selection again changes nothing: re-applying blocking is harmless. */
  lemma {:induction false} BlockAppsIdempotent(shield: ShieldSettings, authorized: bool, mode: FocusMode, selection: Option<Selection>)
    ensures var once := ShieldAfterBlockApps(shield, authorized, mode, selection);
            ShieldAfterBlockApps(once, authorized, mode, selection) == once
  {
  }

  class FamilyControlsManager {
    const store: ManagedSettingsStore
    /** The authorisation centre's status is `.approved`. */
    var authorized: bool
    var selection: Option<Selection>

    constructor (store: ManagedSettingsStore, authorized: bool)
      ensures this.store == store && this.authorized == authorized && selection == None
    {
      this.store := store;
      this.authorized := authorized;
      selection := None;
    }

    /** `checkAuthorization`. */
    function CheckAuthorization(): bool
      reads this
    {
      authorized
    }

    /**
      The bookkeeping of `requestAuthorization`; the system dialog is outside the model. When the
      request throws, `false` is returned and nothing changes. Otherwise the status becomes
      `approvedAfter`, and an approved request gives a missing selection an empty one.
     */
    method RequestAuthorization(threw: bool, approvedAfter: bool) returns (isAuthorized: bool)
      modifies this
      ensures threw ==> !isAuthorized && authorized == old(authorized) && selection == old(selection)
      ensures !threw ==> isAuthorized == approvedAfter && authorized == approvedAfter
      ensures !threw && approvedAfter && old(selection).None? ==> selection == Some(Selection({}))
      ensures (threw || !approvedAfter || old(selection).Some?) ==> selection == old(selection)
    {
      if threw {
        return false;
      }
      authorized := approvedAfter;
      isAuthorized := authorized;
      if isAuthorized && selection.None? {
        selection := Some(Selection({}));
      }
    }

    /** `setSelection`: the next `getSelection` returns the new value. */
    method SetSelection(newSelection: Selection)
      modifies this
      ensures selection == Some(newSelection) && authorized == old(authorized)
      ensures GetSelection() == Some(newSelection)
    {
      selection := Some(newSelection);
    }

    /** `getSelection` and `getSavedSelection`. */
    function GetSelection(): Option<Selection>
      reads this
    {
      selection
    }

    /** `blockApps(mode:selection:)`: assigns the shield fields in the source's order. */
    method BlockApps(mode: FocusMode, selection: Option<Selection>)
      modifies store
      ensures store.shield == ShieldAfterBlockApps(old(store.shield), authorized, mode, selection)
    {
      if !authorized {
        return;
      }
      match mode {
        case Strict =>
          store.shield := store.shield.(applicationCategories := Some(AllCategories));
          store.shield := store.shield.(webDomainCategories := Some(AllCategories));
        case Whitelist =>
          if selection.Some? && selection.value.applicationTokens != {} {
            StopBlocking();
            store.shield := store.shield.(applicationCategories := Some(AllCategories));
            store.shield := store.shield.(webDomainCategories := Some(AllCategories));
            store.shield := store.shield.(applications := Some(selection.value.applicationTokens));
          } else {
            StopBlocking();
          }
        case Relax =>
          StopBlocking();
      }
    }

    /** `stopBlocking`: all four fields nil, whatever they were, so calling it again changes nothing. */
    method StopBlocking()
      modifies store
      ensures store.shield == Cleared
    {
      store.shield := store.shield.(applicationCategories := None);
      store.shield := store.shield.(webDomainCategories := None);
      store.shield := store.shield.(applications := None);
      store.shield := store.shield.(webDomains := None);
    }
  }
}

/**
  The shield settings of the platform's managed-settings store, which both blocking services write:
  which app categories and web categories are shielded, and which individual apps and web domains
  are named. The store itself is a plain record that the services assign to field by field.
 */
module Shield {
  import opened Optional

  /** An opaque application or web-domain token. */
  type Token = nat

  /** The category policies the services use: `.all()` and `.none`. */
  datatype CategoryPolicy = AllCategories | NoCategories

  /** The user's picker selection; only its application tokens matter here. */
  datatype Selection = Selection(applicationTokens: set<Token>)

  datatype ShieldSettings = ShieldSettings(
    applicationCategories: Option<CategoryPolicy>,
    webDomainCategories: Option<CategoryPolicy>,
    applications: Option<set<Token>>,
    webDomains: Option<set<Token>>)

  /** Every field nil: nothing is shielded. */
  const Cleared := ShieldSettings(None, None, None, None)

  /** Apps are shielded by category: every category is blocked except the apps named in `applications`. */
  predicate BlocksApps(shield: ShieldSettings)
  {
    shield.applicationCategories == Some(AllCategories)
  }

  class ManagedSettingsStore {
    var shield: ShieldSettings

    constructor ()
      ensures shield == Cleared
    {
      shield := Cleared;
    }
  }
}

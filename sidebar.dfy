/**
 * Which groups the application sidebar renders for a user
 * (components/app-sidebar.tsx), from top to bottom.
 */
module Sidebar {

  import opened Wrappers
  import opened UserContext

  /** The sidebar's groups; the locked ones carry a PRO badge instead of their links. */
  datatype Group = Main | Sales | Inventory | Finance
                 | Reports | LockedReports | Devices | LockedDevices | Settings

  /** The unlocked Reports and Devices groups need the ADMIN role and the PRO plan. */
  predicate ShowsUnlocked(user: User)
  {
    HasAccess(user, Some(Admin), Some(Pro))
  }

  /** The locked, badged variants show when the plan is not PRO. */
  predicate ShowsLocked(user: User)
  {
    !HasAccess(user, None, Some(Pro))
  }

  /** The Settings group needs the ADMIN role. */
  predicate ShowsSettings(user: User)
  {
    HasAccess(user, Some(Admin), None)
  }

  function When(c: bool, g: Group): (r: seq<Group>)
    ensures forall h :: h in r <==> c && h == g
  {
    if c then [g] else []
  }

  /** The groups rendered for the user, in sidebar order. */
  function RenderedGroups(user: User): (r: seq<Group>)
    ensures |r| >= 4 && r[..4] == [Main, Sales, Inventory, Finance]
    ensures forall g :: g in r <==> (g in r[..4]
                                    || (ShowsUnlocked(user) && (g == Reports || g == Devices))
                                    || (ShowsLocked(user) && (g == LockedReports || g == LockedDevices))
                                    || (ShowsSettings(user) && g == Settings))
  {
    var core := [Main, Sales, Inventory, Finance];
    var r := core + When(ShowsUnlocked(user), Reports) + When(ShowsLocked(user), LockedReports)
             + When(ShowsUnlocked(user), Devices) + When(ShowsLocked(user), LockedDevices)
             + When(ShowsSettings(user), Settings);
    assert r[..4] == core;
    r
  }

  /** The four core groups are rendered for everyone. */
  lemma CoreGroupsAlwaysShown(user: User)
    ensures Main in RenderedGroups(user) && Sales in RenderedGroups(user)
    ensures Inventory in RenderedGroups(user) && Finance in RenderedGroups(user)
  {
    var r := RenderedGroups(user);
    assert r[0] == Main && r[1] == Sales && r[2] == Inventory && r[3] == Finance;
  }

  /** Settings appears exactly for administrators. */
  lemma SettingsOnlyForAdmins(user: User)
    ensures Settings in RenderedGroups(user) <==> user.role == Admin
  {
  }

  /** Reports and Devices appear unlocked exactly for administrators on the PRO plan. */
  lemma UnlockedOnlyForAdminPro(user: User)
    ensures Reports in RenderedGroups(user) <==> user.role == Admin && user.plan == Pro
    ensures Devices in RenderedGroups(user) <==> user.role == Admin && user.plan == Pro
  {
  }

  /** The locked variants appear exactly on the FREE plan, whatever the role. */
  lemma LockedOnlyOnFree(user: User)
    ensures LockedReports in RenderedGroups(user) <==> user.plan == Free
    ensures LockedDevices in RenderedGroups(user) <==> user.plan == Free
  {
  }

  /** No user sees both the unlocked and the locked variant of a group. */
  lemma NeverBothVariants(user: User)
    ensures !(Reports in RenderedGroups(user) && LockedReports in RenderedGroups(user))
    ensures !(Devices in RenderedGroups(user) && LockedDevices in RenderedGroups(user))
  {
    UnlockedOnlyForAdminPro(user);
    LockedOnlyOnFree(user);
  }

  /** A BASIC user on the PRO plan sees neither variant of Reports or Devices. */
  lemma BasicProSeesNeither(user: User)
    requires user.role == Basic && user.plan == Pro
    ensures Reports !in RenderedGroups(user) && LockedReports !in RenderedGroups(user)
    ensures Devices !in RenderedGroups(user) && LockedDevices !in RenderedGroups(user)
    ensures Settings !in RenderedGroups(user)
  {
  }

  /** The default account sees every unlocked group and no locked one. */
  lemma DefaultUserSidebar()
    ensures RenderedGroups(DefaultUser()) == [Main, Sales, Inventory, Finance, Reports, Devices, Settings]
  {
    var u := DefaultUser();
    assert ShowsUnlocked(u) && !ShowsLocked(u) && ShowsSettings(u);
  }
}

/**
 * The signed-in user and the access check every gated screen asks
 * (contexts/user-context.tsx).
 */
module UserContext {

  import opened Wrappers

  datatype Role = Admin | Basic

  datatype Plan = Pro | Free

  datatype User = User(id: string, name: string, email: string, avatar: string, role: Role, plan: Plan)

  /** The four demonstration accounts. */
  const SampleUsers: seq<User> := [
    User("1", "John Admin Pro", "admin.pro@example.com", "/avatars/admin-pro.jpg", Admin, Pro),
    User("2", "Jane Basic Pro", "basic.pro@example.com", "/avatars/basic-pro.jpg", Basic, Pro),
    User("3", "Bob Admin Free", "admin.free@example.com", "/avatars/admin-free.jpg", Admin, Free),
    User("4", "Alice Basic Free", "basic.free@example.com", "/avatars/basic-free.jpg", Basic, Free)
  ]

  /**
   * Access is refused when a role is asked
   * for and the user's differs, or a plan is asked for and the user's differs.
   */
  function HasAccess(user: User, requiredRole: Option<Role>, requiredPlan: Option<Plan>): (r: bool)
    ensures r <==> ((requiredRole.None? || user.role == requiredRole.value)
                    && (requiredPlan.None? || user.plan == requiredPlan.value))
  {
    if requiredRole.Some? && user.role != requiredRole.value then false
    else if requiredPlan.Some? && user.plan != requiredPlan.value then false
    else true
  }

  /** Asking for nothing always grants access. */
  lemma NoRequirementGrants(user: User)
    ensures HasAccess(user, None, None)
  {
  }

  /** A role-and-plan check passes exactly when the role check and the plan check both pass. */
  lemma AccessSplits(user: User, role: Role, plan: Plan)
    ensures HasAccess(user, Some(role), Some(plan)) <==> HasAccess(user, Some(role), None) && HasAccess(user, None, Some(plan))
  {
  }

  /** The account the provider starts with. */
  function DefaultUser(): (u: User)
    ensures u == SampleUsers[0]
    ensures u.role == Admin && u.plan == Pro
  {
    SampleUsers[0]
  }

  /** The default account passes every check the application can make. */
  lemma DefaultUserPassesEveryCheck(role: Option<Role>, plan: Option<Plan>)
    ensures HasAccess(DefaultUser(), role, plan) <==> (role.None? || role == Some(Admin)) && (plan.None? || plan == Some(Pro))
    ensures HasAccess(DefaultUser(), Some(Admin), Some(Pro)) && HasAccess(DefaultUser(), Some(Admin), None)
  {
  }

  /** The sample accounts hold each role and plan combination exactly once. */
  lemma SampleUsersCoverEachCombination(role: Role, plan: Plan)
    ensures exists i :: 0 <= i < |SampleUsers| && SampleUsers[i].role == role && SampleUsers[i].plan == plan
    ensures forall i, j :: 0 <= i < j < |SampleUsers| ==>
      (SampleUsers[i].role, SampleUsers[i].plan) != (SampleUsers[j].role, SampleUsers[j].plan)
  {
    var i := match (role, plan)
      case (Admin, Pro) => 0
      case (Basic, Pro) => 1
      case (Admin, Free) => 2
      case (Basic, Free) => 3;
    assert SampleUsers[i].role == role && SampleUsers[i].plan == plan;
  }

  /** The provider's state: the current account, replaced as a whole. */
  class Session {
    var user: User

    constructor()
      ensures user == DefaultUser()
    {
      user := SampleUsers[0];
    }

    method SetUser(u: User)
      modifies this
      ensures user == u
    {
      user := u;
    }

    /** `hasAccess` as the context hands it out: always about the current account. */
    function Access(requiredRole: Option<Role>, requiredPlan: Option<Plan>): (r: bool)
      reads this
      ensures r <==> ((requiredRole.None? || user.role == requiredRole.value)
                      && (requiredPlan.None? || user.plan == requiredPlan.value))
    {
      HasAccess(user, requiredRole, requiredPlan)
    }
  }
}

/** The authorisation rules for acting on user accounts: a decision table
    over role names ("admin", "president", "staff", "coach", "player"), the
    acting user's and the target's ids, and, for coaches, shared teams. The
    framework gate lets an admin through before any rule is consulted. */
module UserPolicy {

  const Admin := "admin"
  const President := "president"
  const Staff := "staff"
  const Coach := "coach"
  const PlayerRole := "player"

  /** A user as the policy sees it: id, role name and the ids of its teams. */
  datatype User = User(id: int, role: string, teamIds: set<int>)

  /** PHP's `strtolower`: ASCII letters only. */
  function ToLower(s: string): (r: string)
    ensures |r| == |s|
    ensures forall i :: 0 <= i < |s| ==> r[i] == LowerChar(s[i])
  {
    if s == [] then [] else [LowerChar(s[0])] + ToLower(s[1..])
  }

  function LowerChar(c: char): char {
    if 'A' <= c <= 'Z' then (c as int + 32) as char else c
  }

  /** `viewAny`: admin, president, staff and coach (exact role names). */
  predicate ViewAny(u: User) {
    u.role == Admin || u.role == President || u.role == Staff || u.role == Coach
  }

  /** `view`: oneself always; admin, president and staff (any letter case)
      anyone; a coach (any letter case) someone sharing a team. */
  predicate View(u: User, m: User) {
    if u.id == m.id then true
    else if ToLower(u.role) in {Admin, President, Staff} then true
    else if ToLower(u.role) == Coach then u.teamIds * m.teamIds != {}
    else false
  }

  /** `create` and `restore`: president and staff. */
  predicate Create(u: User) {
    u.role == President || u.role == Staff
  }

  predicate Restore(u: User, m: User) {
    u.role == President || u.role == Staff
  }

  /** The role rule shared by `update` and `delete` for another user. */
  predicate MayManage(u: User, m: User) {
    u.role == President
    || (u.role == Staff && (m.role == Coach || m.role == PlayerRole))
    || (u.role == Coach && m.role == PlayerRole)
  }

  /** `update`: oneself always, otherwise the role rule. */
  predicate Update(u: User, m: User) {
    if u.id == m.id then true else MayManage(u, m)
  }

  /** `delete`: never oneself, otherwise the role rule. */
  predicate Delete(u: User, m: User) {
    if u.id == m.id then false else MayManage(u, m)
  }

  /** `forceDelete`: president only. */
  predicate ForceDelete(u: User, m: User) {
    u.role == President
  }

  /** The abilities the policy decides. */
  datatype Ability = ViewAnyUser | ViewUser | CreateUser | UpdateUser | DeleteUser | RestoreUser | ForceDeleteUser

  /** The policy's answer for an ability. */
  function PolicyDecision(u: User, m: User, a: Ability): bool {
    match a
    case ViewAnyUser => ViewAny(u)
    case ViewUser => View(u, m)
    case CreateUser => Create(u)
    case UpdateUser => Update(u, m)
    case DeleteUser => Delete(u, m)
    case RestoreUser => Restore(u, m)
    case ForceDeleteUser => ForceDelete(u, m)
  }

  /** The gate's answer: its `before` hook grants everything to a user whose
      role is exactly "admin"; otherwise the policy decides. */
  function Authorize(u: User, m: User, a: Ability): (r: bool)
    ensures u.role == Admin ==> r
    ensures u.role != Admin ==> r == PolicyDecision(u, m, a)
  {
    u.role == Admin || PolicyDecision(u, m, a)
  }

  /** A coach sees another user exactly when they share a team. */
  lemma CoachViewIffSharedTeam(u: User, m: User)
    requires ToLower(u.role) == Coach && u.id != m.id
    ensures View(u, m) <==> exists t :: t in u.teamIds && t in m.teamIds
  {
    assert ToLower(u.role) !in {Admin, President, Staff};
    SharedElement(u.teamIds, m.teamIds);
  }

  /** Two sets intersect exactly when some element lies in both. */
  lemma SharedElement(a: set<int>, b: set<int>)
    ensures a * b != {} <==> exists t :: t in a && t in b
  {
    if !exists t :: t in a && t in b {
      assert a * b == {};
    } else {
      var t :| t in a && t in b;
      assert t in a * b;
    }
  }

  /** A user that is not admin, president, staff or coach in any letter case
      sees no one but themselves. */
  lemma OthersSeeOnlyThemselves(u: User, m: User)
    requires ToLower(u.role) !in {Admin, President, Staff, Coach}
    ensures View(u, m) <==> u.id == m.id
  {
  }

  /** The case-insensitive test of `view` accepts a role name that the exact
      tests of the other rules reject: "Staff" may view anyone but not
      update a player. */
  lemma ViewIgnoresCaseUpdateDoesNot()
    ensures
      var u := User(1, "Staff", {});
      var m := User(2, PlayerRole, {});
      View(u, m) && !Update(u, m)
  {
    assert ToLower("Staff") == Staff;
  }

  /** Deleting another user is allowed exactly when updating them is;
      deleting oneself never is. */
  lemma DeleteIsUpdateWithoutSelf(u: User, m: User)
    ensures Delete(u, m) <==> u.id != m.id && Update(u, m)
  {
  }

  /** Everyone may update themselves, and no one may delete themselves
      through the policy, not even a president. */
  lemma SelfRules(u: User)
    ensures Update(u, u) && !Delete(u, u) && View(u, u)
  {
  }

  /** Through the gate, only an admin may delete their own account. */
  lemma SelfDeleteOnlyForAdmin(u: User)
    ensures Authorize(u, u, DeleteUser) <==> u.role == Admin
  {
  }

  /** Through the gate, the role whitelists: listing users is for admin,
      president, staff and coach; creating and restoring for admin,
      president and staff, whatever the target. */
  lemma GateWhitelists(u: User, m: User)
    ensures Authorize(u, m, ViewAnyUser) <==> u.role in {Admin, President, Staff, Coach}
    ensures Authorize(u, m, CreateUser) <==> u.role in {Admin, President, Staff}
    ensures Authorize(u, m, RestoreUser) <==> Authorize(u, m, CreateUser)
  {
  }

  /** Through the gate, force-deleting is for admin and president only. */
  lemma ForceDeleteGate(u: User, m: User)
    ensures Authorize(u, m, ForceDeleteUser) <==> u.role == Admin || u.role == President
  {
  }

  /** The role hierarchy: whoever may update or delete a target of some role
      may also do so for the roles below it (coach above player, staff above
      coach, president above all). */
  lemma ManageIsMonotone(u: User, m: User, n: User)
    requires MayManage(u, m)
    requires m.role == Coach && n.role == PlayerRole
    ensures MayManage(u, n)
  {
  }
}

// The mock login service: three known users, a current user and session
// token replaced by login and logout, and a four-level role hierarchy.
module UserManagement {
  import opened Wrappers
  import opened JsValue
  import opened SeqFilter

  datatype UserScope = UserScope(regionId: string, countryId: Option<string>, branchId: Option<string>, teamId: Option<string>)

  datatype User = User(id: string, email: string, name: string, role: string, scope: UserScope)

  const MockUsers: seq<User> := [
    User("admin_001", "admin@retail.com", "Admin User", "ADMIN", UserScope("GLOBAL", None, None, None)),
    User("op_br_01", "operator_br@retail.com", "Brazil Operator", "OPERATOR", UserScope("LATAM", Some("BR"), None, None)),
    User("trainer_kr_01", "trainer_kr@retail.com", "Korea Trainer", "TRAINER",
         UserScope("APAC", Some("KR"), Some("BR_SEOUL_01"), Some("TEAM_A")))
  ]

  /** The hierarchy, lowest first. */
  const Roles: seq<string> := ["LEARNER", "TRAINER", "OPERATOR", "ADMIN"]

  datatype LoginResult = LoginOk(user: User) | LoginFailed(error: string)

  function EmailIs(email: string): User -> bool
  {
    (u: User) => u.email == email
  }

  /** `MOCK_USERS.find(u => u.email === email)`. */
  function FindUser(email: string): (r: Option<User>)
    ensures r.Some? ==> r.value in MockUsers && r.value.email == email
  {
    var k := FindIndex(EmailIs(email), MockUsers);
    if k == -1 then None else Some(MockUsers[k])
  }

  /** A login finds a user exactly for the three mock e-mail addresses. */
  lemma FindUserIff(email: string)
    ensures FindUser(email).Some? <==>
      email in {"admin@retail.com", "operator_br@retail.com", "trainer_kr@retail.com"}
  {
    FindIndexMissing(EmailIs(email), MockUsers);
    if email == "admin@retail.com" {
      assert EmailIs(email)(MockUsers[0]);
    } else if email == "operator_br@retail.com" {
      assert EmailIs(email)(MockUsers[1]);
    } else if email == "trainer_kr@retail.com" {
      assert EmailIs(email)(MockUsers[2]);
    }
  }

  /** `ROLES.indexOf(role)`: the rank, or -1 for a role not in the list. */
  function RoleIndex(role: string): (i: int)
    ensures -1 <= i < |Roles|
    ensures i >= 0 ==> Roles[i] == role
    ensures i == -1 ==> role !in Roles
  {
    if role == "LEARNER" then 0
    else if role == "TRAINER" then 1
    else if role == "OPERATOR" then 2
    else if role == "ADMIN" then 3
    else -1
  }

  /** `hasRole(required)` for a possibly absent current user. */
  predicate HasRoleFor(user: Option<User>, required: string)
  {
    user.Some? && RoleIndex(user.value.role) >= RoleIndex(required)
  }

  /** Logged out means no role; logged in, the guard compares ranks. */
  lemma HasRoleRanks(user: Option<User>, required: string)
    ensures user.None? ==> !HasRoleFor(user, required)
    ensures user.Some? && user.value.role in Roles && required in Roles ==>
      (HasRoleFor(user, required) <==>
        exists i, j :: 0 <= j <= i < |Roles| && Roles[i] == user.value.role && Roles[j] == required)
  {
    if user.Some? && user.value.role in Roles && required in Roles {
      var i, j := RoleIndex(user.value.role), RoleIndex(required);
      if HasRoleFor(user, required) {
        assert 0 <= j <= i < |Roles| && Roles[i] == user.value.role && Roles[j] == required;
      }
    }
  }

  /** Every logged-in user has their own role, an ADMIN has every role, and
    * having a role implies having every lower one. */
  lemma HasRoleOrder(u: User, r1: string, r2: string)
    ensures HasRoleFor(Some(u), u.role)
    ensures u.role == "ADMIN" ==> HasRoleFor(Some(u), r1)
    ensures HasRoleFor(Some(u), r1) && RoleIndex(r1) >= RoleIndex(r2) ==> HasRoleFor(Some(u), r2)
  {
  }

  /** A required role outside the hierarchy ranks -1 and is granted to every
    * logged-in user, whatever their role. */
  lemma UnlistedRoleGranted(u: User, required: string)
    requires required !in Roles
    ensures HasRoleFor(Some(u), required)
  {
  }

  class UserManagementService {
    var currentUser: Option<User>
    var sessionToken: Option<string>

    /** Starts logged out and then logs in as the admin, at clock reading
      * `nowMs`. */
    constructor(nowMs: nat)
      ensures currentUser == Some(MockUsers[0])
      ensures sessionToken == Some("mock_token_" + NatToString(nowMs))
    {
      currentUser := None;
      sessionToken := None;
      new;
      assert EmailIs("admin@retail.com")(MockUsers[0]);
      var _ := Login("admin@retail.com", nowMs);
    }

    /** `login(email)`: a known e-mail replaces the current user and token;
      * an unknown one changes nothing. */
    method Login(email: string, nowMs: nat) returns (r: LoginResult)
      modifies this
      ensures FindUser(email).Some? ==>
        r == LoginOk(FindUser(email).value)
        && currentUser == FindUser(email)
        && sessionToken == Some("mock_token_" + NatToString(nowMs))
      ensures FindUser(email).None? ==>
        r == LoginFailed("User not found")
        && currentUser == old(currentUser) && sessionToken == old(sessionToken)
    {
      var user := FindUser(email);
      if user.Some? {
        currentUser := user;
        sessionToken := Some("mock_token_" + NatToString(nowMs));
        return LoginOk(user.value);
      }
      return LoginFailed("User not found");
    }

    method Logout() returns (success: bool)
      modifies this
      ensures currentUser.None? && sessionToken.None?
      ensures success
    {
      currentUser := None;
      sessionToken := None;
      return true;
    }

    /** `getScopeContext()`: the user's scope, or null when logged out. */
    function GetScopeContext(): (s: Option<UserScope>)
      reads this
      ensures s.Some? <==> currentUser.Some?
      ensures s.Some? ==> s.value == currentUser.value.scope
    {
      if currentUser.None? then None else Some(currentUser.value.scope)
    }

    /** `isAuthenticated()`: a user is logged in, exactly when there is a
      * scope to hand out. */
    function IsAuthenticated(): (b: bool)
      reads this
      ensures b <==> GetScopeContext().Some?
    {
      currentUser.Some?
    }

    /** `hasRole(requiredRole)`: only a logged-in user has a role; that
      * user has their own role, an ADMIN has every role, and a role outside
      * the hierarchy is granted to anyone logged in. */
    function HasRole(required: string): (r: bool)
      reads this
      ensures r ==> IsAuthenticated()
      ensures currentUser.Some? && required == currentUser.value.role ==> r
      ensures currentUser.Some? && currentUser.value.role == "ADMIN" ==> r
      ensures currentUser.Some? && required !in Roles ==> r
    {
      HasRoleFor(currentUser, required)
    }
  }

  /** After logout the service is unauthenticated, has no scope and grants
    * no role. */
  lemma AfterLogout(s: UserManagementService, required: string)
    requires s.currentUser.None?
    ensures !s.IsAuthenticated() && s.GetScopeContext().None? && !s.HasRole(required)
  {
  }
}

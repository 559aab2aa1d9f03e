// The user table of the operator console: five fixed users and a search
// that keeps, in order, every user whose name or email contains the term,
// ignoring letter case.
module AdminUsers {
  import opened JsText
  import opened SeqFilter

  datatype AdminUser = AdminUser(id: int, name: string, email: string, role: string, status: string, department: string)

  /** `MOCK_USERS`. */
  const MockUsers: seq<AdminUser> := [
    AdminUser(1, "Imjun Koo", "imjun@example.com", "Admin", "Active", "HQ"),
    AdminUser(2, "Kim Minji", "minji@example.com", "User", "Active", "Sales"),
    AdminUser(3, "Lee Junho", "junho@example.com", "User", "Inactive", "Marketing"),
    AdminUser(4, "Park Sooyoung", "joy@example.com", "Manager", "Active", "Sales"),
    AdminUser(5, "Choi Woosik", "woosik@example.com", "User", "Active", "Support")
  ]

  /** The search callback for the lower-cased term. */
  function Matches(lowerTerm: string): AdminUser -> bool
  {
    (u: AdminUser) => Includes(Lower(u.name), lowerTerm) || Includes(Lower(u.email), lowerTerm)
  }

  /** `filteredUsers`: exactly the users whose lower-cased name or email
    * contains the lower-cased term, in the table's order. */
  function FilteredUsers(users: seq<AdminUser>, searchTerm: string): (r: seq<AdminUser>)
    ensures IsSubsequence(r, users)
    ensures forall u :: u in r <==> u in users && Matches(Lower(searchTerm))(u)
  {
    FilterIsSubsequence(Matches(Lower(searchTerm)), users);
    forall u ensures u in Filter(Matches(Lower(searchTerm)), users) <==> u in users && Matches(Lower(searchTerm))(u) {
      FilterMembership(Matches(Lower(searchTerm)), users, u);
    }
    Filter(Matches(Lower(searchTerm)), users)
  }

  /** An empty term shows every user, in order; for the fixed table, all
    * five. */
  lemma EmptyTermShowsAll(users: seq<AdminUser>)
    ensures FilteredUsers(users, "") == users
    ensures |FilteredUsers(MockUsers, "")| == 5
  {
    forall i | 0 <= i < |users| ensures Matches(Lower(""))(users[i]) {
      IncludesEmpty(Lower(users[i].name));
    }
    FilterAllPass(Matches(Lower("")), users);
    forall i | 0 <= i < |MockUsers| ensures Matches(Lower(""))(MockUsers[i]) {
      IncludesEmpty(Lower(MockUsers[i].name));
    }
    FilterAllPass(Matches(Lower("")), MockUsers);
  }

  /** Terms that differ only in letter case show the same users. */
  lemma SearchIgnoresCase(users: seq<AdminUser>, t1: string, t2: string)
    requires Lower(t1) == Lower(t2)
    ensures FilteredUsers(users, t1) == FilteredUsers(users, t2)
  {
  }
}

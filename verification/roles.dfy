/**
 Roles and permissions: the table the seeder writes, how a user holds a
 permission (directly or through a role), and the role every new user is
 given when it has neither of the two known ones.
 */
module Roles {
  import opened Positions
  import opened Hooks

  /** A user with the names of its roles and of its direct permissions. */
  datatype User = User(id: Id, name: string, roles: set<string>, permissions: set<string>)

  /** The permissions table and each role's permissions. */
  datatype Registry = Registry(permissions: set<string>, roles: map<string, set<string>>)

  predicate HasRole(u: User, role: string) {
    role in u.roles
  }

  predicate IsAdmin(u: User) {
    HasRole(u, "admin")
  }

  /** `hasPermissionTo($p)`: a direct permission, or one of the user's roles has it. */
  predicate HasPermissionTo(reg: Registry, u: User, p: string) {
    p in u.permissions || exists role | role in u.roles && role in reg.roles :: p in reg.roles[role]
  }

  /** The twelve permissions the seeder defines. */
  const PermissionNames: seq<string> := [
    "boards.view-any", "boards.view-own", "boards.create", "boards.update", "boards.delete",
    "columns.create", "columns.update", "columns.delete",
    "cards.create", "cards.update", "cards.delete", "cards.move"]

  /** The nine permissions of the viewer role. */
  const ViewerPermissions: set<string> := {
    "boards.view-own", "boards.create", "boards.update",
    "columns.create", "columns.update",
    "cards.create", "cards.update", "cards.delete", "cards.move"}

  function PermissionSet(): set<string> {
    set p | p in PermissionNames
  }

  /** The seeder's `run()`: create the missing permissions, give admin every
      permission in the table and viewer exactly its nine. Other roles are
      not touched. */
  function Seed(reg: Registry): (r: Registry)
    ensures PermissionSet() <= r.permissions && reg.permissions <= r.permissions
    ensures r.permissions <= reg.permissions + PermissionSet()
    ensures r.roles.Keys == reg.roles.Keys + {"admin", "viewer"}
    ensures r.roles["admin"] == r.permissions
    ensures r.roles["viewer"] == ViewerPermissions
    ensures forall role | role in reg.roles && role != "admin" && role != "viewer" :: r.roles[role] == reg.roles[role]
  {
    var perms := reg.permissions + PermissionSet();
    Registry(perms, reg.roles["admin" := perms]["viewer" := ViewerPermissions])
  }

  /** The twelve names are distinct. */
  lemma PermissionNamesDistinct()
    ensures forall i, j | 0 <= i < j < |PermissionNames| :: PermissionNames[i] != PermissionNames[j]
  {
  }

  /** A sequence without repeats has as many distinct elements as entries. */
  lemma {:induction false} DistinctElements<T>(s: seq<T>)
    requires forall i, j | 0 <= i < j < |s| :: s[i] != s[j]
    ensures |set x | x in s| == |s|
  {
    if s != [] {
      DistinctElements(s[1..]);
      assert (set x | x in s) == {s[0]} + (set x | x in s[1..]);
      assert s[0] !in s[1..];
    }
  }

  /** The seeder defines exactly twelve permissions. */
  lemma TwelvePermissions()
    ensures |PermissionSet()| == 12
  {
    PermissionNamesDistinct();
    DistinctElements(PermissionNames);
  }

  /** Running the seeder again changes nothing. */
  lemma SeedIdempotent(reg: Registry)
    ensures Seed(Seed(reg)) == Seed(reg)
  {
    var once := Seed(reg);
    assert once.permissions + PermissionSet() == once.permissions;
  }

  /** The permission names as a set. */
  lemma PermissionSetDisplay()
    ensures PermissionSet() == {
      "boards.view-any", "boards.view-own", "boards.create", "boards.update", "boards.delete",
      "columns.create", "columns.update", "columns.delete",
      "cards.create", "cards.update", "cards.delete", "cards.move"}
  {
  }

  /** The three names the viewer role lacks differ from each of its nine:
      those of equal length differ at the marked character. */
  lemma ViewerLacksThree()
    ensures "boards.view-any" !in ViewerPermissions
    ensures "boards.delete" !in ViewerPermissions
    ensures "columns.delete" !in ViewerPermissions
  {
    assert "boards.view-any"[12] != "boards.view-own"[12];
    assert "boards.delete"[7] != "boards.create"[7] && "boards.delete"[7] != "boards.update"[7];
    assert "columns.delete"[8] != "columns.create"[8] && "columns.delete"[8] != "columns.update"[8];
  }

  /** The viewer role holds nine of the twelve; it lacks boards.view-any,
      boards.delete and columns.delete. */
  lemma ViewerPermissionsOfTheTwelve()
    ensures ViewerPermissions <= PermissionSet()
    ensures PermissionSet() - ViewerPermissions == {"boards.view-any", "boards.delete", "columns.delete"}
  {
    var lacks := {"boards.view-any", "boards.delete", "columns.delete"};
    PermissionSetDisplay();
    ViewerLacksThree();
    assert PermissionSet() == ViewerPermissions + lacks;
    assert ViewerPermissions * lacks == {};
  }

  /** A user holding the admin role of a seeded table has every permission in
      the table. */
  lemma SeededAdminHasEverything(reg: Registry, u: User, p: string)
    requires IsAdmin(u)
    requires p in Seed(reg).permissions
    ensures HasPermissionTo(Seed(reg), u, p)
  {
    assert "admin" in u.roles && "admin" in Seed(reg).roles;
  }

  /** A user whose only role is viewer and who has no direct permissions, in
      a seeded table, holds exactly the viewer permissions. */
  lemma SeededViewerPermissions(reg: Registry, u: User, p: string)
    requires u.roles == {"viewer"} && u.permissions == {}
    ensures HasPermissionTo(Seed(reg), u, p) <==> p in ViewerPermissions
  {
    if p in ViewerPermissions {
      assert "viewer" in u.roles && "viewer" in Seed(reg).roles;
    }
  }

  /** The `created` closure of `User::booted()`: a user holding neither admin
      nor viewer is given viewer. Other events leave the user alone. */
  function UserHook(u: User, e: ModelEvent): (r: User)
    ensures r.id == u.id && r.name == u.name && r.permissions == u.permissions
    ensures u.roles <= r.roles
    ensures e != Created ==> r == u
    ensures e == Created ==> HasRole(r, "admin") || HasRole(r, "viewer")
    ensures e == Created && (HasRole(u, "admin") || HasRole(u, "viewer")) ==> r == u
    ensures e == Created && !HasRole(u, "admin") && !HasRole(u, "viewer") ==> r.roles == u.roles + {"viewer"}
  {
    if e == Created && !HasRole(u, "admin") && !HasRole(u, "viewer") then u.(roles := u.roles + {"viewer"})
    else u
  }

  /** Giving the default role twice is giving it once. */
  lemma UserHookIdempotent(u: User)
    ensures UserHook(UserHook(u, Created), Created) == UserHook(u, Created)
  {
  }
}

/**
 * The mongoengine collections the Django views read and write, in natural order,
 * with the lookups the views make (`objects(field=value).first()`). A reference
 * field (a user's role, a website's owner) holds the referenced document; the
 * store keeps every user's role equal to the stored role with that id, which is
 * what dereferencing the reference yields.
 */
module DjangoStore {
  import opened Wrappers
  import opened DjangoRbac
  import opened DjangoWebsiteModel

  /** rbac.models.RoleAssignment: the user's and the role's ids and who assigned it. */
  datatype Assignment = Assignment(user: string, role: string, assignedBy: Option<string>, assignedAt: int)

  /** `objects(...).first()` on a collection: the position of the first document that matches. */
  function First<T>(s: seq<T>, matches: T -> bool): (r: Option<nat>)
    ensures r.Some? ==> r.value < |s| && matches(s[r.value])
    ensures r.Some? ==> forall k :: 0 <= k < r.value ==> !matches(s[k])
    ensures r.None? <==> forall k :: 0 <= k < |s| ==> !matches(s[k])
  {
    if s == [] then None
    else if matches(s[0]) then Some(0)
    else match First(s[1..], matches)
      case None => (assert forall k :: 1 <= k < |s| ==> s[k] == s[1..][k - 1]; None)
      case Some(k) => Some(k + 1)
  }

  /** Appending a document changes the first match only when there was none before. */
  lemma FirstAppend<T>(s: seq<T>, x: T, matches: T -> bool)
    ensures First(s + [x], matches) == if First(s, matches).Some? then First(s, matches) else if matches(x) then Some(|s|) else None
  {
    if s != [] && !matches(s[0]) {
      assert (s + [x])[1..] == s[1..] + [x];
      FirstAppend(s[1..], x, matches);
    }
  }

  /** Two collections that match at the same places have the same first match. */
  lemma FirstSameMatches<T>(s: seq<T>, t: seq<T>, matches: T -> bool)
    requires |s| == |t| && forall k :: 0 <= k < |s| ==> matches(s[k]) == matches(t[k])
    ensures First(s, matches) == First(t, matches)
  {
    if s != [] && !matches(s[0]) {
      FirstSameMatches(s[1..], t[1..], matches);
    }
  }

  /** `objects(field=value)`: every document that matches, in natural order. */
  function Filter<T(!new)>(s: seq<T>, matches: T -> bool): (r: seq<T>)
    ensures |r| <= |s|
    ensures forall x :: x in r <==> x in s && matches(x)
  {
    if s == [] then [] else
      var rest := Filter(s[..|s| - 1], matches);
      assert s == s[..|s| - 1] + [s[|s| - 1]];
      if matches(s[|s| - 1]) then rest + [s[|s| - 1]] else rest
  }

  /** A query over two collections one after the other finds the first's matches, then the second's. */
  lemma {:induction false} FilterConcat<T(!new)>(a: seq<T>, b: seq<T>, matches: T -> bool)
    ensures Filter(a + b, matches) == Filter(a, matches) + Filter(b, matches)
    decreases |b|
  {
    if b == [] {
      assert a + b == a;
    } else {
      var n := |b| - 1;
      assert (a + b)[..|a + b| - 1] == a + b[..n];
      FilterConcat(a, b[..n], matches);
    }
  }

  /** Role.objects(id=id).first() */
  function RoleWithId(roles: seq<Role>, id: string): (r: Option<Role>)
    ensures r.Some? ==> r.value in roles && r.value.id == id
    ensures r.None? <==> forall k :: 0 <= k < |roles| ==> roles[k].id != id
  {
    match First(roles, (x: Role) => x.id == id)
    case None => None
    case Some(k) => Some(roles[k])
  }

  /** Role.objects(name=name).first() */
  function RoleNamed(roles: seq<Role>, name: string): (r: Option<nat>)
    ensures r.Some? ==> r.value < |roles| && roles[r.value].name == name
    ensures r.Some? ==> forall k :: 0 <= k < r.value ==> roles[k].name != name
    ensures r.None? <==> forall k :: 0 <= k < |roles| ==> roles[k].name != name
  {
    First(roles, NameIs(name))
  }

  function NameIs(name: string): Role -> bool {
    (x: Role) => x.name == name
  }

  /** User.objects(id=id).first() */
  function UserWithId(users: seq<User>, id: string): (r: Option<nat>)
    ensures r.Some? ==> r.value < |users| && users[r.value].id == id
    ensures r.None? <==> forall k :: 0 <= k < |users| ==> users[k].id != id
  {
    First(users, (x: User) => x.id == id)
  }

  /** Ids no two documents share. */
  predicate DistinctRoleIds(roles: seq<Role>) {
    forall i, j :: 0 <= i < j < |roles| ==> roles[i].id != roles[j].id
  }

  predicate DistinctUserIds(users: seq<User>) {
    forall i, j :: 0 <= i < j < |users| ==> users[i].id != users[j].id
  }

  /** In a store whose role ids are distinct, looking a stored role up by its id finds it. */
  lemma RoleWithIdFinds(roles: seq<Role>, k: nat)
    requires DistinctRoleIds(roles) && k < |roles|
    ensures RoleWithId(roles, roles[k].id) == Some(roles[k])
  {
  }

  /** The user's role reference dereferences to the role it holds. */
  predicate RoleCurrent(u: User, roles: seq<Role>) {
    u.role.Some? ==> RoleWithId(roles, u.role.value.id) == u.role
  }

  predicate RolesCurrent(users: seq<User>, roles: seq<Role>) {
    forall k :: 0 <= k < |users| ==> RoleCurrent(users[k], roles)
  }

  /** A user's role as the role documents now stand (a reference sees the role's changes). */
  function Dereferenced(u: User, roles: seq<Role>): (r: User)
    ensures r.(role := u.role) == u
    ensures u.role.None? ==> r == u
    ensures u.role.Some? && RoleWithId(roles, u.role.value.id).Some? ==> r.role == RoleWithId(roles, u.role.value.id)
  {
    if u.role.Some? && RoleWithId(roles, u.role.value.id).Some? then u.(role := RoleWithId(roles, u.role.value.id)) else u
  }

  function DereferencedAll(users: seq<User>, roles: seq<Role>): (r: seq<User>)
    ensures |r| == |users|
    ensures forall k :: 0 <= k < |users| ==> r[k] == Dereferenced(users[k], roles)
  {
    seq(|users|, k requires 0 <= k < |users| => Dereferenced(users[k], roles))
  }

  /** Once every referenced role id is still stored, dereferencing makes every reference current. */
  lemma DereferencedCurrent(users: seq<User>, roles: seq<Role>)
    requires forall k :: 0 <= k < |users| && users[k].role.Some? ==> RoleWithId(roles, users[k].role.value.id).Some?
    ensures RolesCurrent(DereferencedAll(users, roles), roles)
  {
  }

  /** The collections of the Django back-end. */
  class Db {
    var permissions: seq<Permission>
    var roles: seq<Role>
    var users: seq<User>
    var assignments: seq<Assignment>
    var websites: seq<Website>
    var sections: seq<WebsiteSection>
    var analytics: seq<WebsiteAnalytics>

    ghost predicate Valid()
      reads this
    {
      DistinctRoleIds(roles) && DistinctUserIds(users) && RolesCurrent(users, roles)
    }

    constructor()
      ensures Valid()
      ensures permissions == [] && roles == [] && users == [] && assignments == []
      ensures websites == [] && sections == [] && analytics == []
    {
      permissions, roles, users, assignments := [], [], [], [];
      websites, sections, analytics := [], [], [];
    }
  }
}

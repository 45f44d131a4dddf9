/**
 * The role service: paging over the role search, lookups that fail with 404,
 * the lock on what the super_admin role grants, and the ordered guards of delete.
 */
module RoleService {
  import opened Wrappers
  import opened Seqs
  import opened Entities
  import opened Roles
  import opened Members
  import opened Helpers

  /** The roles findAll returns for a search. */
  function Search(roles: seq<Role>, search: Option<string>): (r: seq<Role>)
    ensures forall x :: x in r ==> x in roles
    ensures !Truthy(search) ==> r == roles
    ensures Truthy(search) ==> forall x :: x in r <==> x in roles && RoleMatches(x, Lower(search.value))
  {
    if Truthy(search) then Filter(roles, (r: Role) => RoleMatches(r, Lower(search.value))) else roles
  }

  /** list: one page of the roles matching the search. */
  method List(repo: RoleRepository, search: Option<string>, page: int, pageSize: int) returns (p: Paginated<Role>)
    requires pageSize > 0
    ensures p == PaginateArray(Search(repo.roles, search), page, pageSize)
    ensures forall x :: x in p.data ==> x in repo.roles
  {
    var roles := repo.FindAll(search);
    p := PaginateArray(roles, page, pageSize);
    forall x | x in p.data ensures x in repo.roles {
      PageItemsAreItems(roles, page, pageSize, x);
    }
  }

  lemma PageItemsAreItems<T>(items: seq<T>, page: int, pageSize: int, x: T)
    requires pageSize > 0
    requires x in PaginateArray(items, page, pageSize).data
    ensures x in items
  {
    var start := (page - 1) * pageSize;
    var a := SliceIndex(start, |items|);
    var b := SliceIndex(start + pageSize, |items|);
    assert PaginateArray(items, page, pageSize).data == (if a < b then items[a..b] else []);
  }

  /** getById: the role with that id, or 404. */
  method GetById(repo: RoleRepository, id: string) returns (r: Result<Role>)
    ensures r.Ok? <==> exists i :: 0 <= i < |repo.roles| && repo.roles[i].id == id
    ensures r.Ok? ==> r.value == repo.roles[IndexOfRole(repo.roles, id)]
    ensures r.Err? ==> r.status == 404
  {
    var role := repo.FindById(id);
    if role.None? {
      return Err(404);
    }
    r := Ok(role.value);
  }

  /** create: the repository's create, unguarded. */
  method Create(repo: RoleRepository, payload: CreateRolePayload, id: string, now: string) returns (role: Role)
    modifies repo
    ensures role == NewRole(payload, id, now) && !role.isSystem
    ensures repo.roles == old(repo.roles) + [role]
  {
    role := repo.Create(payload, id, now);
  }

  /**
   * The super_admin lock: a payload that carries permissions, a scope or reveal
   * authority may not touch the system role `super_admin`. Every present value
   * of those properties is truthy (an object or a non-empty scope name).
   */
  predicate SuperAdminLocked(e: Role, p: UpdateRolePayload)
  {
    e.isSystem && e.id == "super_admin" && (p.permissions.Some? || p.scope.Some? || p.revealAuthority.Some?)
  }

  /**
   * update: 404 for an unknown role, 403 when the super_admin lock applies (and
   * the store is untouched), otherwise the repository's update.
   */
  method Update(repo: RoleRepository, id: string, payload: UpdateRolePayload, now: string) returns (r: Result<Role>)
    modifies repo
    ensures var i := IndexOfRole(old(repo.roles), id);
      if i == |old(repo.roles)| then r == Err(404) && repo.roles == old(repo.roles)
      else if SuperAdminLocked(old(repo.roles)[i], payload) then r == Err(403) && repo.roles == old(repo.roles)
      else r == Ok(UpdatedRole(old(repo.roles)[i], payload, now)) && repo.roles == old(repo.roles)[i := r.value]
  {
    var existing := repo.FindById(id);
    if existing.None? {
      return Err(404);
    }
    var e := existing.value;
    if e.isSystem && e.id == "super_admin" {
      if payload.permissions.Some? || payload.scope.Some? || payload.revealAuthority.Some? {
        return Err(403);
      }
    }
    var updated := repo.Update(id, payload, now);
    match updated
    case Some(u) => r := Ok(u);
  }

  /** Every role id a member holds names a stored role. */
  predicate RolesResolve(members: seq<Member>, roles: seq<Role>)
  {
    forall m, rid :: m in members && rid in m.roleIds ==> exists r :: r in roles && r.id == rid
  }

  /**
   * delete: checked in order — an unknown role is 404, a system role 403, a
   * role some member still holds 409 — and only then is the role removed. A
   * delete never leaves a member holding a role that no longer exists.
   */
  method Delete(roleRepo: RoleRepository, memberRepo: MemberRepository, id: string) returns (o: Outcome)
    modifies roleRepo
    ensures var i := IndexOfRole(old(roleRepo.roles), id);
      if i == |old(roleRepo.roles)| then o == Fail(404)
      else if old(roleRepo.roles)[i].isSystem then o == Fail(403)
      else if exists m :: m in memberRepo.members && id in m.roleIds then o == Fail(409)
      else o == Pass && roleRepo.roles == old(roleRepo.roles)[..i] + old(roleRepo.roles)[i + 1..]
    ensures o.Fail? ==> roleRepo.roles == old(roleRepo.roles)
    ensures RolesResolve(memberRepo.members, old(roleRepo.roles)) ==> RolesResolve(memberRepo.members, roleRepo.roles)
  {
    var existing := roleRepo.FindById(id);
    if existing.None? {
      return Fail(404);
    }
    if existing.value.isSystem {
      return Fail(403);
    }
    var memberCount := memberRepo.CountByRoleId(id);
    if memberCount > 0 {
      return Fail(409);
    }
    ghost var before := roleRepo.roles;
    ghost var i := IndexOfRole(before, id);
    var success := roleRepo.Delete(id);
    o := Pass;
    RemovingUnheldRoleKeepsResolution(memberRepo.members, before, i);
  }

  /** Removing a role no member holds keeps every member's roles resolvable. */
  lemma RemovingUnheldRoleKeepsResolution(members: seq<Member>, roles: seq<Role>, i: nat)
    requires i < |roles|
    requires forall m :: m in members ==> roles[i].id !in m.roleIds
    ensures RolesResolve(members, roles) ==> RolesResolve(members, roles[..i] + roles[i + 1..])
  {
    var rest := roles[..i] + roles[i + 1..];
    if RolesResolve(members, roles) {
      forall m, rid | m in members && rid in m.roleIds ensures exists r :: r in rest && r.id == rid {
        var r :| r in roles && r.id == rid;
        var j :| 0 <= j < |roles| && roles[j] == r;
        assert j != i;
        if j < i {
          assert rest[j] == r;
        } else {
          assert rest[j - 1] == r;
        }
      }
    }
  }
}

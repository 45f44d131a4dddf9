/**
 * The in-memory role store. `roles` is the module-level array the repository
 * mutates; the seed it is reset to is fixed at construction. New ids and
 * timestamps are supplied by the caller.
 */
module Roles {
  import opened Wrappers
  import opened Seqs
  import opened Entities

  /** The case-insensitive search of findAll: the term occurs in the name or the description. */
  predicate RoleMatches(r: Role, term: string)
  {
    Contains(Lower(r.name), term) || Contains(Lower(r.description), term)
  }

  /** The role create builds: the payload's fields, never a system role. */
  function NewRole(p: CreateRolePayload, id: string, now: string): (r: Role)
    ensures !r.isSystem && r.id == id && r.createdAt == now && r.updatedAt == now && r.createdBy == "system"
    ensures r.name == p.name && r.description == p.description
    ensures r.permissions == p.permissions && r.scope == p.scope && r.revealAuthority == p.revealAuthority
  {
    Role(id, p.name, p.description, false, p.permissions, p.scope, p.revealAuthority, now, now, "system")
  }

  /**
   * The role update stores: a system role takes only a new name and description;
   * any other role takes every field the payload carries. Identity, kind and
   * creation data never change, and updatedAt is the time of the update.
   */
  function UpdatedRole(e: Role, p: UpdateRolePayload, now: string): (r: Role)
    ensures r.(name := e.name, description := e.description, permissions := e.permissions, scope := e.scope,
               revealAuthority := e.revealAuthority, updatedAt := e.updatedAt) == e
    ensures r.updatedAt == now
    ensures r.name == Or(p.name, e.name) && r.description == Or(p.description, e.description)
    ensures e.isSystem ==> r.permissions == e.permissions && r.scope == e.scope && r.revealAuthority == e.revealAuthority
    ensures !e.isSystem ==> (r.permissions == Or(p.permissions, e.permissions) && r.scope == Or(p.scope, e.scope) &&
      r.revealAuthority == Or(p.revealAuthority, e.revealAuthority))
  {
    if e.isSystem then
      e.(name := Or(p.name, e.name), description := Or(p.description, e.description), updatedAt := now)
    else
      e.(name := Or(p.name, e.name), description := Or(p.description, e.description),
         permissions := Or(p.permissions, e.permissions), scope := Or(p.scope, e.scope),
         revealAuthority := Or(p.revealAuthority, e.revealAuthority), updatedAt := now)
  }

  /** The position of the first role with that id, or the length of the store. */
  function IndexOfRole(roles: seq<Role>, id: string): (i: nat)
    ensures i <= |roles|
    ensures i < |roles| ==> roles[i].id == id
    ensures forall j :: 0 <= j < i ==> roles[j].id != id
  {
    FirstIndex(roles, (r: Role) => r.id == id)
  }

  class RoleRepository {
    var roles: seq<Role>
    const seed: seq<Role>

    constructor(seed: seq<Role>)
      ensures this.seed == seed && roles == seed
    {
      this.seed := seed;
      roles := seed;
    }

    /** findAll: every role, or those matching a non-empty search term, in store order. */
    method FindAll(search: Option<string>) returns (results: seq<Role>)
      ensures !Truthy(search) ==> results == roles
      ensures Truthy(search) ==> results == Filter(roles, (r: Role) => RoleMatches(r, Lower(search.value)))
      ensures forall r :: r in results ==> r in roles
    {
      results := roles;
      if Truthy(search) {
        var term := Lower(search.value);
        results := Filter(results, (r: Role) => RoleMatches(r, term));
      }
    }

    /** findById: the first role with that id. */
    method FindById(id: string) returns (r: Option<Role>)
      ensures r.Some? <==> exists i :: 0 <= i < |roles| && roles[i].id == id
      ensures r.Some? ==> r.value == roles[IndexOfRole(roles, id)]
    {
      r := Find(roles, (role: Role) => role.id == id);
    }

    /** findByIds: the listed roles, in store order. */
    method FindByIds(ids: seq<string>) returns (results: seq<Role>)
      ensures results == Filter(roles, (r: Role) => r.id in ids)
      ensures forall r :: r in results <==> r in roles && r.id in ids
    {
      results := Filter(roles, (r: Role) => r.id in ids);
    }

    /** create: appends one new, non-system role. */
    method Create(payload: CreateRolePayload, id: string, now: string) returns (role: Role)
      modifies this
      ensures role == NewRole(payload, id, now)
      ensures roles == old(roles) + [role]
    {
      role := NewRole(payload, id, now);
      roles := roles + [role];
    }

    /** update: an unknown id changes nothing; otherwise only that role is replaced by its update. */
    method Update(id: string, payload: UpdateRolePayload, now: string) returns (r: Option<Role>)
      modifies this
      ensures var i := IndexOfRole(old(roles), id);
        if i == |old(roles)| then r.None? && roles == old(roles)
        else r == Some(UpdatedRole(old(roles)[i], payload, now)) && roles == old(roles)[i := r.value]
    {
      var index := IndexOfRole(roles, id);
      if index == |roles| {
        return None;
      }
      var updated := UpdatedRole(roles[index], payload, now);
      roles := roles[index := updated];
      r := Some(updated);
    }

    /** delete: removes the first role with that id unless it is unknown or a system role. */
    method Delete(id: string) returns (ok: bool)
      modifies this
      ensures var i := IndexOfRole(old(roles), id);
        ok == (i < |old(roles)| && !old(roles)[i].isSystem) &&
        roles == if ok then old(roles)[..i] + old(roles)[i + 1..] else old(roles)
      ensures forall r :: r in old(roles) && r.isSystem ==> r in roles
    {
      var index := IndexOfRole(roles, id);
      if index == |roles| {
        return false;
      }
      if roles[index].isSystem {
        return false;
      }
      ghost var before := roles;
      roles := roles[..index] + roles[index + 1..];
      ok := true;
      forall r | r in before && r.isSystem ensures r in roles {
        var j :| 0 <= j < |before| && before[j] == r;
        if j < index {
          assert roles[j] == r;
        } else {
          assert j > index;
          assert roles[j - 1] == r;
        }
      }
    }

    /** reset: back to the seed. */
    method Reset()
      modifies this
      ensures roles == seed
    {
      roles := seed;
    }
  }

  /** An update of a system role leaves what it grants untouched, whatever the payload. */
  lemma SystemRoleGrantsAreImmutable(e: Role, p: UpdateRolePayload, now: string)
    requires e.isSystem
    ensures UpdatedRole(e, p, now).isSystem
    ensures UpdatedRole(e, p, now).permissions == e.permissions
    ensures UpdatedRole(e, p, now).scope == e.scope
    ensures UpdatedRole(e, p, now).revealAuthority == e.revealAuthority
  {
  }
}

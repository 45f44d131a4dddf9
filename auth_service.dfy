/**
 * The auth service: a cache of resolved user contexts that live for five
 * minutes, resolution from the member and role stores with a fallback to the
 * `general` role, invalidation, and the context-plus-rules response. The clock
 * is the `now` parameter, in milliseconds.
 */
module Auth {
  import opened Wrappers
  import opened Seqs
  import opened Permissions
  import opened Entities
  import opened Resolver
  import opened Members
  import opened Roles
  import RolesData
  import Casl

  /** CACHE_TTL_MS: five minutes. */
  const CacheTtlMs: int := 5 * 60 * 1000

  datatype CacheEntry = CacheEntry(context: UserContext, expiresAt: int)

  /** The response of the auth-context endpoint: the context and its ability's rules. */
  datatype AuthContextResponse = AuthContextResponse(user: UserContext, rules: set<Casl.Rule>)

  /**
   * The roles a member's context is resolved from: the stored roles it holds, in
   * store order, or the `general` role alone when it holds none that exist.
   */
  function RolesFor(roles: seq<Role>, member: Member): (r: seq<Role>)
    ensures forall x :: x in r ==> x in roles
    ensures (exists x :: x in roles && x.id in member.roleIds) ==>
      forall x :: x in r <==> x in roles && x.id in member.roleIds
    ensures (forall x :: x in roles ==> x.id !in member.roleIds) ==>
      r == (match Find(roles, (x: Role) => x.id == "general") case Some(g) => [g] case None => [])
  {
    var held := Filter(roles, (x: Role) => x.id in member.roleIds);
    if |held| == 0 then
      match Find(roles, (x: Role) => x.id == "general")
      case Some(g) => [g]
      case None => []
    else
      assert held[0] in held;
      held
  }

  /**
   * The auth service with its context cache. In the program the cache is one
   * module-level map shared by every service instance, so one object of this
   * class stands for all of them: a `ClearCache` anywhere empties it for every
   * handler.
   */
  class AuthService {
    var cache: map<string, CacheEntry>
    const memberRepo: MemberRepository
    const roleRepo: RoleRepository

    constructor(memberRepo: MemberRepository, roleRepo: RoleRepository)
      ensures this.memberRepo == memberRepo && this.roleRepo == roleRepo
      ensures cache == map[]
    {
      this.memberRepo := memberRepo;
      this.roleRepo := roleRepo;
      cache := map[];
    }

    /** The cache holds an entry for the user that has not expired at `now`. */
    predicate Fresh(userId: string, now: int)
      reads this
    {
      userId in cache && cache[userId].expiresAt > now
    }

    /**
     * resolveContext: an unexpired cached context is returned as it is, the
     * repositories aside; otherwise an unknown member is an error (500) and a
     * known one is resolved from its roles and cached for CacheTtlMs.
     */
    method ResolveContext(userId: string, now: int) returns (r: Result<UserContext>)
      modifies this
      ensures old(Fresh(userId, now)) ==> r == Ok(old(cache)[userId].context) && cache == old(cache)
      ensures !old(Fresh(userId, now)) ==>
        match Find(memberRepo.members, (m: Member) => m.uuid == userId)
        case None => r == Err(500) && cache == old(cache)
        case Some(member) =>
          r == Ok(ResolvedContext(member, RolesFor(roleRepo.roles, member))) &&
          cache == old(cache)[userId := CacheEntry(r.value, now + CacheTtlMs)]
    {
      if userId in cache {
        var cached := cache[userId];
        if cached.expiresAt > now {
          return Ok(cached.context);
        }
      }
      var member := memberRepo.FindById(userId);
      if member.None? {
        return Err(500);
      }
      var roles := roleRepo.FindByIds(member.value.roleIds);
      if |roles| == 0 {
        var generalRole := roleRepo.FindById("general");
        if generalRole.Some? {
          roles := roles + [generalRole.value];
        }
      }
      var context := ResolveUserContext(member.value, roles);
      cache := cache[userId := CacheEntry(context, now + CacheTtlMs)];
      r := Ok(context);
    }

    /** clearCache: forget one user's entry, or every entry when no user is named. */
    method ClearCache(userId: Option<string>)
      modifies this
      ensures Truthy(userId) ==> cache == old(cache) - {userId.value}
      ensures !Truthy(userId) ==> cache == map[]
    {
      if Truthy(userId) {
        cache := cache - {userId.value};
      } else {
        cache := map[];
      }
    }

    /** getAuthContextResponse: the resolved context and the rules of the ability built from it. */
    method GetAuthContextResponse(userId: string, now: int) returns (r: Result<AuthContextResponse>)
      modifies this
      ensures r.Ok? <==> old(Fresh(userId, now)) || Find(memberRepo.members, (m: Member) => m.uuid == userId).Some?
      ensures r.Ok? ==> userId in cache && r.value.user == cache[userId].context
      ensures r.Ok? ==> forall rule :: rule in r.value.rules <==> Casl.IsGrantedRule(r.value.user, rule)
      ensures r.Err? ==> r.status == 500
    {
      var context := ResolveContext(userId, now);
      if context.Err? {
        return Err(context.status);
      }
      var ability := Casl.BuildAbility(context.value);
      r := Ok(AuthContextResponse(context.value, ability.rules));
    }
  }

  /**
   * A member who holds none of the seeded roles falls back to `general`: its
   * context has scope Self, may only view and edit members, and reveals nothing.
   */
  lemma FallbackIsGeneral(member: Member)
    requires forall x :: x in RolesData.MockRoles ==> x.id !in member.roleIds
    ensures RolesFor(RolesData.MockRoles, member) == [RolesData.General]
    ensures ResolvedContext(member, [RolesData.General]).scope == Self
    ensures forall k :: Granted(ResolvedContext(member, [RolesData.General]).permissions, k) <==> k == MemberView || k == MemberEdit
    ensures forall f :: !Granted(ResolvedContext(member, [RolesData.General]).revealAuthority, f)
  {
    RolesData.MockRolesWellFormed();
    RolesData.GeneralRoleIsMinimal();
    var roles := RolesData.MockRoles;
    assert Find(roles, (x: Role) => x.id == "general") == Some(RolesData.General) by {
      assert roles[4] == RolesData.General;
      assert forall j :: 0 <= j < 4 ==> roles[j].id != "general";
    }
    var ctx := ResolvedContext(member, [RolesData.General]);
    assert Rank(RolesData.General.scope) == 0;
    forall k ensures Granted(ctx.permissions, k) <==> Granted(RolesData.General.permissions, k) {
      assert AnyGrantsPermission([RolesData.General], k) <==> Granted(RolesData.General.permissions, k);
    }
    forall f ensures !Granted(ctx.revealAuthority, f) {
      assert AnyGrantsReveal([RolesData.General], f) <==> Granted(RolesData.General.revealAuthority, f);
    }
  }
}

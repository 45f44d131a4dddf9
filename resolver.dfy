/**
 * Multi-role resolution by the Union strategy: the resolved scope is the
 * broadest scope of any role, and a permission or reveal field is granted
 * when any role grants it.
 */
module Resolver {
  import opened Wrappers
  import opened Seqs
  import opened Permissions
  import opened Entities

  // ---------------------------------------------------------------------------
  // Specification
  // ---------------------------------------------------------------------------

  /**
   * The highest SCOPE_HIERARCHY index among the roles' scopes, starting from 0:
   * no role yields Self.
   */
  function MaxRank(roles: seq<Role>): (m: nat)
    ensures m < |ScopeHierarchy|
    ensures forall i :: 0 <= i < |roles| ==> Rank(roles[i].scope) <= m
    ensures m == 0 || exists i :: 0 <= i < |roles| && Rank(roles[i].scope) == m
  {
    if roles == [] then 0
    else
      var m := MaxRank(roles[..|roles| - 1]);
      var r := Rank(roles[|roles| - 1].scope);
      if r > m then r else m
  }

  /** The broadest scope of the roles: no role has a broader one, and it is some role's scope or Self. */
  function BroadestScope(roles: seq<Role>): (s: DataScope)
    ensures forall i :: 0 <= i < |roles| ==> Rank(roles[i].scope) <= Rank(s)
    ensures s == Self || exists i :: 0 <= i < |roles| && roles[i].scope == s
  {
    ScopeHierarchy[MaxRank(roles)]
  }

  predicate AnyGrantsPermission(roles: seq<Role>, k: PermissionKey)
  {
    exists i :: 0 <= i < |roles| && Granted(roles[i].permissions, k)
  }

  predicate AnyGrantsReveal(roles: seq<Role>, f: SensitiveField)
  {
    exists i :: 0 <= i < |roles| && Granted(roles[i].revealAuthority, f)
  }

  /** The union of the roles' permissions, as a full record. */
  function UnionPermissions(roles: seq<Role>): (m: map<PermissionKey, bool>)
    ensures forall k :: k in m && (m[k] <==> AnyGrantsPermission(roles, k))
  {
    AllPermissionKeysComplete();
    map k | k in AllPermissionKeys :: AnyGrantsPermission(roles, k)
  }

  /** The union of the roles' reveal authorities, as a full record. */
  function UnionRevealAuthority(roles: seq<Role>): (m: map<SensitiveField, bool>)
    ensures forall f :: f in m && (m[f] <==> AnyGrantsReveal(roles, f))
  {
    AllSensitiveFieldsComplete();
    map f | f in AllSensitiveFields :: AnyGrantsReveal(roles, f)
  }

  /** `[member.groupId]` when the member has a group, otherwise `[]`. */
  function OwnGroupIds(member: Member): (ids: seq<string>)
    ensures |ids| <= 1
    ensures forall g :: g in ids <==> Truthy(member.groupId) && g == member.groupId.value
  {
    if Truthy(member.groupId) then [member.groupId.value] else []
  }

  /** The context resolveUserContext builds for a member holding the given roles. */
  function ResolvedContext(member: Member, roles: seq<Role>): UserContext
  {
    var groupIds := OwnGroupIds(member);
    UserContext(
      member.uuid, member.fullName, BroadestScope(roles), member.zoneId,
      groupIds, member.functionalGroupIds, Dedup(groupIds + member.functionalGroupIds),
      UnionPermissions(roles), UnionRevealAuthority(roles))
  }

  // ---------------------------------------------------------------------------
  // The resolver's loops
  // ---------------------------------------------------------------------------

  /** resolveBroadestScope. */
  method ResolveBroadestScope(roles: seq<Role>) returns (scope: DataScope)
    ensures scope == BroadestScope(roles)
  {
    var maxIndex := 0;
    for i := 0 to |roles|
      invariant maxIndex == MaxRank(roles[..i])
    {
      assert roles[..i + 1][..i] == roles[..i];
      var index := Rank(roles[i].scope);
      if index > maxIndex {
        maxIndex := index;
      }
    }
    assert roles[..|roles|] == roles;
    scope := ScopeHierarchy[maxIndex];
  }

  /** resolveUnionPermissions: every role, then every key, sets the key when the role grants it. */
  method ResolveUnionPermissions(roles: seq<Role>) returns (result: map<PermissionKey, bool>)
    ensures result == UnionPermissions(roles)
  {
    result := CreateEmptyPermissions();
    for i := 0 to |roles|
      invariant forall k :: k in result && (result[k] <==> AnyGrantsPermission(roles[..i], k))
    {
      for j := 0 to |AllPermissionKeys|
        invariant forall k :: k in result && (result[k] <==>
          AnyGrantsPermission(roles[..i], k) || (k in AllPermissionKeys[..j] && Granted(roles[i].permissions, k)))
      {
        var key := AllPermissionKeys[j];
        assert AllPermissionKeys[..j + 1] == AllPermissionKeys[..j] + [key];
        if Granted(roles[i].permissions, key) {
          result := result[key := true];
        }
      }
      assert AllPermissionKeys[..|AllPermissionKeys|] == AllPermissionKeys;
      AllPermissionKeysComplete();
      forall k ensures AnyGrantsPermission(roles[..i + 1], k) <==>
        AnyGrantsPermission(roles[..i], k) || Granted(roles[i].permissions, k)
      {
        PrefixStep(roles, i);
      }
    }
    assert roles[..|roles|] == roles;
    SameTotalRecords(result, UnionPermissions(roles));
  }

  /** resolveUnionRevealAuthority: every role, then every field, sets the field when the role grants it. */
  method ResolveUnionRevealAuthority(roles: seq<Role>) returns (result: map<SensitiveField, bool>)
    ensures result == UnionRevealAuthority(roles)
  {
    result := CreateEmptyRevealAuthority();
    for i := 0 to |roles|
      invariant forall f :: f in result && (result[f] <==> AnyGrantsReveal(roles[..i], f))
    {
      for j := 0 to |AllSensitiveFields|
        invariant forall f :: f in result && (result[f] <==>
          AnyGrantsReveal(roles[..i], f) || (f in AllSensitiveFields[..j] && Granted(roles[i].revealAuthority, f)))
      {
        var field := AllSensitiveFields[j];
        assert AllSensitiveFields[..j + 1] == AllSensitiveFields[..j] + [field];
        if Granted(roles[i].revealAuthority, field) {
          result := result[field := true];
        }
      }
      assert AllSensitiveFields[..|AllSensitiveFields|] == AllSensitiveFields;
      AllSensitiveFieldsComplete();
      forall f ensures AnyGrantsReveal(roles[..i + 1], f) <==>
        AnyGrantsReveal(roles[..i], f) || Granted(roles[i].revealAuthority, f)
      {
        PrefixStep(roles, i);
      }
    }
    assert roles[..|roles|] == roles;
    SameTotalRecords(result, UnionRevealAuthority(roles));
  }

  /** Two records that hold every key with the same values are equal. */
  lemma SameTotalRecords<K>(a: map<K, bool>, b: map<K, bool>)
    requires forall k :: k in a && k in b && a[k] == b[k]
    ensures a == b
  {
    assert a.Keys == b.Keys;
  }

  lemma PrefixStep(roles: seq<Role>, i: nat)
    requires i < |roles|
    ensures forall j :: 0 <= j < i + 1 ==> roles[..i + 1][j] == (if j < i then roles[..i][j] else roles[i])
  {
  }

  /** resolveUserContext. */
  method ResolveUserContext(member: Member, roles: seq<Role>) returns (ctx: UserContext)
    ensures ctx == ResolvedContext(member, roles)
  {
    var scope := ResolveBroadestScope(roles);
    var permissions := ResolveUnionPermissions(roles);
    var revealAuthority := ResolveUnionRevealAuthority(roles);
    var groupIds := if Truthy(member.groupId) then [member.groupId.value] else [];
    var managedGroupIds := Dedup(groupIds + member.functionalGroupIds);
    ctx := UserContext(member.uuid, member.fullName, scope, member.zoneId, groupIds,
                       member.functionalGroupIds, managedGroupIds, permissions, revealAuthority);
  }

  // ---------------------------------------------------------------------------
  // Properties of the Union strategy
  // ---------------------------------------------------------------------------

  /**
   * Holding more roles never takes anything away: the scope is at least as broad
   * and every permission and reveal field stays granted.
   */
  lemma MoreRolesGrantMore(roles: seq<Role>, more: seq<Role>)
    requires forall r :: r in roles ==> r in more
    ensures Rank(BroadestScope(roles)) <= Rank(BroadestScope(more))
    ensures forall k :: Granted(UnionPermissions(roles), k) ==> Granted(UnionPermissions(more), k)
    ensures forall f :: Granted(UnionRevealAuthority(roles), f) ==> Granted(UnionRevealAuthority(more), f)
  {
    var s := BroadestScope(roles);
    if s != Self {
      var i :| 0 <= i < |roles| && roles[i].scope == s;
      assert roles[i] in more;
    }
    forall k | Granted(UnionPermissions(roles), k)
      ensures Granted(UnionPermissions(more), k)
    {
      var i :| 0 <= i < |roles| && Granted(roles[i].permissions, k);
      assert roles[i] in more;
    }
    forall f | Granted(UnionRevealAuthority(roles), f)
      ensures Granted(UnionRevealAuthority(more), f)
    {
      var i :| 0 <= i < |roles| && Granted(roles[i].revealAuthority, f);
      assert roles[i] in more;
    }
  }

  /** The resolved context depends on which roles are held, not on their order or repetition. */
  lemma ResolutionIgnoresRoleOrder(member: Member, roles: seq<Role>, others: seq<Role>)
    requires forall r :: r in roles <==> r in others
    ensures ResolvedContext(member, roles) == ResolvedContext(member, others)
  {
    MoreRolesGrantMore(roles, others);
    MoreRolesGrantMore(others, roles);
    RankInjective(BroadestScope(roles), BroadestScope(others));
    forall k ensures UnionPermissions(roles)[k] == UnionPermissions(others)[k] {
      assert Granted(UnionPermissions(roles), k) <==> Granted(UnionPermissions(others), k);
    }
    forall f ensures UnionRevealAuthority(roles)[f] == UnionRevealAuthority(others)[f] {
      assert Granted(UnionRevealAuthority(roles), f) <==> Granted(UnionRevealAuthority(others), f);
    }
    SameTotalRecords(UnionPermissions(roles), UnionPermissions(others));
    SameTotalRecords(UnionRevealAuthority(roles), UnionRevealAuthority(others));
  }

  lemma RankInjective(a: DataScope, b: DataScope)
    requires Rank(a) == Rank(b)
    ensures a == b
  {
  }

  /** Without roles the user has Self scope and nothing is granted. */
  lemma NoRolesGrantNothing(member: Member)
    ensures ResolvedContext(member, []).scope == Self
    ensures forall k :: !Granted(ResolvedContext(member, []).permissions, k)
    ensures forall f :: !Granted(ResolvedContext(member, []).revealAuthority, f)
  {
  }

  /**
   * managedGroupIds is the union of the member's own group and functional groups,
   * without repetition, and starts with the member's own group when there is one.
   */
  lemma ManagedGroupIdsAreUnion(member: Member, roles: seq<Role>)
    ensures var ctx := ResolvedContext(member, roles);
      NoDuplicates(ctx.managedGroupIds) &&
      (forall g :: g in ctx.managedGroupIds <==>
        (Truthy(member.groupId) && g == member.groupId.value) || g in member.functionalGroupIds) &&
      (Truthy(member.groupId) ==> ctx.managedGroupIds[0] == member.groupId.value)
  {
    var groupIds := OwnGroupIds(member);
    if Truthy(member.groupId) {
      DedupHead(groupIds + member.functionalGroupIds);
    }
  }
}

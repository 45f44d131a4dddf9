/**
 * The role input schemas. Permission and reveal-authority records arrive with
 * their wire keys; a record may list any subset of the known keys and nothing
 * else.
 */
module RoleSchema {
  import opened Wrappers
  import opened Permissions
  import opened Entities

  datatype RawRole = RawRole(
    name: Option<string>,
    description: Option<string>,
    permissions: Option<map<string, bool>>,
    scope: Option<string>,
    revealAuthority: Option<map<string, bool>>)

  function ParseScope(s: string): (r: Option<DataScope>)
    ensures r.Some? <==> s == "Global" || s == "Zone" || s == "Group" || s == "Self"
  {
    if s == "Global" then Some(Global)
    else if s == "Zone" then Some(DataScope.Zone)
    else if s == "Group" then Some(DataScope.Group)
    else if s == "Self" then Some(Self)
    else None
  }

  /** `z.record(z.enum(permissionKeys), z.boolean())`: every key is a permission key's wire name. */
  function ParsePermissions(raw: map<string, bool>): (r: Option<map<PermissionKey, bool>>)
    ensures r.Some? <==> forall s :: s in raw ==> KeyFromName(s).Some?
    ensures r.Some? ==> forall k :: (k in r.value <==> KeyName(k) in raw) && (k in r.value ==> r.value[k] == raw[KeyName(k)])
  {
    if forall s :: s in raw ==> KeyFromName(s).Some? then
      AllPermissionKeysComplete();
      Some(map k | k in AllPermissionKeys && KeyName(k) in raw :: raw[KeyName(k)])
    else None
  }

  /** `z.record(z.enum(sensitiveFields), z.boolean())`: every key is a sensitive field's wire name. */
  function ParseRevealAuthority(raw: map<string, bool>): (r: Option<map<SensitiveField, bool>>)
    ensures r.Some? <==> forall s :: s in raw ==> FieldFromName(s).Some?
    ensures r.Some? ==> forall f :: (f in r.value <==> FieldName(f) in raw) && (f in r.value ==> r.value[f] == raw[FieldName(f)])
  {
    if forall s :: s in raw ==> FieldFromName(s).Some? then
      AllSensitiveFieldsComplete();
      Some(map f | f in AllSensitiveFields && FieldName(f) in raw :: raw[FieldName(f)])
    else None
  }

  /** Every key of a parsed record is written back under the key it came from: no key is lost or renamed. */
  lemma PermissionsRoundTrip(raw: map<string, bool>)
    requires ParsePermissions(raw).Some?
    ensures forall s :: s in raw ==>
      (KeyFromName(s).value in ParsePermissions(raw).value &&
       ParsePermissions(raw).value[KeyFromName(s).value] == raw[s])
  {
  }

  /** The rules of each present property of createRoleSchema. */
  predicate PresentFieldsValid(raw: RawRole)
  {
    (raw.name.Some? ==> 1 <= |raw.name.value| <= 50) &&
    (raw.description.Some? ==> |raw.description.value| <= 200) &&
    (raw.permissions.Some? ==> ParsePermissions(raw.permissions.value).Some?) &&
    (raw.scope.Some? ==> ParseScope(raw.scope.value).Some?) &&
    (raw.revealAuthority.Some? ==> ParseRevealAuthority(raw.revealAuthority.value).Some?)
  }

  /** createRoleSchema: name, permissions, scope and reveal authority are required; description defaults to "". */
  function ParseCreateRole(raw: RawRole): (r: Option<CreateRolePayload>)
    ensures r.Some? <==> raw.name.Some? && raw.permissions.Some? && raw.scope.Some? && raw.revealAuthority.Some? &&
                         PresentFieldsValid(raw)
    ensures r.Some? ==> r.value.name == raw.name.value && 1 <= |r.value.name| <= 50
    ensures r.Some? ==> r.value.description == Or(raw.description, "") && |r.value.description| <= 200
    ensures r.Some? ==> Some(r.value.scope) == ParseScope(raw.scope.value)
    ensures r.Some? ==> Some(r.value.permissions) == ParsePermissions(raw.permissions.value)
    ensures r.Some? ==> Some(r.value.revealAuthority) == ParseRevealAuthority(raw.revealAuthority.value)
  {
    if raw.name.None? || raw.permissions.None? || raw.scope.None? || raw.revealAuthority.None? ||
       !PresentFieldsValid(raw)
    then None
    else
      Some(CreateRolePayload(
        raw.name.value,
        Or(raw.description, ""),
        ParsePermissions(raw.permissions.value).value,
        ParseScope(raw.scope.value).value,
        ParseRevealAuthority(raw.revealAuthority.value).value))
  }

  /** updateRoleSchema (`createRoleSchema.partial()`): every property may be absent and none is defaulted. */
  function ParseUpdateRole(raw: RawRole): (r: Option<UpdateRolePayload>)
    ensures r.Some? <==> PresentFieldsValid(raw)
    ensures r.Some? ==> r.value.name == raw.name && r.value.description == raw.description
    ensures r.Some? ==> (r.value.scope.Some? <==> raw.scope.Some?) &&
                        (r.value.permissions.Some? <==> raw.permissions.Some?) &&
                        (r.value.revealAuthority.Some? <==> raw.revealAuthority.Some?)
    ensures r.Some? && raw.scope.Some? ==> r.value.scope == ParseScope(raw.scope.value)
    ensures r.Some? && raw.permissions.Some? ==> r.value.permissions == ParsePermissions(raw.permissions.value)
    ensures r.Some? && raw.revealAuthority.Some? ==>
      r.value.revealAuthority == ParseRevealAuthority(raw.revealAuthority.value)
  {
    if !PresentFieldsValid(raw) then None
    else
      Some(UpdateRolePayload(
        raw.name,
        raw.description,
        if raw.permissions.Some? then ParsePermissions(raw.permissions.value) else None,
        if raw.scope.Some? then ParseScope(raw.scope.value) else None,
        if raw.revealAuthority.Some? then ParseRevealAuthority(raw.revealAuthority.value) else None))
  }

  /** Every property may be left out of an update. */
  lemma EmptyRoleUpdateAccepted()
    ensures ParseUpdateRole(RawRole(None, None, None, None, None)) == Some(UpdateRolePayload(None, None, None, None, None))
  {
  }

  /** A valid create body is a valid update body. */
  lemma CreateRoleBodyIsUpdateBody(raw: RawRole)
    requires ParseCreateRole(raw).Some?
    ensures ParseUpdateRole(raw).Some?
  {
  }

  /** The query of the role list: an optional search, page 1 of 20 by default, at most 100 per page. */
  datatype RoleQuery = RoleQuery(search: Option<string>, page: nat, pageSize: nat)

  function ParseRoleFilters(search: Option<string>, page: Option<int>, pageSize: Option<int>): (r: Option<RoleQuery>)
    ensures r.Some? <==> (page.Some? ==> page.value >= 1) && (pageSize.Some? ==> 1 <= pageSize.value <= 100)
    ensures r.Some? ==> r.value.search == search && r.value.page >= 1 && 1 <= r.value.pageSize <= 100
    ensures r.Some? ==> r.value.page == (if page.Some? then page.value else 1)
    ensures r.Some? ==> r.value.pageSize == (if pageSize.Some? then pageSize.value else 20)
  {
    if page.Some? && page.value < 1 then None
    else if pageSize.Some? && !(1 <= pageSize.value <= 100) then None
    else Some(RoleQuery(search, if page.Some? then page.value else 1, if pageSize.Some? then pageSize.value else 20))
  }
}

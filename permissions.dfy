/**
 * The permission catalogue: the closed sets of functional permission keys
 * (the X axis), sensitive fields (the Z axis) and data scopes (the Y axis),
 * their wire names and labels, and the builders of all-false records.
 */
module Permissions {
  import opened Wrappers

  // ---------------------------------------------------------------------------
  // Permission keys (X axis)
  // ---------------------------------------------------------------------------

  datatype PermissionKey =
    | DashboardView | DashboardExport
    | MemberView | MemberCreate | MemberEdit | MemberDelete | MemberExport
    | OrgView | OrgManage
    | SystemConfig
    | CourseView | CourseManage | CourseGrade

  /** The wire name of a permission key. */
  function KeyName(k: PermissionKey): string
  {
    match k
    case DashboardView => "dashboard:view"
    case DashboardExport => "dashboard:export"
    case MemberView => "member:view"
    case MemberCreate => "member:create"
    case MemberEdit => "member:edit"
    case MemberDelete => "member:delete"
    case MemberExport => "member:export"
    case OrgView => "org:view"
    case OrgManage => "org:manage"
    case SystemConfig => "system:config"
    case CourseView => "course:view"
    case CourseManage => "course:manage"
    case CourseGrade => "course:grade"
  }

  /** The key whose wire name is `s`, if any (how a record key is read back). */
  function KeyFromName(s: string): (r: Option<PermissionKey>)
    ensures r.Some? ==> KeyName(r.value) == s
  {
    if s == "dashboard:view" then Some(DashboardView)
    else if s == "dashboard:export" then Some(DashboardExport)
    else if s == "member:view" then Some(MemberView)
    else if s == "member:create" then Some(MemberCreate)
    else if s == "member:edit" then Some(MemberEdit)
    else if s == "member:delete" then Some(MemberDelete)
    else if s == "member:export" then Some(MemberExport)
    else if s == "org:view" then Some(OrgView)
    else if s == "org:manage" then Some(OrgManage)
    else if s == "system:config" then Some(SystemConfig)
    else if s == "course:view" then Some(CourseView)
    else if s == "course:manage" then Some(CourseManage)
    else if s == "course:grade" then Some(CourseGrade)
    else None
  }

  /** Reading back a wire name gives the key it names, so wire names are distinct. */
  lemma KeyNameRoundTrip(k: PermissionKey)
    ensures KeyFromName(KeyName(k)) == Some(k)
  {
  }

  lemma KeyNameInjective(k1: PermissionKey, k2: PermissionKey)
    requires KeyName(k1) == KeyName(k2)
    ensures k1 == k2
  {
    KeyNameRoundTrip(k1);
    KeyNameRoundTrip(k2);
  }

  /** ALL_PERMISSION_KEYS, in catalogue order. */
  const AllPermissionKeys: seq<PermissionKey> := [
    DashboardView, DashboardExport,
    MemberView, MemberCreate, MemberEdit, MemberDelete, MemberExport,
    OrgView, OrgManage,
    SystemConfig,
    CourseView, CourseManage, CourseGrade
  ]

  /** The position of a key in ALL_PERMISSION_KEYS. */
  function KeyIndex(k: PermissionKey): (i: nat)
    ensures i < |AllPermissionKeys| && AllPermissionKeys[i] == k
  {
    match k
    case DashboardView => 0
    case DashboardExport => 1
    case MemberView => 2
    case MemberCreate => 3
    case MemberEdit => 4
    case MemberDelete => 5
    case MemberExport => 6
    case OrgView => 7
    case OrgManage => 8
    case SystemConfig => 9
    case CourseView => 10
    case CourseManage => 11
    case CourseGrade => 12
  }

  /** ALL_PERMISSION_KEYS lists the 13 keys, each exactly once. */
  lemma AllPermissionKeysComplete()
    ensures |AllPermissionKeys| == 13
    ensures forall k :: k in AllPermissionKeys
    ensures forall i, j :: 0 <= i < j < |AllPermissionKeys| ==> AllPermissionKeys[i] != AllPermissionKeys[j]
  {
    forall k ensures k in AllPermissionKeys {
      assert AllPermissionKeys[KeyIndex(k)] == k;
    }
    forall i, j | 0 <= i < j < |AllPermissionKeys|
      ensures AllPermissionKeys[i] != AllPermissionKeys[j]
    {
      assert KeyIndex(AllPermissionKeys[i]) == i;
      assert KeyIndex(AllPermissionKeys[j]) == j;
    }
  }

  /** PERMISSION_LABELS. */
  function PermissionLabel(k: PermissionKey): string
  {
    match k
    case DashboardView => "檢視儀表板"
    case DashboardExport => "匯出儀表板資料"
    case MemberView => "檢視會友資料"
    case MemberCreate => "建立會友"
    case MemberEdit => "編輯會友"
    case MemberDelete => "刪除會友"
    case MemberExport => "匯出會友資料"
    case OrgView => "檢視組織架構"
    case OrgManage => "管理組織架構"
    case SystemConfig => "系統設定"
    case CourseView => "檢視課程"
    case CourseManage => "管理課程"
    case CourseGrade => "評分"
  }

  datatype GroupedPermission = GroupedPermission(key: PermissionKey, caption: string)
  datatype PermissionGroup = PermissionGroup(caption: string, icon: string, permissions: seq<GroupedPermission>)

  /** PERMISSION_GROUPS, the grouping shown by the role editor. */
  const PermissionGroups: seq<PermissionGroup> := [
    PermissionGroup("儀表板 & 數據", "pi pi-chart-bar", [
      GroupedPermission(DashboardView, "檢視儀表板"),
      GroupedPermission(DashboardExport, "匯出儀表板資料")]),
    PermissionGroup("人員管理", "pi pi-users", [
      GroupedPermission(MemberView, "檢視會友資料"),
      GroupedPermission(MemberCreate, "建立會友"),
      GroupedPermission(MemberEdit, "編輯會友"),
      GroupedPermission(MemberDelete, "刪除會友"),
      GroupedPermission(MemberExport, "匯出會友資料")]),
    PermissionGroup("組織架構", "pi pi-sitemap", [
      GroupedPermission(OrgView, "檢視組織架構"),
      GroupedPermission(OrgManage, "管理組織架構")]),
    PermissionGroup("系統設定", "pi pi-cog", [
      GroupedPermission(SystemConfig, "系統設定")]),
    PermissionGroup("課程管理", "pi pi-book", [
      GroupedPermission(CourseView, "檢視課程"),
      GroupedPermission(CourseManage, "管理課程"),
      GroupedPermission(CourseGrade, "評分")])
  ]

  /** The keys of a list of groups, group after group. */
  function GroupedKeys(groups: seq<PermissionGroup>): seq<PermissionKey>
  {
    if groups == [] then []
    else KeysOf(groups[0].permissions) + GroupedKeys(groups[1..])
  }

  function KeysOf(ps: seq<GroupedPermission>): (r: seq<PermissionKey>)
    ensures |r| == |ps| && forall i :: 0 <= i < |ps| ==> r[i] == ps[i].key
  {
    if ps == [] then [] else [ps[0].key] + KeysOf(ps[1..])
  }

  /**
   * Read group after group, PERMISSION_GROUPS lists exactly ALL_PERMISSION_KEYS,
   * so every key appears in exactly one group, exactly once.
   */
  lemma PermissionGroupsPartitionKeys()
    ensures GroupedKeys(PermissionGroups) == AllPermissionKeys
    ensures forall k :: multiset(GroupedKeys(PermissionGroups))[k] == 1
  {
    GroupedKeysAreAllKeys();
    AllKeysOccurOnce();
  }

  /** Group after group, PERMISSION_GROUPS lists ALL_PERMISSION_KEYS in its order. */
  lemma GroupedKeysAreAllKeys()
    ensures GroupedKeys(PermissionGroups) == AllPermissionKeys
  {
    var g := PermissionGroups;
    assert KeysOf(g[4].permissions) == [CourseView, CourseManage, CourseGrade];
    assert KeysOf(g[3].permissions) == [SystemConfig];
    assert KeysOf(g[2].permissions) == [OrgView, OrgManage];
    assert KeysOf(g[1].permissions) == [MemberView, MemberCreate, MemberEdit, MemberDelete, MemberExport];
    assert KeysOf(g[0].permissions) == [DashboardView, DashboardExport];
    assert GroupedKeys(g[4..]) == KeysOf(g[4].permissions) + GroupedKeys(g[5..]);
    assert GroupedKeys(g[3..]) == KeysOf(g[3].permissions) + GroupedKeys(g[4..]);
    assert GroupedKeys(g[2..]) == KeysOf(g[2].permissions) + GroupedKeys(g[3..]);
    assert GroupedKeys(g[1..]) == KeysOf(g[1].permissions) + GroupedKeys(g[2..]);
    assert GroupedKeys(g) == KeysOf(g[0].permissions) + GroupedKeys(g[1..]);
  }

  /** ALL_PERMISSION_KEYS holds every key exactly once. */
  lemma AllKeysOccurOnce()
    ensures forall k :: multiset(AllPermissionKeys)[k] == 1
  {
    AllPermissionKeysComplete();
    forall k ensures multiset(AllPermissionKeys)[k] == 1 {
      DistinctMultiplicity(AllPermissionKeys, KeyIndex(k));
    }
  }

  lemma {:induction false} DistinctMultiplicity(s: seq<PermissionKey>, i: nat)
    requires i < |s|
    requires forall a, b :: 0 <= a < b < |s| ==> s[a] != s[b]
    ensures multiset(s)[s[i]] == 1
  {
    var x := s[i];
    assert s == s[..i] + [x] + s[i + 1..];
    assert x !in s[..i];
    assert x !in s[i + 1..];
    calc {
      multiset(s)[x];
      multiset(s[..i])[x] + multiset([x])[x] + multiset(s[i + 1..])[x];
      1;
    }
  }

  /** Every label shown in PERMISSION_GROUPS is the key's PERMISSION_LABELS entry. */
  lemma GroupLabelsMatchLabels()
    ensures forall g, i :: 0 <= g < |PermissionGroups| && 0 <= i < |PermissionGroups[g].permissions| ==>
      PermissionGroups[g].permissions[i].caption == PermissionLabel(PermissionGroups[g].permissions[i].key)
  {
  }

  // ---------------------------------------------------------------------------
  // Sensitive fields (Z axis)
  // ---------------------------------------------------------------------------

  datatype SensitiveField = Mobile | Email | LineId | Address | EmergencyContactPhone

  function FieldName(f: SensitiveField): string
  {
    match f
    case Mobile => "mobile"
    case Email => "email"
    case LineId => "lineId"
    case Address => "address"
    case EmergencyContactPhone => "emergencyContactPhone"
  }

  function FieldFromName(s: string): (r: Option<SensitiveField>)
    ensures r.Some? ==> FieldName(r.value) == s
  {
    if s == "mobile" then Some(Mobile)
    else if s == "email" then Some(Email)
    else if s == "lineId" then Some(LineId)
    else if s == "address" then Some(Address)
    else if s == "emergencyContactPhone" then Some(EmergencyContactPhone)
    else None
  }

  lemma FieldNameRoundTrip(f: SensitiveField)
    ensures FieldFromName(FieldName(f)) == Some(f)
  {
  }

  /** A string names a sensitive field exactly when it is one of the five wire names. */
  predicate IsSensitiveName(s: string)
  {
    FieldFromName(s).Some?
  }

  /** ALL_SENSITIVE_FIELDS, in catalogue order. */
  const AllSensitiveFields: seq<SensitiveField> := [Mobile, Email, LineId, Address, EmergencyContactPhone]

  function FieldIndex(f: SensitiveField): (i: nat)
    ensures i < |AllSensitiveFields| && AllSensitiveFields[i] == f
  {
    match f
    case Mobile => 0
    case Email => 1
    case LineId => 2
    case Address => 3
    case EmergencyContactPhone => 4
  }

  /** ALL_SENSITIVE_FIELDS lists the 5 fields, each exactly once. */
  lemma AllSensitiveFieldsComplete()
    ensures |AllSensitiveFields| == 5
    ensures forall f :: f in AllSensitiveFields
    ensures forall i, j :: 0 <= i < j < |AllSensitiveFields| ==> AllSensitiveFields[i] != AllSensitiveFields[j]
  {
    forall f ensures f in AllSensitiveFields {
      assert AllSensitiveFields[FieldIndex(f)] == f;
    }
    forall i, j | 0 <= i < j < |AllSensitiveFields|
      ensures AllSensitiveFields[i] != AllSensitiveFields[j]
    {
      assert FieldIndex(AllSensitiveFields[i]) == i;
      assert FieldIndex(AllSensitiveFields[j]) == j;
    }
  }

  /** SENSITIVE_FIELD_LABELS. */
  function SensitiveFieldLabel(f: SensitiveField): string
  {
    match f
    case Mobile => "手機號碼"
    case Email => "Email"
    case LineId => "Line ID"
    case Address => "通訊地址"
    case EmergencyContactPhone => "緊急聯絡人電話"
  }

  // ---------------------------------------------------------------------------
  // Data scope (Y axis)
  // ---------------------------------------------------------------------------

  datatype DataScope = Self | Group | Zone | Global

  /** SCOPE_HIERARCHY: a higher index is a broader scope. */
  const ScopeHierarchy: seq<DataScope> := [Self, Group, Zone, Global]

  /** `SCOPE_HIERARCHY.indexOf(s)`. */
  function Rank(s: DataScope): (i: nat)
    ensures i < |ScopeHierarchy| && ScopeHierarchy[i] == s
  {
    match s
    case Self => 0
    case Group => 1
    case Zone => 2
    case Global => 3
  }

  /** The hierarchy is the strict order Self < Group < Zone < Global and Rank reads it back. */
  lemma ScopeHierarchyOrder()
    ensures |ScopeHierarchy| == 4
    ensures Rank(Self) < Rank(Group) < Rank(Zone) < Rank(Global)
    ensures forall i :: 0 <= i < |ScopeHierarchy| ==> Rank(ScopeHierarchy[i]) == i
  {
  }

  // ---------------------------------------------------------------------------
  // Records
  // ---------------------------------------------------------------------------

  /** `record[key]` read as a JavaScript condition: a missing key is falsy. */
  predicate Granted<K>(record: map<K, bool>, k: K)
  {
    k in record && record[k]
  }

  /** createEmptyPermissions: every key set to false, in catalogue order. */
  method CreateEmptyPermissions() returns (record: map<PermissionKey, bool>)
    ensures forall k :: k in record && !record[k]
  {
    record := map[];
    for i := 0 to |AllPermissionKeys|
      invariant forall k :: k in record <==> KeyIndex(k) < i
      invariant forall k :: k in record ==> !record[k]
    {
      record := record[AllPermissionKeys[i] := false];
    }
  }

  /** createEmptyRevealAuthority: every field set to false, in catalogue order. */
  method CreateEmptyRevealAuthority() returns (record: map<SensitiveField, bool>)
    ensures forall f :: f in record && !record[f]
  {
    record := map[];
    for i := 0 to |AllSensitiveFields|
      invariant forall f :: f in record <==> FieldIndex(f) < i
      invariant forall f :: f in record ==> !record[f]
    {
      record := record[AllSensitiveFields[i] := false];
    }
  }
}

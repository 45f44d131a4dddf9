/**
 * The five seeded system roles and the helpers that build their full
 * permission and reveal-authority records from the list of granted entries.
 */
module RolesData {
  import opened Permissions
  import opened Entities

  /** The full record that grants exactly the keys in `granted`. */
  function PermissionRecord(granted: seq<PermissionKey>): (r: map<PermissionKey, bool>)
    ensures forall k :: k in r && (r[k] <==> k in granted)
  {
    AllPermissionKeysComplete();
    map k | k in AllPermissionKeys :: k in granted
  }

  /** The full record that grants exactly the fields in `granted`. */
  function RevealRecord(granted: seq<SensitiveField>): (r: map<SensitiveField, bool>)
    ensures forall f :: f in r && (r[f] <==> f in granted)
  {
    AllSensitiveFieldsComplete();
    map f | f in AllSensitiveFields :: f in granted
  }

  /** createPermissions: walks the catalogue, setting each key to whether it is granted. */
  method CreatePermissions(granted: seq<PermissionKey>) returns (record: map<PermissionKey, bool>)
    ensures record == PermissionRecord(granted)
  {
    record := map[];
    for i := 0 to |AllPermissionKeys|
      invariant forall k :: k in record <==> KeyIndex(k) < i
      invariant forall k :: k in record ==> (record[k] <==> k in granted)
    {
      record := record[AllPermissionKeys[i] := AllPermissionKeys[i] in granted];
    }
  }

  /** createRevealAuthority: walks the catalogue, setting each field to whether it is granted. */
  method CreateRevealAuthority(granted: seq<SensitiveField>) returns (record: map<SensitiveField, bool>)
    ensures record == RevealRecord(granted)
  {
    record := map[];
    for i := 0 to |AllSensitiveFields|
      invariant forall f :: f in record <==> FieldIndex(f) < i
      invariant forall f :: f in record ==> (record[f] <==> f in granted)
    {
      record := record[AllSensitiveFields[i] := AllSensitiveFields[i] in granted];
    }
  }

  const SeedTimestamp: string := "2024-01-01T00:00:00Z"

  function SystemRole(id: string, name: string, description: string,
                      granted: seq<PermissionKey>, scope: DataScope,
                      revealed: seq<SensitiveField>): Role
  {
    Role(id, name, description, true, PermissionRecord(granted), scope, RevealRecord(revealed),
         SeedTimestamp, SeedTimestamp, "system")
  }

  const SuperAdmin: Role := SystemRole("super_admin", "超級管理員", "擁有系統所有權限，不可刪除或修改",
    AllPermissionKeys, Global, AllSensitiveFields)

  const ZoneLeader: Role := SystemRole("zone_leader", "牧區長", "管理所屬牧區的資料與組織",
    [DashboardView, DashboardExport, MemberView, MemberCreate, MemberEdit, MemberExport,
     OrgView, OrgManage, CourseView],
    DataScope.Zone, AllSensitiveFields)

  const GroupLeader: Role := SystemRole("group_leader", "小組長", "管理所屬小組的成員資料",
    [DashboardView, MemberView, MemberEdit, OrgView, CourseView],
    DataScope.Group, [Mobile, Email, EmergencyContactPhone])

  const Teacher: Role := SystemRole("teacher", "課程老師", "管理課程與評分，可查看學員基本資料",
    [MemberView, CourseView, CourseManage, CourseGrade],
    DataScope.Group, [Mobile, Email])

  const General: Role := SystemRole("general", "一般會友", "僅能檢視與編輯本人資料",
    [MemberView, MemberEdit], Self, [])

  /** mockRoles, in seed order. */
  const MockRoles: seq<Role> := [SuperAdmin, ZoneLeader, GroupLeader, Teacher, General]

  /** The seed roles have distinct ids, are all system roles and include the `general` fallback. */
  lemma MockRolesWellFormed()
    ensures forall i, j :: 0 <= i < j < |MockRoles| ==> MockRoles[i].id != MockRoles[j].id
    ensures forall r :: r in MockRoles ==> r.isSystem
    ensures exists i :: 0 <= i < |MockRoles| && MockRoles[i].id == "general"
  {
    assert MockRoles[4].id == "general";
  }

  /** super_admin grants every permission and every reveal field, at Global scope. */
  lemma SuperAdminGrantsEverything()
    ensures forall k :: Granted(SuperAdmin.permissions, k)
    ensures forall f :: Granted(SuperAdmin.revealAuthority, f)
    ensures SuperAdmin.scope == Global
  {
    AllPermissionKeysComplete();
    AllSensitiveFieldsComplete();
  }

  /** The general role may only view and edit member data, only its own, and reveal nothing. */
  lemma GeneralRoleIsMinimal()
    ensures forall k :: Granted(General.permissions, k) <==> k == MemberView || k == MemberEdit
    ensures forall f :: !Granted(General.revealAuthority, f)
    ensures General.scope == Self
  {
  }

  /** Whether a seed role grants a key, read off its granted list. */
  lemma SeedGrants(k: PermissionKey)
    ensures Granted(SuperAdmin.permissions, k)
    ensures Granted(ZoneLeader.permissions, k) <==> k in [DashboardView, DashboardExport, MemberView, MemberCreate,
                                                          MemberEdit, MemberExport, OrgView, OrgManage, CourseView]
    ensures Granted(GroupLeader.permissions, k) <==> k in [DashboardView, MemberView, MemberEdit, OrgView, CourseView]
    ensures Granted(Teacher.permissions, k) <==> k in [MemberView, CourseView, CourseManage, CourseGrade]
    ensures Granted(General.permissions, k) <==> k in [MemberView, MemberEdit]
  {
    AllPermissionKeysComplete();
  }

  /** Of the seed roles, only super_admin may delete members. */
  lemma OnlySuperAdminDeletesMembers()
    ensures Granted(SuperAdmin.permissions, MemberDelete)
    ensures !Granted(ZoneLeader.permissions, MemberDelete) && !Granted(GroupLeader.permissions, MemberDelete)
    ensures !Granted(Teacher.permissions, MemberDelete) && !Granted(General.permissions, MemberDelete)
  {
    SeedGrants(MemberDelete);
  }

  /** Of the seed roles, only super_admin may change the system configuration. */
  lemma OnlySuperAdminConfiguresSystem()
    ensures Granted(SuperAdmin.permissions, SystemConfig)
    ensures !Granted(ZoneLeader.permissions, SystemConfig) && !Granted(GroupLeader.permissions, SystemConfig)
    ensures !Granted(Teacher.permissions, SystemConfig) && !Granted(General.permissions, SystemConfig)
  {
    SeedGrants(SystemConfig);
  }

  /** Every seed role can view members. */
  lemma EverySeedRoleViewsMembers()
    ensures forall r :: r in MockRoles ==> Granted(r.permissions, MemberView)
  {
    SeedGrants(MemberView);
  }
}

/**
 * The records the core passes around: roles, members and their payloads, the
 * resolved user context, organisation entities and audit log entries.
 *
 * An optional property (`x?: string`) is an `Option<string>` whose `None` is an
 * absent property. Timestamps of members and roles are the ISO strings the caller
 * supplies; audit timestamps are milliseconds since the epoch, because the audit
 * store compares them as instants.
 */
module Entities {
  import opened Wrappers
  import opened Permissions

  // ---------------------------------------------------------------------------
  // Roles
  // ---------------------------------------------------------------------------

  datatype Role = Role(
    id: string,
    name: string,
    description: string,
    isSystem: bool,
    permissions: map<PermissionKey, bool>,
    scope: DataScope,
    revealAuthority: map<SensitiveField, bool>,
    createdAt: string,
    updatedAt: string,
    createdBy: string)

  datatype CreateRolePayload = CreateRolePayload(
    name: string,
    description: string,
    permissions: map<PermissionKey, bool>,
    scope: DataScope,
    revealAuthority: map<SensitiveField, bool>)

  /** `Partial<CreateRolePayload>`: `None` is an absent property. */
  datatype UpdateRolePayload = UpdateRolePayload(
    name: Option<string>,
    description: Option<string>,
    permissions: Option<map<PermissionKey, bool>>,
    scope: Option<DataScope>,
    revealAuthority: Option<map<SensitiveField, bool>>)

  // ---------------------------------------------------------------------------
  // Members
  // ---------------------------------------------------------------------------

  datatype Gender = Male | Female
  datatype MemberStatus = Active | Inactive | Suspended
  datatype DeletionReason = LeftChurch | Transferred | Duplicate | DataError | Other

  datatype Member = Member(
    uuid: string,
    createdAt: string,
    updatedAt: string,
    createdBy: string,
    updatedBy: string,
    fullName: string,
    gender: Gender,
    dob: string,
    email: string,
    mobile: string,
    address: Option<string>,
    lineId: Option<string>,
    emergencyContactName: string,
    emergencyContactRelationship: string,
    emergencyContactPhone: string,
    baptismStatus: bool,
    baptismDate: Option<string>,
    status: MemberStatus,
    zoneId: Option<string>,
    groupId: Option<string>,
    pastCourses: seq<string>,
    roleIds: seq<string>,
    functionalGroupIds: seq<string>,
    avatar: Option<string>,
    deletionReason: Option<DeletionReason>,
    deletionNotes: Option<string>)

  datatype CreateMemberPayload = CreateMemberPayload(
    fullName: string,
    gender: Gender,
    dob: string,
    email: string,
    mobile: string,
    address: Option<string>,
    lineId: Option<string>,
    emergencyContactName: string,
    emergencyContactRelationship: string,
    emergencyContactPhone: string,
    baptismStatus: bool,
    baptismDate: Option<string>,
    status: Option<MemberStatus>,
    zoneId: Option<string>,
    groupId: Option<string>,
    pastCourses: Option<seq<string>>,
    roleIds: Option<seq<string>>,
    functionalGroupIds: Option<seq<string>>,
    avatar: Option<string>)

  /** `Partial<CreateMemberPayload>` plus the deletion metadata: `None` is an absent property. */
  datatype UpdateMemberPayload = UpdateMemberPayload(
    fullName: Option<string>,
    gender: Option<Gender>,
    dob: Option<string>,
    email: Option<string>,
    mobile: Option<string>,
    address: Option<string>,
    lineId: Option<string>,
    emergencyContactName: Option<string>,
    emergencyContactRelationship: Option<string>,
    emergencyContactPhone: Option<string>,
    baptismStatus: Option<bool>,
    baptismDate: Option<string>,
    status: Option<MemberStatus>,
    zoneId: Option<string>,
    groupId: Option<string>,
    pastCourses: Option<seq<string>>,
    roleIds: Option<seq<string>>,
    functionalGroupIds: Option<seq<string>>,
    avatar: Option<string>,
    deletionReason: Option<DeletionReason>,
    deletionNotes: Option<string>)

  datatype StatusFilter = OnlyStatus(status: MemberStatus) | AllStatuses
  datatype BaptismFilter = AnyBaptism | Baptized | NotBaptized
  datatype SearchField = ByFullName | ByMobile

  /** MemberFilters: every filter is optional. */
  datatype MemberFilters = MemberFilters(
    search: Option<string>,
    searchField: Option<SearchField>,
    status: Option<StatusFilter>,
    baptismStatus: Option<BaptismFilter>,
    zoneId: Option<string>,
    groupId: Option<string>,
    unassigned: Option<bool>)

  // ---------------------------------------------------------------------------
  // Resolved user context
  // ---------------------------------------------------------------------------

  datatype UserContext = UserContext(
    userId: string,
    fullName: string,
    scope: DataScope,
    zoneId: Option<string>,
    groupIds: seq<string>,
    functionalGroupIds: seq<string>,
    managedGroupIds: seq<string>,
    permissions: map<PermissionKey, bool>,
    revealAuthority: map<SensitiveField, bool>)

  // ---------------------------------------------------------------------------
  // Organisation
  // ---------------------------------------------------------------------------

  datatype ActiveStatus = StatusActive | StatusInactive
  datatype GroupType = Pastoral | Functional
  datatype CourseCategory = Gospel | Discipleship | Ministry | OtherCategory

  datatype Zone = Zone(
    id: string,
    name: string,
    leaderId: Option<string>,
    leaderName: Option<string>,
    status: ActiveStatus,
    createdAt: string,
    updatedAt: string)

  datatype Group = Group(
    id: string,
    name: string,
    groupType: GroupType,
    zoneId: Option<string>,
    leaderId: Option<string>,
    leaderName: Option<string>,
    status: ActiveStatus,
    createdAt: string,
    updatedAt: string)

  datatype Course = Course(
    id: string,
    name: string,
    code: string,
    category: CourseCategory,
    status: ActiveStatus,
    createdAt: string)

  datatype ZoneWithGroups = ZoneWithGroups(zone: Zone, groups: seq<Group>)
  datatype OrganizationStructure = OrganizationStructure(zones: seq<ZoneWithGroups>, functionalGroups: seq<Group>)

  // ---------------------------------------------------------------------------
  // Audit
  // ---------------------------------------------------------------------------

  datatype AuditAction =
    | RevealSensitiveData
    | RevealAttemptFailed
    | MemberCreateAction
    | MemberUpdateAction
    | MemberDeleteAction

  datatype AuditLog = AuditLog(
    id: string,
    action: AuditAction,
    userId: string,
    userName: string,
    targetMemberId: Option<string>,
    targetMemberName: Option<string>,
    fieldName: Option<string>,
    timestamp: int,
    ipAddress: Option<string>,
    userAgent: Option<string>,
    details: Option<map<string, string>>)

  datatype CreateAuditLogPayload = CreateAuditLogPayload(
    action: AuditAction,
    userId: string,
    userName: string,
    targetMemberId: Option<string>,
    targetMemberName: Option<string>,
    fieldName: Option<string>,
    ipAddress: Option<string>,
    userAgent: Option<string>,
    details: Option<map<string, string>>)
}

# Access control and member data handling of a church membership system

This project is a Dafny model of the server-side and client-side core of a
church membership management system (Nuxt front end, in-memory development
repositories). The model covers these parts:

- **Permission catalogue.** 13 permission keys, 5 sensitive fields and the
  scope order Self < Group < Zone < Global.
- **Seeded system roles.**
- **Multi-role resolver.** It folds a member's roles into one user context.
- **CASL ability table.** Permissions and reveal authority become
  (action, subject[, field]) rules.
- **Masking functions** for phone numbers, e-mail addresses, LINE ids and
  street addresses.
- **Member service.**
  - Scope guard and list scope filter.
  - All-or-nothing field reveal.
  - Detail masking.
  - Create/update/delete guards.
  - Zone/group validation.
- **Repositories** for members, roles, audit logs and the organization
  structure.
- **Auth context cache**, with a time-to-live and a fallback to the `general`
  role.
- **Role service.**
- **Audit helpers and the reveal rate limit.**
- **Request validation helpers and pagination.**
- **Avatar file tracker.**
- **Zod request schemas**, restated as parsers.
- **Client reveal cache**, including auto-mask timers.
- **Client zone/group cascade.**
- **`mergeDeep` object utility.**

How the model is organised:

- **Modules.** There is one module per source file. Shared pieces are:
  - `Wrappers`: Option/Result/Outcome, and JavaScript truthiness of an
    optional string;
  - `Seqs`: filter, find, count, de-duplication, ASCII lower-casing,
    split/join;
  - `Entities`: the record types of `app/types`.
- **Code that mutates things becomes imperative Dafny.**
  - The module-level arrays behind the repositories become classes with a
    `seq` field.
  - The context cache and the client composables are classes whose methods
    reassign their fields.
  - Record-building and filtering loops are methods with loop invariants.
  - Each is proved against a specification function.
- **Expression-only code becomes functions and lemmas.** This covers the
  resolver fold, the maskers, the predicates and the schemas.
- **Values the code reads from the environment are parameters.** These are the
  clock (`now`), generated ids, fetch responses and timer handles.

Where the code and its design notes disagree, the model follows the code:

- A Self-scope member list adds no filter (`member.service.ts:360-362`).
- A Group-scope list filters by the first managed group only
  (`member.service.ts:356-358`). `MemberService.GroupListShowsFirstManagedGroupOnly`
  exhibits a member the scope guard admits that the list still hides.
- Revealing fields writes no audit entry and checks no rate limit
  (`member.service.ts:216`). Audit and rate limiting are modelled as separate
  components.
- The client mismatch check (`useZoneGroupCascade.ts:73-84`) looks the group up
  in a list that holds only the zones' pastoral groups. Its Functional-group
  branch can therefore never be taken after a fetch. A functional group then
  shows a mismatch warning that the server's `validateZoneGroupRelationship`
  would not raise. `ZoneGroupCascade.MismatchFlagsFunctionalGroup` states this.
  `ZoneGroupCascade.CorrectedMismatchAgreesWithServer` proves that looking the
  group up among all groups would make the two checks agree.

## Model

| member | source | states |
|---|---|---|
| Permissions.KeyFromName | app/utils/rbac/permissions.ts:13-27 | a recognised name is exactly the name of the key it parses to |
| Permissions.KeyNameRoundTrip | app/utils/rbac/permissions.ts:13-27 | every permission key's wire name parses back to that key |
| Permissions.KeyNameInjective | app/utils/rbac/permissions.ts:13-27 | distinct keys have distinct wire names |
| Permissions.AllPermissionKeysComplete | app/utils/rbac/permissions.ts:13-27 | ALL_PERMISSION_KEYS lists 13 keys, every key, with no repeats |
| Permissions.PermissionGroupsPartitionKeys | app/utils/rbac/permissions.ts:47-89 | the permission groups list every key exactly once, in catalogue order |
| Permissions.GroupedKeysAreAllKeys | app/utils/rbac/permissions.ts:47-89 | read group after group, the permission groups are exactly the catalogue of keys in its order |
| Permissions.AllKeysOccurOnce | app/utils/rbac/permissions.ts:12-28 | the catalogue of keys holds every key exactly once |
| Permissions.GroupLabelsMatchLabels | app/utils/rbac/permissions.ts:30-44 | each grouped permission's caption equals the key's entry in PERMISSION_LABELS |
| Permissions.FieldFromName | app/utils/rbac/permissions.ts:92-98 | a recognised field name is exactly the name of the field it parses to |
| Permissions.FieldNameRoundTrip | app/utils/rbac/permissions.ts:92-98 | every sensitive field's name parses back to that field |
| Permissions.AllSensitiveFieldsComplete | app/utils/rbac/permissions.ts:92-98 | ALL_SENSITIVE_FIELDS lists 5 fields, every field, with no repeats |
| Permissions.Rank | app/utils/rbac/permissions.ts:110 | a scope's rank is its position in SCOPE_HIERARCHY |
| Permissions.ScopeHierarchyOrder | app/utils/rbac/permissions.ts:110 | the hierarchy has four scopes in the strict order Self < Group < Zone < Global |
| Permissions.CreateEmptyPermissions | app/utils/rbac/permissions.ts:133-139 | the record is total over all 13 keys and every entry is false |
| Permissions.CreateEmptyRevealAuthority | app/utils/rbac/permissions.ts:142-148 | the record is total over all 5 fields and every entry is false |
| RolesData.PermissionRecord | server/mockData/roles.data.ts:8-31 | the record is total and maps a key to true exactly when it was granted |
| RolesData.RevealRecord | server/mockData/roles.data.ts:34-49 | the record is total and maps a field to true exactly when it was granted |
| RolesData.CreatePermissions | server/mockData/roles.data.ts:8-31 | the loop builds exactly the granted-key record |
| RolesData.CreateRevealAuthority | server/mockData/roles.data.ts:34-49 | the loop builds exactly the granted-field record |
| RolesData.MockRolesWellFormed | server/mockData/roles.data.ts:51-163 | the five seed roles have distinct ids, are all system roles, and include `general` |
| RolesData.SuperAdminGrantsEverything | server/mockData/roles.data.ts:52-83 | super_admin grants every permission and every reveal field, with Global scope |
| RolesData.GeneralRoleIsMinimal | server/mockData/roles.data.ts:151-162 | general grants only member:view and member:edit, no reveal field, with Self scope |
| RolesData.SeedGrants | server/mockData/roles.data.ts:52-162 | the exact permission set of each of the five seed roles |
| RolesData.OnlySuperAdminDeletesMembers | server/mockData/roles.data.ts:52-162 | among the seed roles only super_admin holds member:delete |
| RolesData.OnlySuperAdminConfiguresSystem | server/mockData/roles.data.ts:52-162 | among the seed roles only super_admin holds system:config |
| RolesData.EverySeedRoleViewsMembers | server/mockData/roles.data.ts:51-163 | every seed role holds member:view |
| Resolver.MaxRank | server/utils/rbac/resolver.ts:55-66 | the highest rank among the roles: no role ranks above it, and it is 0 or some role's rank |
| Resolver.BroadestScope | server/utils/rbac/resolver.ts:55-66 | the resolved scope ranks at least as high as every role's and is Self or some role's scope |
| Resolver.UnionPermissions | server/utils/rbac/resolver.ts:71-85 | total over the 13 keys; a key is granted iff some role grants it |
| Resolver.UnionRevealAuthority | server/utils/rbac/resolver.ts:90-104 | total over the 5 fields; a field is granted iff some role grants it |
| Resolver.OwnGroupIds | server/utils/rbac/resolver.ts:34 | groupIds is the member's group when it is set, and empty otherwise |
| Resolver.ResolveBroadestScope | server/utils/rbac/resolver.ts:55-66 | the loop over the hierarchy computes the broadest scope |
| Resolver.ResolveUnionPermissions | server/utils/rbac/resolver.ts:71-85 | the nested loops compute the OR-union of the roles' permissions |
| Resolver.ResolveUnionRevealAuthority | server/utils/rbac/resolver.ts:90-104 | the nested loops compute the OR-union of the roles' reveal authority |
| Resolver.ResolveUserContext | server/utils/rbac/resolver.ts:20-49 | the context copies the member's id, name and zone, and joins scope, union grants and de-duplicated managed groups |
| Resolver.MoreRolesGrantMore | server/utils/rbac/resolver.ts:55-104 | adding roles never lowers the scope and never removes a permission or a reveal grant |
| Resolver.ResolutionIgnoresRoleOrder | server/utils/rbac/resolver.ts:55-104 | two role lists with the same roles resolve to the same context |
| Resolver.NoRolesGrantNothing | server/utils/rbac/resolver.ts:55-104 | with no roles the scope is Self and nothing is granted |
| Resolver.ManagedGroupIdsAreUnion | server/utils/rbac/resolver.ts:34-36 | managedGroupIds has no duplicates, starts with the member's group, and as a set is the group plus the functional groups |
| Casl.PermissionRule | app/utils/casl/ability.ts:37-49 | each permission key maps to one field-less, non-reveal rule |
| Casl.AllPermissionRulesAreKeyRules | app/utils/casl/ability.ts:37-49 | the rule table is exactly the rules of the 13 keys |
| Casl.PermissionRuleInjective | app/utils/casl/ability.ts:37-49 | distinct keys give distinct rules |
| Casl.RevealRule | app/utils/casl/ability.ts:52-57 | each field maps to a reveal rule on Member that names that field |
| Casl.BuildAbility | app/utils/casl/ability.ts:33-60 | the built ability holds exactly the rules of the granted keys and the granted reveal fields |
| Casl.AddDashboardRules | app/utils/casl/ability.ts:37-38 | dashboard rules appear exactly for the granted dashboard keys |
| Casl.AddMemberRules | app/utils/casl/ability.ts:39-43 | member rules appear exactly for the granted member keys |
| Casl.AddOrganizationRules | app/utils/casl/ability.ts:44-45 | organization rules appear exactly for the granted organization keys |
| Casl.AddSystemRules | app/utils/casl/ability.ts:46 | the system rule appears exactly when system:config is granted |
| Casl.AddCourseRules | app/utils/casl/ability.ts:47-49 | course rules appear exactly for the granted course keys |
| Casl.AddPermissionRules | app/utils/casl/ability.ts:37-49 | the X-axis rules are exactly the rules of the granted keys |
| Casl.AddRevealRules | app/utils/casl/ability.ts:52-57 | the Z-axis rules are exactly the reveal rules of the granted fields |
| Casl.CanPermissionIffGranted | app/utils/casl/ability.ts:37-49 | the action of a key is allowed iff the key is granted |
| Casl.CanRevealIffAuthority | app/utils/casl/ability.ts:52-57 | revealing a field of a Member is allowed iff it names a sensitive field whose reveal authority is granted |
| Casl.OnlyGrantedRulesAllow | app/utils/casl/ability.ts:33-60 | any allowed check comes from a granted key or a granted reveal field, so the default is deny |
| Casl.NothingGrantedAllowsNothing | app/utils/casl/ability.ts:33-60 | with nothing granted no check is allowed, whatever the scope |
| Masking.MaskMobile | server/utils/rbac/masking.ts:10-13 | under 10 characters gives `***`; otherwise the first 4 and the tail from index 7 are kept around `***`, with the length preserved |
| Masking.MaskMobileHidesMiddle | server/utils/rbac/masking.ts:10-13 | numbers that differ only in positions 4-6 mask the same |
| Masking.MaskMobileExample | server/utils/rbac/masking.ts:7-13 | 0912345678 masks to 0912***678 |
| Masking.MaskPhone | server/utils/rbac/masking.ts:52-54 | the emergency phone masks exactly like a mobile number |
| Masking.MaskEmail | server/utils/rbac/masking.ts:19-26 | an address without `@` masks to `***` |
| Masking.MaskEmailFirstTwoPieces | server/utils/rbac/masking.ts:21-25 | only the first two `@`-pieces count: `local@domain` and `local@domain@rest` both mask to `***` when the domain is empty, else to two local characters, `****@` and the domain |
| Masking.MaskEmailAllInputs | server/utils/rbac/masking.ts:19-26 | every input: no `@` gives `***`; otherwise the text before the first `@` and the text up to the next `@` decide the mask as above |
| Masking.MaskEmailAfterCut | server/utils/rbac/masking.ts:21-25 | an address cut at its first `@` masks by the text up to the next `@` |
| Masking.MaskEmailSecondAtExample | server/utils/rbac/masking.ts:21-25 | ab@c@d masks to ab****@c |
| Masking.MaskEmailDoubleAtExample | server/utils/rbac/masking.ts:21-22 | a@@b masks to `***`, since its domain piece is empty |
| Masking.MaskEmailWellFormed | server/utils/rbac/masking.ts:19-26 | a local part and an `@`-free, non-empty domain give at most two local characters, `****@` and the domain |
| Masking.MaskEmailHidesLocalPart | server/utils/rbac/masking.ts:19-26 | local parts that share their first two characters mask the same |
| Masking.MaskEmailEmptyDomain | server/utils/rbac/masking.ts:19-22 | an address ending at the `@` masks to `***` |
| Masking.MaskEmailExample | server/utils/rbac/masking.ts:15-26 | user@example.com masks to us****@example.com |
| Masking.MaskLineId | server/utils/rbac/masking.ts:32-36 | empty gives `***`; otherwise at most two leading characters followed by `****` |
| Masking.MaskLineIdHidesRest | server/utils/rbac/masking.ts:32-36 | ids that share their first two characters mask the same |
| Masking.MaskLineIdExample | server/utils/rbac/masking.ts:32-36 | my_line_id masks to my**** |
| Masking.MaskAddress | server/utils/rbac/masking.ts:42-47 | empty gives `***`; otherwise at most five leading characters followed by `...` |
| Masking.MaskAddressHidesRest | server/utils/rbac/masking.ts:42-47 | addresses that share their first five characters mask the same |
| Masking.MaskAddressExample | server/utils/rbac/masking.ts:42-47 | a street address keeps its first five characters, the district-level prefix, followed by `...` |
| Masking.MaskOf | server/utils/rbac/masking.ts:59-76 | every field's masker turns the empty string into `***` |
| Masking.GetMaskFunction | server/utils/rbac/masking.ts:59-76 | a sensitive field name selects that field's masker; any other name selects the identity |
| Masking.GetMaskFunctionOfField | server/utils/rbac/masking.ts:59-76 | looking a field up by its name gives its masker, which hides an empty value |
| Members.NewMember | server/repositories/member.repository.ts:118-149 | the new record carries the given uuid and timestamps, status Active and roles `["general"]` by default, and no deletion data |
| Members.Overlay | server/repositories/member.repository.ts:154-170 | identity and creation fields are kept; updatedAt is now and updatedBy is `system` |
| Members.OverlayTakesPayload | server/repositories/member.repository.ts:162-166 | every field present in the payload wins over the stored one |
| Members.OverlayKeepsAbsent | server/repositories/member.repository.ts:162-166 | every field absent from the payload keeps its stored value |
| Members.EmptyUpdateKeepsFields | server/repositories/member.repository.ts:162-166 | an empty payload changes only the update stamp |
| Members.SoftDeleted | server/repositories/member.repository.ts:175-192 | status Inactive and updatedAt now; the reason is recorded when given, the notes only when non-empty; nothing else changes |
| Members.AllStatusesFiltersNothing | server/repositories/member.repository.ts:27-29 | the status filter `all` selects the same members as no status filter |
| Members.MemberRepository.constructor | server/repositories/member.repository.ts:16 | the store starts as the seed list |
| Members.MemberRepository.FindAll | server/repositories/member.repository.ts:22-72 | the order-preserving subsequence of members that pass every active filter |
| Members.MemberRepository.FindByZoneId | server/repositories/member.repository.ts:77-79 | the members of that zone, in store order |
| Members.MemberRepository.FindByGroupIds | server/repositories/member.repository.ts:84-90 | members whose group or some functional group is listed, in store order |
| Members.MemberRepository.FindById | server/repositories/member.repository.ts:95-97 | found iff some member has the uuid, and then it is the first such member |
| Members.MemberRepository.IsMobileExists | server/repositories/member.repository.ts:102-106 | true iff a member other than the excluded uuid has that mobile number |
| Members.MemberRepository.IsEmailExists | server/repositories/member.repository.ts:111-113 | true iff a member other than the excluded uuid has that e-mail address |
| Members.MemberRepository.Create | server/repositories/member.repository.ts:118-149 | exactly one record is appended, built from the payload; earlier records are unchanged |
| Members.MemberRepository.Update | server/repositories/member.repository.ts:154-170 | an unknown uuid returns nothing and changes nothing; otherwise only the first match is replaced by its overlay |
| Members.MemberRepository.SoftDelete | server/repositories/member.repository.ts:175-192 | an unknown uuid returns false and changes nothing; otherwise only the first match is replaced by its soft-deleted record |
| Members.MemberRepository.CountByRoleId | server/repositories/member.repository.ts:197-199 | the number of members holding the role, positive iff some member holds it |
| Members.MemberRepository.Reset | server/repositories/member.repository.ts:204-206 | the store is back to the seed list |
| Organization.FindZoneById | server/repositories/organization.repository.ts:19-21 | the first zone with that id, or none when no zone has it |
| Organization.FindGroupById | server/repositories/organization.repository.ts:40-42 | the first group with that id, or none when no group has it |
| Organization.FindCourseById | server/repositories/organization.repository.ts:78-80 | the first course with that id, or none when no course has it |
| Organization.FindGroupsByZoneId | server/repositories/organization.repository.ts:33-35 | exactly the groups naming that zone, as a subsequence of the store, so in store order |
| Organization.FindCoursesByIds | server/repositories/organization.repository.ts:85-87 | exactly the store's courses whose id is listed, as a subsequence of the store, so in store order rather than in the order of the ids |
| Organization.GetStructure | server/repositories/organization.repository.ts:47-66 | every zone in order, each with exactly its Pastoral groups, plus exactly the Functional groups |
| Organization.StructureKeepsStoreOrder | server/repositories/organization.repository.ts:47-66 | each zone's groups and the Functional groups are subsequences of the store, so they keep store order |
| Organization.StructureCoversGroups | server/repositories/organization.repository.ts:51-60 | a stored group appears in the structure iff it is Functional, or Pastoral under an existing zone |
| Helpers.CeilDiv | server/utils/helpers.ts:29 | the least page count that covers the items |
| Helpers.JsSlice | server/utils/helpers.ts:31 | `slice` with non-negative bounds is the clamped subsequence; never longer than the list or the bound width |
| Helpers.PaginateArray | server/utils/helpers.ts:23-42 | page and size are echoed; totals are the item count and the ceiling of count over size; the data is at most one page long |
| Helpers.PageWindow | server/utils/helpers.ts:30-31 | page `page` (from 1) is the window from (page-1)·pageSize to page·pageSize, clamped to the list |
| Helpers.PageBeyondEndIsEmpty | server/utils/helpers.ts:30-31 | a page past the last one has no data |
| Helpers.PagesArePrefix | server/utils/helpers.ts:30-31 | the first k pages together are the first k·pageSize items |
| Helpers.PagesCoverItems | server/utils/helpers.ts:28-31 | reading pages 1 to totalPages gives back every item once, in order |
| MemberService.FindMember | server/services/member.service.ts:96-99 | found iff some member has the uuid, and then it is the first such member |
| MemberService.CheckScopeAccess | server/services/member.service.ts:371-406 | Global always passes; Zone passes iff the zones are equal; Group passes iff the group or a functional group is managed; Self passes iff the uuid is the user; a failure is always 403 |
| MemberService.ApplyScopeFilter | server/services/member.service.ts:338-366 | only zoneId and groupId can change; Global and Self keep the filters; Zone pins a truthy zone; Group pins the first managed group |
| MemberService.ScopedListPassesAccess | server/services/member.service.ts:338-406 | under Zone and Group scope, every member the scoped list returns passes the detail scope check |
| MemberService.GroupListShowsFirstManagedGroupOnly | server/services/member.service.ts:356-358 | a member in a managed group other than the first passes the scope check but is filtered out of the list |
| MemberService.ValidateZoneGroupRelationship | server/services/member.service.ts:411-440 | no group passes; a group without a zone, an unknown group, or a Pastoral group of another zone fails with 400; a found group with a zone passes exactly when it is Functional or lies in that zone |
| MemberService.FieldValue | server/services/member.service.ts:197-213 | the plain value of each field; a missing LINE id or address reads as "" |
| MemberService.Revealed | server/services/member.service.ts:186-213 | the keys are exactly the requested sensitive field names, each mapped to its plain value |
| MemberService.RevealFields | server/services/member.service.ts:173-219 | unknown member 404; scope failure 403 before any field check; any refused field 403 with no map; otherwise the plain values of the requested fields |
| MemberService.CollectRevealed | server/services/member.service.ts:186-214 | succeeds iff every requested field may be revealed, and then returns the plain values |
| MemberService.RevealIsAllOrNothing | server/services/member.service.ts:184-214 | the reveal succeeds iff the scope check passes and every field is allowed; a lone refused field voids the whole request |
| MemberService.MaskedView | server/services/member.service.ts:135-151 | mobile, e-mail and emergency phone are always masked; LINE id and address are masked only when present; no other field changes |
| MemberService.MaskSensitiveFields | server/services/member.service.ts:127-151 | the loop over the five sensitive fields produces exactly the masked view |
| MemberService.CourseRecordOf | server/services/member.service.ts:114-124 | the record keeps the course id; its name is the course's name, or the id when the course is unknown or its name is empty |
| MemberService.GetDetail | server/services/member.service.ts:91-168 | unknown member 404; scope failure 403; otherwise the masked member, the names of its zone and group (absent when unknown), the names of its roles in role-list order, the course record of each past course in order, and a reveal flag per field equal to the ability check |
| MemberService.NameOfZone | server/services/member.service.ts:109 | a name exactly when a zone has that id, and then the first such zone's name |
| MemberService.NameOfGroup | server/services/member.service.ts:110 | a name exactly when a group has that id, and then the first such group's name |
| MemberService.HeldRoles | server/services/member.service.ts:111 | exactly the listed roles the member holds, as a subsequence of the role list |
| MemberService.Create | server/services/member.service.ts:224-240 | a taken mobile number 409; a zone/group failure 400; otherwise one member appended; uniqueness of mobiles and uuids and zone consistency are preserved |
| MemberService.Update | server/services/member.service.ts:245-313 | unknown 404; a mobile another member has 409; a group without a zone or outside its zone 400; otherwise only that member is replaced and the store invariants hold |
| MemberService.GuardUpdate | server/services/member.service.ts:277-305 | the mobile check runs before the zone/group checks, which use the payload value or else the stored one |
| MemberService.ReplaceKeepsUuidsUnique | server/repositories/member.repository.ts:163-169 | replacing a record by one with the same uuid keeps uuids unique |
| MemberService.ReplaceKeepsMobilesUnique | server/services/member.service.ts:277-289 | replacing a record by one whose mobile no other member has keeps mobiles unique |
| MemberService.SoftDelete | server/services/member.service.ts:318-331 | unknown 404 and no change; otherwise the member is soft-deleted in place |
| Auth.RolesFor | server/services/auth.service.ts:35-41 | the member's stored roles; with none of them stored, the `general` role alone when it exists |
| Auth.AuthService.constructor | server/services/auth.service.ts:13-21 | the cache starts empty |
| Auth.AuthService.ResolveContext | server/services/auth.service.ts:24-51 | an unexpired entry is returned without reading the stores; an unknown member fails; otherwise the resolved context is cached until now + 300000 ms |
| Auth.AuthService.ClearCache | server/services/auth.service.ts:53-59 | with a user id only that entry goes; without one the cache is emptied |
| Auth.AuthService.GetAuthContextResponse | server/services/auth.service.ts:61-68 | the user is the resolved context and the rules are exactly the rules granted to it |
| Auth.FallbackIsGeneral | server/services/auth.service.ts:35-43 | a member whose roles are all unknown resolves as a Self-scope user with only member:view and member:edit |
| Roles.NewRole | server/repositories/role.repository.ts:49-66 | a non-system role carrying the payload, the given id and the timestamps |
| Roles.UpdatedRole | server/repositories/role.repository.ts:78-98 | name and description follow the payload; a system role keeps its grants and scope; otherwise the present payload fields win |
| Roles.SystemRoleGrantsAreImmutable | server/repositories/role.repository.ts:79-89 | updating a system role never changes its permissions, scope, reveal authority or system flag |
| Roles.IndexOfRole | server/repositories/role.repository.ts:75 | the index of the first role with the id, or the length when there is none |
| Roles.RoleRepository.constructor | server/repositories/role.repository.ts:11 | the store starts as the seed roles |
| Roles.RoleRepository.FindAll | server/repositories/role.repository.ts:17-30 | without a term every role; with a term, the roles whose lower-cased name or description contains it, in order |
| Roles.RoleRepository.FindById | server/repositories/role.repository.ts:35-37 | found iff some role has the id, and then the first such role |
| Roles.RoleRepository.FindByIds | server/repositories/role.repository.ts:42-44 | the store-ordered roles whose id is listed |
| Roles.RoleRepository.Create | server/repositories/role.repository.ts:49-66 | exactly one non-system role is appended; the others are unchanged |
| Roles.RoleRepository.Update | server/repositories/role.repository.ts:71-99 | an unknown id returns nothing and changes nothing; otherwise only that index is replaced by the updated role |
| Roles.RoleRepository.Delete | server/repositories/role.repository.ts:104-115 | an unknown id or a system role gives false and no change; otherwise exactly that entry is removed; system roles always survive |
| Roles.RoleRepository.Reset | server/repositories/role.repository.ts:120-122 | the store is back to the seed roles |
| RoleService.Search | server/repositories/role.repository.ts:17-30 | the roles matching the optional search term, all drawn from the store |
| RoleService.List | server/services/role.service.ts:19-26 | the page of the searched roles; every listed role is a stored role |
| RoleService.PageItemsAreItems | server/utils/helpers.ts:30-31 | every item on a page is an item of the list |
| RoleService.GetById | server/services/role.service.ts:31-37 | the first role with the id, or 404 |
| RoleService.Create | server/services/role.service.ts:42-44 | appends exactly one non-system role built from the payload |
| RoleService.Update | server/services/role.service.ts:49-70 | unknown 404; super_admin with permissions, scope or reveal authority in the payload 403 and no change; otherwise the repository update |
| RoleService.Delete | server/services/role.service.ts:75-101 | unknown 404, then system 403, then in use 409, each with no change; otherwise the role is removed and every role a member holds still exists |
| RoleService.RemovingUnheldRoleKeepsResolution | server/services/role.service.ts:88-97 | removing a role no member holds leaves every held role resolvable |
| AuditLogs.NewLog | server/repositories/audit.repository.ts:15-33 | the entry copies every payload field and carries the given id and timestamp |
| AuditLogs.InsertByTime | server/repositories/audit.repository.ts:65-67 | insertion adds exactly one entry and keeps every other one |
| AuditLogs.InsertKeepsNewestFirst | server/repositories/audit.repository.ts:65-67 | inserting into a newest-first list keeps it newest-first |
| AuditLogs.SortNewestFirst | server/repositories/audit.repository.ts:65-67 | the result is a permutation of the input, newest timestamp first |
| AuditLogs.InsertKeepsTies | server/repositories/audit.repository.ts:65-67 | an inserted entry goes in front of the entries with its own timestamp, which keep their order |
| AuditLogs.SortKeepsTiesInOrder | server/repositories/audit.repository.ts:65-67 | the sort is stable: for every timestamp, the entries with that timestamp come out in input order |
| AuditLogs.CountSince | server/repositories/audit.repository.ts:87-95 | counts the user's entries at or after the instant, never more than the log |
| AuditLogs.CountSinceAppend | server/repositories/audit.repository.ts:87-95 | appending an entry raises a count by one exactly when the entry matches it |
| AuditLogs.AuditLogRepository.constructor | server/repositories/audit.repository.ts:9 | the log starts empty |
| AuditLogs.AuditLogRepository.Create | server/repositories/audit.repository.ts:15-33 | exactly one entry is appended; existing entries are untouched |
| AuditLogs.AuditLogRepository.FindAll | server/repositories/audit.repository.ts:38-68 | exactly the entries matching every given filter, newest first |
| AuditLogs.AuditLogRepository.FindByUserId | server/repositories/audit.repository.ts:73-75 | the user's entries in log order |
| AuditLogs.AuditLogRepository.FindByTargetMemberId | server/repositories/audit.repository.ts:80-82 | the entries about that member, in log order |
| AuditLogs.AuditLogRepository.CountByUserSince | server/repositories/audit.repository.ts:87-95 | the number of the user's entries at or after the instant, whatever the action |
| AuditLogs.AuditLogRepository.Count | server/repositories/audit.repository.ts:107-109 | the number of stored entries |
| AuditLogs.AuditLogRepository.Reset | server/repositories/audit.repository.ts:100-102 | the log is empty again |
| Audit.RevealSuccessPayload | server/utils/audit.ts:31-51 | a REVEAL_SENSITIVE_DATA entry by the caller about the member and field, without details |
| Audit.RevealFailurePayload | server/utils/audit.ts:56-78 | a REVEAL_ATTEMPT_FAILED entry by the caller about the member and field, with the reason as details |
| Audit.ActionPayload | server/utils/audit.ts:83-95 | the given action, user and details, with no target, field or request data |
| Audit.CreateAuditLog | server/utils/audit.ts:15-26 | returns the new id and appends exactly that entry; no error escapes |
| Audit.LogRevealSuccess | server/utils/audit.ts:31-51 | without a user context nothing is written; otherwise the success entry is appended |
| Audit.LogRevealFailure | server/utils/audit.ts:56-78 | without a user context nothing is written; otherwise the failure entry is appended |
| Audit.LogAction | server/utils/audit.ts:83-95 | appends the action entry and returns its id |
| Audit.GetRevealCountSince | server/utils/audit.ts:100-105 | equals the repository's count for the user since the instant |
| Audit.LoggedEntryIsCounted | server/utils/audit.ts:15-26 | a logged entry raises its own user's count by one |
| Audit.OtherUsersEntryIsNotCounted | server/utils/audit.ts:15-26 | a logged entry leaves other users' counts unchanged |
| RateLimit.RetryAfter | server/utils/rateLimit.ts:29 | between 1 and 60 seconds, the ceiling of the time left in the current minute |
| RateLimit.RateDecision | server/utils/rateLimit.ts:15-33 | no user 401; 60 or more reveals in the window 429 with retry-after; fewer pass |
| RateLimit.CheckRevealRateLimit | server/utils/rateLimit.ts:15-33 | the decision on the user's audit count over the last 60000 ms |
| RateLimit.Remaining | server/utils/rateLimit.ts:38-42 | between 0 and 60; zero iff the limit is reached; otherwise the count plus the remainder is 60 |
| RateLimit.GetRemainingReveals | server/utils/rateLimit.ts:38-42 | the remainder for the user's audit count over the last 60000 ms |
| RateLimit.AllowedIffRemaining | server/utils/rateLimit.ts:15-42 | a reveal passes the limit iff some allowance remains |
| RateLimit.LimitStaysReached | server/utils/rateLimit.ts:21-32 | once the limit is reached, logging more entries keeps it reached |
| RateLimit.LoggingUsesAllowance | server/utils/rateLimit.ts:38-42 | each logged entry of the user uses up one unit of allowance until none is left |
| Validation.IssueKey | server/utils/validation.ts:34-36 | the key is the dot-joined path, or `_root` for an empty path, and never empty |
| Validation.GroupedErrors | server/utils/validation.ts:30-42 | one key per distinct issue path, each with that path's messages in issue order |
| Validation.FormatZodErrors | server/utils/validation.ts:30-42 | the loop builds exactly the grouped report |
| Validation.FormattedReportCountsEveryIssue | server/utils/validation.ts:30-42 | the report holds as many messages as there are issues |
| Validation.ValidateWithSchema | server/utils/validation.ts:11-25 | parsed data on success; otherwise 400 with the grouped report |
| Validation.RequireAbility | server/utils/validation.ts:48-66 | no ability 401 before any check; a refused action 403; otherwise it passes |
| Validation.GetUserContext | server/utils/validation.ts:71-80 | an absent context 401; otherwise the context |
| Storage.OwnedBy | server/utils/storage.ts:45-58 | the tracked urls of that member |
| Storage.Without | server/utils/storage.ts:45-58 | the store minus the urls, the other entries unchanged |
| Storage.Unused | server/utils/storage.ts:93-97 | the tracked urls not in the active list |
| Storage.Recent | server/utils/storage.ts:99-103 | unused urls created after the cutoff |
| Storage.Stale | server/utils/storage.ts:104-107 | unused urls created at or before the cutoff |
| Storage.MemberIds | server/utils/storage.ts:116-128 | the members owning at least one tracked url |
| Storage.AvatarStore.constructor | server/utils/storage.ts:9 | the tracker starts empty |
| Storage.AvatarStore.TrackAvatarFile | server/utils/storage.ts:14-23 | inserts or overwrites the entry for the url |
| Storage.AvatarStore.DeleteAvatarFile | server/utils/storage.ts:30-40 | an empty url changes nothing; otherwise only that url is forgotten |
| Storage.AvatarStore.DeleteAllAvatarsForMember | server/utils/storage.ts:45-58 | removes exactly the member's entries and returns how many there were |
| Storage.AvatarStore.CleanupUnusedAvatars | server/utils/storage.ts:83-111 | removes the stale unused urls and counts them; counts the recent unused ones as skipped |
| Storage.AvatarStore.GetAvatarStorageStats | server/utils/storage.ts:116-129 | the number of files and the number of distinct owners, never more owners than files |
| Storage.CleanupKeepsActive | server/utils/storage.ts:93-97 | an active url survives cleanup with its entry unchanged |
| Storage.CleanupCountsEveryUnused | server/utils/storage.ts:93-110 | deleted plus skipped is the number of unused urls |
| Storage.DeletedMemberOwnsNothing | server/utils/storage.ts:45-58 | after the removal the member owns no url and other members' entries are untouched |
| MemberSchema.StripDashes | app/schemas/member.schema.ts:8-11 | the result has no dash and is no longer than the input |
| MemberSchema.StripDashesWithoutDashes | app/schemas/member.schema.ts:8-11 | a dash-free string is left unchanged |
| MemberSchema.TransformMobile | app/schemas/member.schema.ts:8-11 | an accepted mobile number comes out unchanged |
| MemberSchema.MobileExamples | app/schemas/member.schema.ts:8-11 | `09` followed by eight digits is accepted; other prefixes, short numbers and dashes are rejected |
| MemberSchema.ParseGender | app/schemas/member.schema.ts:14-16 | accepted iff Male or Female |
| MemberSchema.ParseStatus | app/schemas/member.schema.ts:19 | accepted iff Active, Inactive or Suspended |
| MemberSchema.ParseCreateMember | app/schemas/member.schema.ts:31-69 | accepted iff the required fields are present, every field is valid and a group comes with a zone; every present value is carried into the payload (enumerations parsed) and defaults fill status, baptism and lists |
| MemberSchema.ParseUpdateMember | app/schemas/member.schema.ts:72 | accepted iff every present field is valid; each present field is carried over (gender and status parsed), absent fields stay absent, deletion metadata is stripped |
| MemberSchema.EmptyUpdateAccepted | app/schemas/member.schema.ts:72 | the empty body is a valid update that changes nothing |
| MemberSchema.CreateBodyIsUpdateBody | app/schemas/member.schema.ts:57-72 | every valid create body is a valid update body |
| MemberSchema.GroupWithoutZone | app/schemas/member.schema.ts:57-69 | a group without a zone fails create but not update |
| MemberSchema.ZoneWithOrWithoutGroup | app/schemas/member.schema.ts:57-69 | a zone alone, or a zone with a group, satisfies the refinement |
| MemberSchema.ParseMemberFilters | app/schemas/member.schema.ts:75-91 | page at least 1 and size 1 to 100, a present value is parsed to its enumeration or kept as given, an absent one takes its default (1, 20, Active, full name, any baptism, createdAt, desc) |
| MemberSchema.ParseReason | app/schemas/member.schema.ts:94-100 | a recognised reason is exactly the name of the reason it parses to |
| MemberSchema.ReasonNameRoundTrip | app/schemas/member.schema.ts:94-100 | every deletion reason's name parses back to it |
| MemberSchema.ParseSoftDelete | app/schemas/member.schema.ts:103-106 | accepted iff the reason is one of the five and the notes are at most 500 characters |
| RoleSchema.ParseScope | app/schemas/role.schema.ts:33 | accepted iff Global, Zone, Group or Self |
| RoleSchema.ParsePermissions | app/schemas/role.schema.ts:36-41 | accepted iff every key is a permission key, and the values carry over unchanged |
| RoleSchema.ParseRevealAuthority | app/schemas/role.schema.ts:42-45 | accepted iff every key is a sensitive field, and the values carry over unchanged |
| RoleSchema.PermissionsRoundTrip | app/schemas/role.schema.ts:36-41 | an accepted record maps back to the raw one key by key |
| RoleSchema.ParseCreateRole | app/schemas/role.schema.ts:48-62 | name 1-50 characters, description up to 200 defaulting to "", and a valid scope and records |
| RoleSchema.ParseUpdateRole | app/schemas/role.schema.ts:65 | accepted iff every present field is valid; present permissions, scope and reveal authority are parsed as on create, absent fields stay absent |
| RoleSchema.EmptyRoleUpdateAccepted | app/schemas/role.schema.ts:65 | the empty body is a valid role update |
| RoleSchema.CreateRoleBodyIsUpdateBody | app/schemas/role.schema.ts:48-65 | every valid create body is a valid update body |
| RoleSchema.ParseRoleFilters | app/schemas/role.schema.ts:68-72 | page at least 1 defaulting to 1; size 1 to 100 defaulting to 20 |
| RevealCache.Lookup | app/composables/useRevealSensitiveData.ts:98-103 | a value exists iff the member and field are cached, and then it is the cached value |
| RevealCache.Merged | app/composables/useRevealSensitiveData.ts:31-38 | the member's entry gains the returned fields on top of its earlier ones |
| RevealCache.Masked | app/composables/useRevealSensitiveData.ts:76-86 | no member is added, and no member is left with an empty entry |
| RevealCache.TimerKey | app/composables/useRevealSensitiveData.ts:41 | the key starts with the member id and a dash |
| RevealCache.RevealCacheState.constructor | app/composables/useRevealSensitiveData.ts:8-11 | nothing revealed, no timers, not revealing |
| RevealCache.RevealCacheState.RevealFields | app/composables/useRevealSensitiveData.ts:16-57 | a failure changes nothing; a success merges the values, cancels the old timer for the same fields and starts a new one; the busy flag ends false |
| RevealCache.RevealCacheState.RevealAll | app/composables/useRevealSensitiveData.ts:62-71 | a reveal of the five sensitive fields under one timer key: merged values, the new timer, and the earlier timer of that key cancelled |
| RevealCache.RevealCacheState.MaskFields | app/composables/useRevealSensitiveData.ts:76-86 | the cache becomes the masked cache; the timers are untouched |
| RevealCache.RevealCacheState.GetRevealedValue | app/composables/useRevealSensitiveData.ts:98-103 | the cached value, or none |
| RevealCache.RevealCacheState.IsFieldRevealed | app/composables/useRevealSensitiveData.ts:91-93 | true iff a non-empty value is cached, so a revealed "" counts as hidden |
| RevealCache.RevealCacheState.TimerFires | app/composables/useRevealSensitiveData.ts:42-47 | a live timer masks its fields; a cancelled or unknown one changes nothing |
| RevealCache.RevealCacheState.Cleanup | app/composables/useRevealSensitiveData.ts:108-114 | every pending timer is cancelled and both maps are emptied |
| RevealCache.MergeEntry | app/composables/useRevealSensitiveData.ts:33-37 | the member's old entry overlaid with the returned values |
| RevealCache.RemoveFields | app/composables/useRevealSensitiveData.ts:78-81 | the entry without the listed fields |
| RevealCache.RevealKeepsEarlierFields | app/composables/useRevealSensitiveData.ts:31-38 | after a reveal the returned fields read their new values and every other cached value is unchanged |
| RevealCache.MaskRemovesOnlyListed | app/composables/useRevealSensitiveData.ts:76-81 | masking hides the listed fields of that member only, and is a no-op for an unknown member |
| RevealCache.MaskingEverythingPrunes | app/composables/useRevealSensitiveData.ts:83-85 | masking every cached field of a member drops the member |
| RevealCache.MaskIdempotent | app/composables/useRevealSensitiveData.ts:76-86 | masking twice is masking once, so a repeated timer firing is harmless |
| RevealCache.AutoMaskHidesRequestedFields | app/composables/useRevealSensitiveData.ts:31-48 | after the auto-mask of a reveal, none of the requested fields is readable |
| RevealCache.RevealAllIsEverySensitiveField | app/composables/useRevealSensitiveData.ts:62-71 | revealAll requests exactly the five sensitive fields, in catalogue order |
| RevealCache.TimerKeysAreDistinct | app/composables/useRevealSensitiveData.ts:41 | for comma-free field names, two field lists share a timer key iff they are equal |
| ZoneGroupCascade.FlattenGroups | app/composables/useZoneGroupCascade.ts:33-41 | a group is in the flat list iff it is in some zone's list |
| ZoneGroupCascade.FlattenGroupsAppend | app/composables/useZoneGroupCascade.ts:33-41 | flattening distributes over concatenation, so the zones' groups come out zone by zone |
| ZoneGroupCascade.FlattenOneZone | app/composables/useZoneGroupCascade.ts:36-38 | one zone flattens to its own groups, in their order |
| ZoneGroupCascade.Flatten | app/composables/useZoneGroupCascade.ts:33-41 | the nested loops build exactly the flattened list |
| ZoneGroupCascade.GroupsOfZone | app/composables/useZoneGroupCascade.ts:51-59 | no zone gives no groups; otherwise exactly the Pastoral groups of that zone, as a subsequence of the loaded groups |
| ZoneGroupCascade.Mismatch | app/composables/useZoneGroupCascade.ts:73-84 | a missing id gives no warning; an unknown group gives a warning; for the first group with that id, a warning exactly when it is Pastoral and names another zone |
| ZoneGroupCascade.CascadeState.constructor | app/composables/useZoneGroupCascade.ts:9-13 | everything starts empty and not loading |
| ZoneGroupCascade.CascadeState.FetchOrganizationStructure | app/composables/useZoneGroupCascade.ts:15-48 | a failed fetch keeps the lists; a success stores the zones and their flattened pastoral groups; loading ends either way |
| ZoneGroupCascade.CascadeState.FilterGroupsByZone | app/composables/useZoneGroupCascade.ts:51-59 | the offered groups are the chosen zone's pastoral groups |
| ZoneGroupCascade.CascadeState.ZoneChanged | app/composables/useZoneGroupCascade.ts:62-70 | a zone change clears the group and re-filters |
| ZoneGroupCascade.CascadeState.IsZoneGroupMismatch | app/composables/useZoneGroupCascade.ts:73-84 | equals Mismatch on the loaded groups |
| ZoneGroupCascade.LoadedGroups | app/composables/useZoneGroupCascade.ts:33-41 | after a fetch a group is loaded iff it is a stored Pastoral group of an existing zone |
| ZoneGroupCascade.OfferedGroupsAreTheZonesPastoralGroups | app/composables/useZoneGroupCascade.ts:51-59 | for an existing zone the offered groups are exactly the stored Pastoral groups naming it |
| ZoneGroupCascade.FoundIsStoreGroup | app/composables/useZoneGroupCascade.ts:75 | with unique ids, a group found in the loaded list is the store's group |
| ZoneGroupCascade.FlattenAllGroups | app/composables/useZoneGroupCascade.ts:33-41 | the flattened pastoral groups together with the functional groups |
| ZoneGroupCascade.MismatchFlagsFunctionalGroup | app/composables/useZoneGroupCascade.ts:75-83 | a functional group is warned about on the client although the server accepts it |
| ZoneGroupCascade.CorrectedMismatchAgreesWithServer | app/composables/useZoneGroupCascade.ts:73-84 | looking the group up among all groups makes the warning hold iff the server validation fails |
| ZoneGroupCascade.MismatchAgreesWithServerOffFunctional | app/composables/useZoneGroupCascade.ts:73-84 | for a group that is not Functional, the client warning holds iff the server validation fails |
| ObjectMerge.MergeInto | app/utils/object.ts:15-37 | the merged keys are the target's plus the source's defined keys |
| ObjectMerge.MergeIntoAt | app/utils/object.ts:16-35 | per key: an undefined source value keeps the target; two plain objects merge recursively; otherwise the source value replaces |
| ObjectMerge.MergeDeep | app/utils/object.ts:7-40 | merging the sources one after another, skipping absent ones |
| ObjectMerge.MergeSource | app/utils/object.ts:15-37 | the loop over one source's keys, recursing into nested objects, computes exactly the merge |
| ObjectMerge.AbsentSourcesAreSkipped | app/utils/object.ts:11-16 | with no present sources the result is the target |
| ObjectMerge.MergedKeys | app/utils/object.ts:13-37 | the result keys are the target keys plus every present source's defined keys |
| ObjectMerge.UndefinedNeverOverwrites | app/utils/object.ts:22 | a source key holding undefined leaves the merged value as it was |
| ObjectMerge.LastSourceWins | app/utils/object.ts:15-37 | a later source's non-object value wins over everything before it |
| ObjectMerge.NestedObjectsMerge | app/utils/object.ts:25-35 | nested plain objects merge key by key instead of being replaced |
| ObjectMerge.MergeIntoSelf | app/utils/object.ts:15-37 | merging an object without undefined values into itself gives it back |
| ObjectMerge.EmptySourceChangesNothing | app/utils/object.ts:15-37 | an empty source leaves the target unchanged |

## Left out

- Firebase, LINE and session plumbing, HTTP handlers and middleware are not part of this model. They are foreign SDK and network calls or thin glue.
- MemberService.Update: the provider checks (Google e-mail and LINE id lock) sit inside a `try` whose bare `catch` swallows their errors, so the model treats that block as doing nothing.
- MemberService `list` is not modelled as one operation. It needs `sortMembers`, which uses date parsing and `localeCompare` collation for `zh-TW`, and that is left out. The parts it composes are modelled: scope filter, `findAll`, masking and pagination.
- Ages (`calculateAge`, dayjs and the clock), id generation and timestamps are parameters, not computed.
- Casl: only exact rule lookup is modelled. CASL treats `manage` as a wildcard action and lets a field-less check match field rules; that library behaviour, `packRules` and `@casl/vue` are not modelled.
- Seqs.Lower: `toLowerCase` is modelled for ASCII letters only. JavaScript strings are UTF-16 code units; the model uses Dafny characters.
- MemberSchema: the date-of-birth check (not in the future), Zod's e-mail and URL checks, `z.coerce` of non-numeric strings and Zod's exact issue lists are not modelled. The first three are passed in as predicates, and the parsers report only accept or reject. Raw values of the wrong JSON type are not represented.
- Helpers.PaginateArray requires a positive page size: with 0 the source divides by zero and reports `Infinity`/`NaN` pages, which integers cannot express.
- Stored members and update payloads both collapse `null` and `undefined` to one "absent". In the source an explicit `null` zoneId or groupId in an update payload clears the field (member.service.ts:292-295 and the spread in member.repository.ts:161-166), while the model keeps the stored value. The update schema, the partial of the base schema (member.schema.ts:48-49 and 72), rejects `null` for both fields, so only a caller that bypasses validation can send it.
- AuditLogs: timestamps are integers of milliseconds, not ISO strings. ISO strings in one format compare like the instants they denote.
- Audit.CreateAuditLog: the `catch` path that returns "" cannot happen with an in-memory log, so the model has no failure branch.
- Auth.AuthService: the source keeps one module-level cache shared by every `new AuthService()`. The model keeps the cache in the object, so it is exact only when all handlers use one instance. Sharing between separately constructed instances is not modelled.
- RateLimit.CheckRevealRateLimit: the source reads `Date.now()` twice; the model uses one `now` for both reads.
- Storage.AvatarStore.CleanupUnusedAvatars: the cutoff is passed in rather than computed with `setDate` calendar arithmetic. A stale entry with url "" is counted as deleted but stays tracked, as the source's `deleteAvatarFile` ignores the empty url.
- `getPathFromUrl` (storage) is not modelled. It relies on the `URL` class and `decodeURIComponent`.
- RevealCache: timers and concurrency are modelled as explicit firing events with cancelled handles; the 30-second delay and the race between overlapping reveal requests are not.
- RevealCache: a firing may arrive more than once, which MaskIdempotent shows is harmless.
- RevealCache.RevealCacheState.RevealFields: the fetch is a parameter (its result), and the error toast is not modelled.
- Masking.MaskAddressExample: the doc comment in masking.ts shows a six-character prefix for its example; the code keeps five characters, and the model follows the code.
- ZoneGroupCascade.CascadeState.FetchOrganizationStructure: the check `'groups' in zone` always holds in the typed model, and the zone objects copied field by field are stored as the zones themselves.
- ObjectMerge.MergeDeep does not model aliasing or key order.
  - With no sources, the source returns the target object itself, not a copy.
  - `for…in` also visits inherited keys.
  - Class instances are treated like any other non-object value.
- `server/services/organization.service.ts`, the Pinia stores, the other composables, route middleware, fixtures for members, zones and courses, and configuration are not part of this model.

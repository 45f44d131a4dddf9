/**
 * The member input schemas: what a create, update, list or soft-delete request
 * must look like, and the defaults filled in on success.
 *
 * A request body is a record of optional raw values (`None` is an absent
 * property); enumerations arrive as their wire strings. Values of the wrong
 * JSON type are not represented. Three checks belong to the validation library
 * or to the clock and are parameters: the e-mail syntax, the URL syntax and
 * "this date is not in the future".
 */
module MemberSchema {
  import opened Wrappers
  import opened Entities
  import Members

  /** The checks the schema delegates to the library and to the clock. */
  datatype Checks = Checks(isEmail: string -> bool, isUrl: string -> bool, notFuture: string -> bool)

  // ---------------------------------------------------------------------------
  // Field formats
  // ---------------------------------------------------------------------------

  /** `\d`: an ASCII digit. */
  predicate IsDigit(c: char)
  {
    '0' <= c <= '9'
  }

  /** `/^09\d{8}$/`: "09" followed by exactly eight digits. */
  predicate ValidMobile(s: string)
  {
    |s| == 10 && s[0] == '0' && s[1] == '9' && forall i :: 2 <= i < 10 ==> IsDigit(s[i])
  }

  /** `val.replace(/-/g, '')`. */
  function StripDashes(s: string): (r: string)
    ensures |r| <= |s|
    ensures '-' !in r
  {
    if s == [] then [] else (if s[0] == '-' then [] else [s[0]]) + StripDashes(s[1..])
  }

  /** A string without dashes is left as it is. */
  lemma {:induction false} StripDashesWithoutDashes(s: string)
    requires '-' !in s
    ensures StripDashes(s) == s
  {
    if s != [] {
      StripDashesWithoutDashes(s[1..]);
      assert s == [s[0]] + s[1..];
    }
  }

  /** The mobile transform: an accepted number has no dashes, so it is stored unchanged. */
  function TransformMobile(s: string): (r: string)
    requires ValidMobile(s)
    ensures r == s
  {
    assert forall i :: 0 <= i < |s| ==> s[i] != '-' by {
      forall i | 0 <= i < |s| ensures s[i] != '-' {
        if i >= 2 {
          assert IsDigit(s[i]);
        }
      }
    }
    StripDashesWithoutDashes(s);
    StripDashes(s)
  }

  lemma MobileExamples()
    ensures ValidMobile("0912345678") && ValidMobile("0987654321")
    ensures !ValidMobile("1234567890") && !ValidMobile("091234567") && !ValidMobile("09-1234567")
  {
    assert "09-1234567"[2] == '-';
  }

  /** `/^\d{4}-\d{2}-\d{2}$/`. */
  predicate DateFormat(s: string)
  {
    |s| == 10 && s[4] == '-' && s[7] == '-' &&
    forall i :: 0 <= i < 10 && i != 4 && i != 7 ==> IsDigit(s[i])
  }

  predicate ValidDate(checks: Checks, s: string)
  {
    DateFormat(s) && checks.notFuture(s)
  }

  /** `z.string().min(lo).max(hi)`. */
  predicate LengthIn(s: string, lo: nat, hi: nat)
  {
    lo <= |s| <= hi
  }

  function ParseGender(s: string): (r: Option<Gender>)
    ensures r.Some? <==> s == "Male" || s == "Female"
  {
    if s == "Male" then Some(Male) else if s == "Female" then Some(Female) else None
  }

  function ParseStatus(s: string): (r: Option<MemberStatus>)
    ensures r.Some? <==> s == "Active" || s == "Inactive" || s == "Suspended"
  {
    if s == "Active" then Some(Active)
    else if s == "Inactive" then Some(Inactive)
    else if s == "Suspended" then Some(Suspended)
    else None
  }

  // ---------------------------------------------------------------------------
  // Create and update
  // ---------------------------------------------------------------------------

  datatype RawMember = RawMember(
    fullName: Option<string>,
    gender: Option<string>,
    dob: Option<string>,
    email: Option<string>,
    mobile: Option<string>,
    address: Option<string>,
    lineId: Option<string>,
    emergencyContactName: Option<string>,
    emergencyContactRelationship: Option<string>,
    emergencyContactPhone: Option<string>,
    baptismStatus: Option<bool>,
    baptismDate: Option<string>,
    status: Option<string>,
    zoneId: Option<string>,
    groupId: Option<string>,
    pastCourses: Option<seq<string>>,
    roleIds: Option<seq<string>>,
    functionalGroupIds: Option<seq<string>>,
    avatar: Option<string>)

  /** `p` holds for the value when the property is present. */
  predicate IfPresent<T>(o: Option<T>, p: T -> bool)
  {
    o.Some? ==> p(o.value)
  }

  /** baseMemberSchema's field rules, each applied to a present property. */
  predicate PresentFieldsValid(checks: Checks, raw: RawMember)
  {
    IfPresent(raw.fullName, (s: string) => LengthIn(s, 1, 50)) &&
    IfPresent(raw.gender, (s: string) => ParseGender(s).Some?) &&
    IfPresent(raw.dob, (s: string) => ValidDate(checks, s)) &&
    IfPresent(raw.email, checks.isEmail) &&
    IfPresent(raw.mobile, ValidMobile) &&
    IfPresent(raw.address, (s: string) => |s| <= 200) &&
    IfPresent(raw.lineId, (s: string) => |s| <= 50) &&
    IfPresent(raw.emergencyContactName, (s: string) => |s| >= 1) &&
    IfPresent(raw.emergencyContactRelationship, (s: string) => |s| >= 1) &&
    IfPresent(raw.emergencyContactPhone, ValidMobile) &&
    IfPresent(raw.status, (s: string) => ParseStatus(s).Some?) &&
    IfPresent(raw.avatar, checks.isUrl)
  }

  /** The properties without `.optional()` or `.default()`. */
  predicate RequiredPresent(raw: RawMember)
  {
    raw.fullName.Some? && raw.gender.Some? && raw.dob.Some? && raw.email.Some? && raw.mobile.Some? &&
    raw.emergencyContactName.Some? && raw.emergencyContactRelationship.Some? && raw.emergencyContactPhone.Some?
  }

  /** createMemberSchema's refinement: a (non-empty) group needs a (non-empty) zone. */
  predicate GroupHasZone(raw: RawMember)
  {
    !(Truthy(raw.groupId) && !Truthy(raw.zoneId))
  }

  predicate ValidCreate(checks: Checks, raw: RawMember)
  {
    RequiredPresent(raw) && PresentFieldsValid(checks, raw) && GroupHasZone(raw)
  }

  /**
   * createMemberSchema: the payload when every rule holds, with the defaults
   * filled in (not baptised, status Active, empty id lists).
   */
  function ParseCreateMember(checks: Checks, raw: RawMember): (r: Option<CreateMemberPayload>)
    ensures r.Some? <==> ValidCreate(checks, raw)
    ensures r.Some? ==>
      r.value.fullName == raw.fullName.value && 1 <= |r.value.fullName| <= 50 &&
      Some(r.value.gender) == ParseGender(raw.gender.value) &&
      r.value.dob == raw.dob.value && r.value.email == raw.email.value &&
      r.value.mobile == raw.mobile.value && ValidMobile(r.value.mobile) &&
      r.value.emergencyContactName == raw.emergencyContactName.value &&
      r.value.emergencyContactRelationship == raw.emergencyContactRelationship.value &&
      r.value.emergencyContactPhone == raw.emergencyContactPhone.value &&
      r.value.address == raw.address && r.value.lineId == raw.lineId && r.value.baptismDate == raw.baptismDate &&
      r.value.zoneId == raw.zoneId && r.value.groupId == raw.groupId && r.value.avatar == raw.avatar
    ensures r.Some? ==>
      r.value.baptismStatus == Or(raw.baptismStatus, false) &&
      r.value.status == Some(if raw.status.Some? then ParseStatus(raw.status.value).value else Active) &&
      r.value.pastCourses == Some(Or(raw.pastCourses, [])) &&
      r.value.roleIds == Some(Or(raw.roleIds, [])) &&
      r.value.functionalGroupIds == Some(Or(raw.functionalGroupIds, []))
  {
    if !ValidCreate(checks, raw) then None
    else
      Some(CreateMemberPayload(
        raw.fullName.value,
        ParseGender(raw.gender.value).value,
        raw.dob.value,
        raw.email.value,
        TransformMobile(raw.mobile.value),
        raw.address,
        raw.lineId,
        raw.emergencyContactName.value,
        raw.emergencyContactRelationship.value,
        TransformMobile(raw.emergencyContactPhone.value),
        Or(raw.baptismStatus, false),
        raw.baptismDate,
        Some(if raw.status.Some? then ParseStatus(raw.status.value).value else Active),
        raw.zoneId,
        raw.groupId,
        Some(Or(raw.pastCourses, [])),
        Some(Or(raw.roleIds, [])),
        Some(Or(raw.functionalGroupIds, [])),
        raw.avatar))
  }

  /**
   * updateMemberSchema (`baseMemberSchema.partial()`): every property may be
   * absent, a present one obeys its rule, no default is filled in and there is
   * no group/zone refinement. Deletion metadata is not part of the schema and
   * is stripped.
   */
  function ParseUpdateMember(checks: Checks, raw: RawMember): (r: Option<UpdateMemberPayload>)
    ensures r.Some? <==> PresentFieldsValid(checks, raw)
    ensures r.Some? ==>
      r.value.fullName == raw.fullName && r.value.dob == raw.dob && r.value.email == raw.email &&
      r.value.mobile == raw.mobile && r.value.emergencyContactPhone == raw.emergencyContactPhone &&
      r.value.address == raw.address && r.value.lineId == raw.lineId &&
      r.value.baptismStatus == raw.baptismStatus && r.value.zoneId == raw.zoneId &&
      r.value.groupId == raw.groupId && r.value.pastCourses == raw.pastCourses &&
      r.value.roleIds == raw.roleIds && r.value.functionalGroupIds == raw.functionalGroupIds &&
      r.value.avatar == raw.avatar && r.value.baptismDate == raw.baptismDate &&
      r.value.emergencyContactName == raw.emergencyContactName &&
      r.value.emergencyContactRelationship == raw.emergencyContactRelationship
    ensures r.Some? ==>
      r.value.gender == (if raw.gender.Some? then ParseGender(raw.gender.value) else None) &&
      r.value.status == (if raw.status.Some? then ParseStatus(raw.status.value) else None)
    ensures r.Some? ==> (r.value.gender.Some? <==> raw.gender.Some?) && (r.value.status.Some? <==> raw.status.Some?)
    ensures r.Some? ==> r.value.deletionReason.None? && r.value.deletionNotes.None?
  {
    if !PresentFieldsValid(checks, raw) then None
    else
      Some(UpdateMemberPayload(
        raw.fullName,
        if raw.gender.Some? then ParseGender(raw.gender.value) else None,
        raw.dob,
        raw.email,
        if raw.mobile.Some? then Some(TransformMobile(raw.mobile.value)) else None,
        raw.address,
        raw.lineId,
        raw.emergencyContactName,
        raw.emergencyContactRelationship,
        if raw.emergencyContactPhone.Some? then Some(TransformMobile(raw.emergencyContactPhone.value)) else None,
        raw.baptismStatus,
        raw.baptismDate,
        if raw.status.Some? then ParseStatus(raw.status.value) else None,
        raw.zoneId,
        raw.groupId,
        raw.pastCourses,
        raw.roleIds,
        raw.functionalGroupIds,
        raw.avatar,
        None,
        None))
  }

  const EmptyRawMember: RawMember :=
    RawMember(None, None, None, None, None, None, None, None, None, None, None, None, None, None, None, None,
              None, None, None)

  /** The empty body is a valid update that changes nothing. */
  lemma EmptyUpdateAccepted(checks: Checks)
    ensures ParseUpdateMember(checks, EmptyRawMember) ==
      Some(UpdateMemberPayload(None, None, None, None, None, None, None, None, None, None, None, None, None,
                               None, None, None, None, None, None, None, None))
  {
  }

  /** Whatever is a valid create body is also a valid update body. */
  lemma CreateBodyIsUpdateBody(checks: Checks, raw: RawMember)
    requires ParseCreateMember(checks, raw).Some?
    ensures ParseUpdateMember(checks, raw).Some?
  {
  }

  /** A body naming a group but no zone is refused on create and accepted on update when otherwise valid. */
  lemma GroupWithoutZone(checks: Checks, raw: RawMember)
    requires Truthy(raw.groupId) && !Truthy(raw.zoneId)
    ensures ParseCreateMember(checks, raw).None?
    ensures PresentFieldsValid(checks, raw) ==> ParseUpdateMember(checks, raw).Some?
  {
  }

  /** A zone alone, or a zone with a group, passes the refinement. */
  lemma ZoneWithOrWithoutGroup(raw: RawMember)
    requires Truthy(raw.zoneId)
    ensures GroupHasZone(raw)
  {
  }

  // ---------------------------------------------------------------------------
  // List filters
  // ---------------------------------------------------------------------------

  /** `unassigned` arrives either as a query string or as a boolean. */
  datatype RawFlag = FlagText(text: string) | FlagBool(flag: bool)

  datatype SortBy = SortByCreatedAt | SortByDob | SortByFullName
  datatype SortOrder = Asc | Desc

  /** The parsed list query: the filters, the page and the ordering. */
  datatype MemberQuery = MemberQuery(filters: MemberFilters, page: nat, pageSize: nat, sortBy: SortBy,
                                     sortOrder: SortOrder)

  /** The raw query; page and pageSize are the numbers the query strings coerce to. */
  datatype RawMemberFilters = RawMemberFilters(
    search: Option<string>,
    searchField: Option<string>,
    status: Option<string>,
    baptismStatus: Option<string>,
    zoneId: Option<string>,
    groupId: Option<string>,
    unassigned: Option<RawFlag>,
    page: Option<int>,
    pageSize: Option<int>,
    sortBy: Option<string>,
    sortOrder: Option<string>)

  function ParseSearchField(s: string): Option<SearchField>
  {
    if s == "fullName" then Some(ByFullName) else if s == "mobile" then Some(ByMobile) else None
  }

  function ParseStatusFilter(s: string): Option<StatusFilter>
  {
    if s == "all" then Some(AllStatuses)
    else match ParseStatus(s)
      case Some(st) => Some(OnlyStatus(st))
      case None => None
  }

  function ParseBaptismFilter(s: string): Option<BaptismFilter>
  {
    if s == "all" then Some(AnyBaptism)
    else if s == "baptized" then Some(Baptized)
    else if s == "notBaptized" then Some(NotBaptized)
    else None
  }

  function ParseSortBy(s: string): Option<SortBy>
  {
    if s == "createdAt" then Some(SortByCreatedAt)
    else if s == "dob" then Some(SortByDob)
    else if s == "fullName" then Some(SortByFullName)
    else None
  }

  function ParseSortOrder(s: string): Option<SortOrder>
  {
    if s == "asc" then Some(Asc) else if s == "desc" then Some(Desc) else None
  }

  /** `unassigned`: the string "true" or the boolean itself; any other string means false. */
  function ReadFlag(f: RawFlag): bool
  {
    match f
    case FlagText(text) => text == "true"
    case FlagBool(b) => b
  }

  predicate ValidMemberFilters(raw: RawMemberFilters)
  {
    IfPresent(raw.searchField, (s: string) => ParseSearchField(s).Some?) &&
    IfPresent(raw.status, (s: string) => ParseStatusFilter(s).Some?) &&
    IfPresent(raw.baptismStatus, (s: string) => ParseBaptismFilter(s).Some?) &&
    IfPresent(raw.page, (n: int) => n >= 1) &&
    IfPresent(raw.pageSize, (n: int) => 1 <= n <= 100) &&
    IfPresent(raw.sortBy, (s: string) => ParseSortBy(s).Some?) &&
    IfPresent(raw.sortOrder, (s: string) => ParseSortOrder(s).Some?)
  }

  /**
   * memberFiltersSchema: the query when every present value is allowed, with
   * the defaults search by name, status Active, any baptism status, page 1 of
   * 20, newest first.
   */
  function ParseMemberFilters(raw: RawMemberFilters): (r: Option<MemberQuery>)
    ensures r.Some? <==> ValidMemberFilters(raw)
    ensures r.Some? ==> r.value.page >= 1 && 1 <= r.value.pageSize <= 100
    ensures r.Some? && raw.page.None? ==> r.value.page == 1
    ensures r.Some? && raw.pageSize.None? ==> r.value.pageSize == 20
    ensures r.Some? && raw.status.None? ==> r.value.filters.status == Some(OnlyStatus(Active))
    ensures r.Some? && raw.searchField.None? ==> r.value.filters.searchField == Some(ByFullName)
    ensures r.Some? && raw.baptismStatus.None? ==> r.value.filters.baptismStatus == Some(AnyBaptism)
    ensures r.Some? && raw.sortBy.None? ==> r.value.sortBy == SortByCreatedAt
    ensures r.Some? && raw.sortOrder.None? ==> r.value.sortOrder == Desc
    ensures r.Some? && raw.page.Some? ==> r.value.page == raw.page.value
    ensures r.Some? && raw.pageSize.Some? ==> r.value.pageSize == raw.pageSize.value
    ensures r.Some? && raw.status.Some? ==> r.value.filters.status == ParseStatusFilter(raw.status.value)
    ensures r.Some? && raw.searchField.Some? ==> r.value.filters.searchField == ParseSearchField(raw.searchField.value)
    ensures r.Some? && raw.baptismStatus.Some? ==> r.value.filters.baptismStatus == ParseBaptismFilter(raw.baptismStatus.value)
    ensures r.Some? && raw.sortBy.Some? ==> Some(r.value.sortBy) == ParseSortBy(raw.sortBy.value)
    ensures r.Some? && raw.sortOrder.Some? ==> Some(r.value.sortOrder) == ParseSortOrder(raw.sortOrder.value)
    ensures r.Some? ==> r.value.filters.search == raw.search && r.value.filters.zoneId == raw.zoneId &&
                        r.value.filters.groupId == raw.groupId
    ensures r.Some? ==> r.value.filters.unassigned == (if raw.unassigned.Some? then Some(ReadFlag(raw.unassigned.value)) else None)
  {
    if !ValidMemberFilters(raw) then None
    else
      var filters := MemberFilters(
        raw.search,
        Some(if raw.searchField.Some? then ParseSearchField(raw.searchField.value).value else ByFullName),
        Some(if raw.status.Some? then ParseStatusFilter(raw.status.value).value else OnlyStatus(Active)),
        Some(if raw.baptismStatus.Some? then ParseBaptismFilter(raw.baptismStatus.value).value else AnyBaptism),
        raw.zoneId,
        raw.groupId,
        if raw.unassigned.Some? then Some(ReadFlag(raw.unassigned.value)) else None);
      Some(MemberQuery(
        filters,
        if raw.page.Some? then raw.page.value else 1,
        if raw.pageSize.Some? then raw.pageSize.value else 20,
        if raw.sortBy.Some? then ParseSortBy(raw.sortBy.value).value else SortByCreatedAt,
        if raw.sortOrder.Some? then ParseSortOrder(raw.sortOrder.value).value else Desc))
  }

  // ---------------------------------------------------------------------------
  // Soft delete
  // ---------------------------------------------------------------------------

  function ReasonName(r: DeletionReason): string
  {
    match r
    case LeftChurch => "left_church"
    case Transferred => "transferred"
    case Duplicate => "duplicate"
    case DataError => "data_error"
    case Other => "other"
  }

  function ParseReason(s: string): (r: Option<DeletionReason>)
    ensures r.Some? ==> ReasonName(r.value) == s
  {
    if s == "left_church" then Some(LeftChurch)
    else if s == "transferred" then Some(Transferred)
    else if s == "duplicate" then Some(Duplicate)
    else if s == "data_error" then Some(DataError)
    else if s == "other" then Some(Other)
    else None
  }

  /** Every reason code is accepted and read back as itself. */
  lemma ReasonNameRoundTrip(r: DeletionReason)
    ensures ParseReason(ReasonName(r)) == Some(r)
  {
  }

  /** softDeleteSchema: a known reason code is required; notes are optional and at most 500 characters. */
  function ParseSoftDelete(reason: Option<string>, notes: Option<string>): (r: Option<Members.Deletion>)
    ensures r.Some? <==> reason.Some? && ParseReason(reason.value).Some? && IfPresent(notes, (s: string) => |s| <= 500)
    ensures r.Some? ==> ReasonName(r.value.reason) == reason.value && r.value.notes == notes
  {
    if reason.None? then None
    else match ParseReason(reason.value)
      case None => None
      case Some(code) =>
        if notes.Some? && |notes.value| > 500 then None else Some(Members.Deletion(code, notes))
  }
}

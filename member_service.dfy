/**
 * The member service: the data-scope guard and list filter, the all-or-nothing
 * reveal of sensitive fields, the masked detail view, and the guards that run
 * before the repository is written (mobile uniqueness, zone/group consistency).
 */
module MemberService {
  import opened Wrappers
  import opened Seqs
  import opened Permissions
  import opened Entities
  import Casl
  import opened Masking
  import opened Members
  import opened Organization

  /** memberRepo.findById: the first member with that uuid. */
  function FindMember(members: seq<Member>, uuid: string): (r: Option<Member>)
    ensures r.Some? <==> exists i :: 0 <= i < |members| && members[i].uuid == uuid
    ensures r.Some? ==> r.value == members[FirstIndex(members, (m: Member) => m.uuid == uuid)]
  {
    Find(members, (m: Member) => m.uuid == uuid)
  }

  // ---------------------------------------------------------------------------
  // Data scope
  // ---------------------------------------------------------------------------

  /** The member's group, or one of its functional groups, is managed by the user. */
  predicate InManagedGroup(ctx: UserContext, member: Member)
  {
    (Truthy(member.groupId) && member.groupId.value in ctx.managedGroupIds) ||
    (exists g :: g in member.functionalGroupIds && g in ctx.managedGroupIds)
  }

  /**
   * checkScopeAccess: Global sees everyone, Zone sees members of the same zone
   * (an absent zone matches an absent zone), Group sees members of a managed
   * group, Self sees only the user's own record; anything else is 403.
   */
  function CheckScopeAccess(ctx: UserContext, member: Member): (o: Outcome)
    ensures o.Fail? ==> o.status == 403
    ensures ctx.scope == Global ==> o == Pass
    ensures ctx.scope == DataScope.Zone ==> (o == Pass <==> member.zoneId == ctx.zoneId)
    ensures ctx.scope == DataScope.Group ==> (o == Pass <==> InManagedGroup(ctx, member))
    ensures ctx.scope == Self ==> (o == Pass <==> member.uuid == ctx.userId)
  {
    match ctx.scope
    case Global => Pass
    case Zone => if member.zoneId != ctx.zoneId then Fail(403) else Pass
    case Group =>
      var inGroup := Truthy(member.groupId) && member.groupId.value in ctx.managedGroupIds;
      var inFunctional := exists g :: g in member.functionalGroupIds && g in ctx.managedGroupIds;
      if !inGroup && !inFunctional then Fail(403) else Pass
    case Self => if member.uuid != ctx.userId then Fail(403) else Pass
  }

  /**
   * applyScopeFilter: a copy of the list filters narrowed to the user's zone or
   * to the first managed group; no other filter is touched, and Global and Self
   * leave the filters as they are.
   */
  function ApplyScopeFilter(ctx: UserContext, filters: MemberFilters): (r: MemberFilters)
    ensures r.(zoneId := filters.zoneId, groupId := filters.groupId) == filters
    ensures ctx.scope == Global || ctx.scope == Self ==> r == filters
    ensures ctx.scope == DataScope.Zone ==> r.groupId == filters.groupId
    ensures ctx.scope == DataScope.Zone && Truthy(ctx.zoneId) ==> r.zoneId == ctx.zoneId
    ensures ctx.scope == DataScope.Zone && !Truthy(ctx.zoneId) ==> r == filters
    ensures ctx.scope == DataScope.Group ==> r.zoneId == filters.zoneId
    ensures ctx.scope == DataScope.Group && |ctx.managedGroupIds| > 0 ==> r.groupId == Some(ctx.managedGroupIds[0])
    ensures ctx.scope == DataScope.Group && |ctx.managedGroupIds| == 0 ==> r == filters
  {
    match ctx.scope
    case Zone => if Truthy(ctx.zoneId) then filters.(zoneId := ctx.zoneId) else filters
    case Group =>
      if |ctx.managedGroupIds| > 0 then filters.(groupId := Some(ctx.managedGroupIds[0])) else filters
    case _ => filters
  }

  /**
   * The scoped list agrees with the scope guard: under Global, under Zone with a
   * zone, and under Group with a non-empty first managed group, every member the
   * scoped filters let through passes checkScopeAccess.
   */
  lemma ScopedListPassesAccess(ctx: UserContext, filters: MemberFilters, members: seq<Member>)
    requires ctx.scope != Self
    requires ctx.scope == DataScope.Zone ==> Truthy(ctx.zoneId)
    requires ctx.scope == DataScope.Group ==> |ctx.managedGroupIds| > 0 && ctx.managedGroupIds[0] != ""
    ensures forall m :: m in Filter(members, (m: Member) => MatchesFilters(Some(ApplyScopeFilter(ctx, filters)), m)) ==>
      CheckScopeAccess(ctx, m) == Pass
  {
    var scoped := ApplyScopeFilter(ctx, filters);
    forall m | m in Filter(members, (m: Member) => MatchesFilters(Some(scoped), m))
      ensures CheckScopeAccess(ctx, m) == Pass
    {
      assert Stages(scoped, 6, m);
      if ctx.scope == DataScope.Zone {
        assert ZoneMatches(scoped, m);
      } else if ctx.scope == DataScope.Group {
        assert GroupMatches(scoped, m);
        assert m.groupId == Some(ctx.managedGroupIds[0]);
      }
    }
  }

  /**
   * Group scope narrows the list to the first managed group only: a member of
   * another managed group passes the guard on its detail page but is never
   * listed.
   */
  lemma GroupListShowsFirstManagedGroupOnly(ctx: UserContext, filters: MemberFilters, m: Member)
    requires ctx.scope == DataScope.Group && |ctx.managedGroupIds| >= 2
    requires ctx.managedGroupIds[0] != ""
    requires ctx.managedGroupIds[1] != "" && ctx.managedGroupIds[1] != ctx.managedGroupIds[0]
    requires m.groupId == Some(ctx.managedGroupIds[1])
    ensures CheckScopeAccess(ctx, m) == Pass
    ensures !MatchesFilters(Some(ApplyScopeFilter(ctx, filters)), m)
  {
    assert !GroupMatches(ApplyScopeFilter(ctx, filters), m);
  }

  // ---------------------------------------------------------------------------
  // Zone and group consistency
  // ---------------------------------------------------------------------------

  /**
   * validateZoneGroupRelationship: without a group there is nothing to check; a
   * group needs a zone, must exist, and unless it is Functional must lie in that
   * zone. Every failure is 400.
   */
  function ValidateZoneGroupRelationship(store: OrgStore, zoneId: Option<string>, groupId: Option<string>): (o: Outcome)
    ensures o.Fail? ==> o.status == 400
    ensures !Truthy(groupId) ==> o == Pass
    ensures Truthy(groupId) && !Truthy(zoneId) ==> o == Fail(400)
    ensures Truthy(groupId) && FindGroupById(store, groupId.value).None? ==> o == Fail(400)
    ensures o == Pass && Truthy(groupId) ==>
      Truthy(zoneId) && FindGroupById(store, groupId.value).Some? &&
      (FindGroupById(store, groupId.value).value.groupType == Functional ||
       FindGroupById(store, groupId.value).value.zoneId == zoneId)
    ensures (Truthy(groupId) && Truthy(zoneId) && FindGroupById(store, groupId.value).Some? &&
             (FindGroupById(store, groupId.value).value.groupType == Functional ||
              FindGroupById(store, groupId.value).value.zoneId == zoneId)) ==> o == Pass
  {
    if !Truthy(groupId) then Pass
    else if !Truthy(zoneId) then Fail(400)
    else
      match FindGroupById(store, groupId.value)
      case None => Fail(400)
      case Some(group) =>
        if group.groupType == Functional then Pass
        else if group.zoneId != zoneId then Fail(400)
        else Pass
  }

  // ---------------------------------------------------------------------------
  // Reveal
  // ---------------------------------------------------------------------------

  /** The plain value of a sensitive field; an absent LINE id or address is "". */
  function FieldValue(m: Member, f: SensitiveField): (v: string)
    ensures f == LineId ==> (Truthy(m.lineId) ==> v == m.lineId.value) && (!Truthy(m.lineId) ==> v == "")
    ensures f == Address ==> (Truthy(m.address) ==> v == m.address.value) && (!Truthy(m.address) ==> v == "")
  {
    match f
    case Mobile => m.mobile
    case Email => m.email
    case LineId => OrEmpty(m.lineId)
    case Address => OrEmpty(m.address)
    case EmergencyContactPhone => m.emergencyContactPhone
  }

  /** The map revealFields returns: every requested sensitive field name with its plain value. */
  function Revealed(m: Member, fields: seq<string>): (r: map<string, string>)
    ensures forall k :: k in r <==> k in fields && IsSensitiveName(k)
    ensures forall f :: FieldName(f) in r ==> r[FieldName(f)] == FieldValue(m, f)
  {
    forall f ensures FieldFromName(FieldName(f)) == Some(f) {
      FieldNameRoundTrip(f);
    }
    map k | k in fields && IsSensitiveName(k) :: FieldValue(m, FieldFromName(k).value)
  }

  /** The ability allows revealing the named field of a member. */
  predicate CanReveal(ability: Casl.Ability, field: string)
  {
    Casl.Can(ability, Casl.Reveal, Casl.Member, Some(field))
  }

  /**
   * revealFields: an unknown member is 404; the scope guard runs next; then every
   * requested field must be revealable, and the first that is not aborts with 403
   * and no values. Otherwise the plain values of the requested fields.
   */
  method RevealFields(repo: MemberRepository, ctx: UserContext, ability: Casl.Ability, uuid: string, fields: seq<string>)
    returns (r: Result<map<string, string>>)
    ensures FindMember(repo.members, uuid).None? ==> r == Err(404)
    ensures FindMember(repo.members, uuid).Some? && CheckScopeAccess(ctx, FindMember(repo.members, uuid).value).Fail? ==>
      r == Err(403)
    ensures r.Ok? <==> (FindMember(repo.members, uuid).Some? &&
      CheckScopeAccess(ctx, FindMember(repo.members, uuid).value) == Pass &&
      forall i :: 0 <= i < |fields| ==> CanReveal(ability, fields[i]))
    ensures r.Err? ==> r.status == 404 || r.status == 403
    ensures r.Ok? ==> r.value == Revealed(FindMember(repo.members, uuid).value, fields)
  {
    var found := repo.FindById(uuid);
    if found.None? {
      return Err(404);
    }
    var member := found.value;
    var access := CheckScopeAccess(ctx, member);
    if access.Fail? {
      return Err(access.status);
    }
    r := CollectRevealed(member, ability, fields);
  }

  /** The loop of revealFields: the plain value of each requested field, aborting on the first denial. */
  method CollectRevealed(member: Member, ability: Casl.Ability, fields: seq<string>) returns (r: Result<map<string, string>>)
    ensures r.Ok? <==> forall i :: 0 <= i < |fields| ==> CanReveal(ability, fields[i])
    ensures r.Err? ==> r.status == 403
    ensures r.Ok? ==> r.value == Revealed(member, fields)
  {
    var result: map<string, string> := map[];
    for i := 0 to |fields|
      invariant forall j :: 0 <= j < i ==> CanReveal(ability, fields[j])
      invariant result == Revealed(member, fields[..i])
    {
      var field := fields[i];
      if !CanReveal(ability, field) {
        return Err(403);
      }
      RevealedStep(member, fields, i);
      if field == "mobile" {
        result := result[field := member.mobile];
      } else if field == "email" {
        result := result[field := member.email];
      } else if field == "lineId" {
        result := result[field := OrEmpty(member.lineId)];
      } else if field == "address" {
        result := result[field := OrEmpty(member.address)];
      } else if field == "emergencyContactPhone" {
        result := result[field := member.emergencyContactPhone];
      }
    }
    assert fields[..|fields|] == fields;
    r := Ok(result);
  }

  /** Revealing one more field adds its plain value when it is a sensitive field name. */
  lemma RevealedStep(m: Member, fields: seq<string>, i: nat)
    requires i < |fields|
    ensures Revealed(m, fields[..i + 1]) ==
      if IsSensitiveName(fields[i]) then Revealed(m, fields[..i])[fields[i] := FieldValue(m, FieldFromName(fields[i]).value)]
      else Revealed(m, fields[..i])
  {
    assert fields[..i + 1] == fields[..i] + [fields[i]];
  }

  /**
   * With the ability built from the user's context, a reveal that passed the
   * scope guard succeeds exactly when the user holds reveal authority for every
   * requested field, and then the result has exactly the requested fields as keys.
   */
  lemma RevealIsAllOrNothing(ctx: UserContext, ability: Casl.Ability, m: Member, fields: seq<string>)
    requires forall r :: r in ability.rules <==> Casl.IsGrantedRule(ctx, r)
    ensures (forall i :: 0 <= i < |fields| ==> CanReveal(ability, fields[i])) <==>
      (forall i :: 0 <= i < |fields| ==>
        IsSensitiveName(fields[i]) && Granted(ctx.revealAuthority, FieldFromName(fields[i]).value))
    ensures (forall i :: 0 <= i < |fields| ==> CanReveal(ability, fields[i])) ==>
      Revealed(m, fields).Keys == set i | 0 <= i < |fields| :: fields[i]
  {
    forall i | 0 <= i < |fields|
      ensures CanReveal(ability, fields[i]) <==>
        IsSensitiveName(fields[i]) && Granted(ctx.revealAuthority, FieldFromName(fields[i]).value)
    {
      Casl.CanRevealIffAuthority(ctx, ability, fields[i]);
    }
  }

  // ---------------------------------------------------------------------------
  // The masked detail view
  // ---------------------------------------------------------------------------

  /**
   * What getDetail shows of a member: mobile, email and the emergency contact's
   * phone always masked, the LINE id and address masked when present, and every
   * other field as stored.
   */
  function MaskedView(m: Member): (v: Member)
    ensures v.(mobile := m.mobile, email := m.email, lineId := m.lineId, address := m.address,
               emergencyContactPhone := m.emergencyContactPhone) == m
    ensures v.mobile == MaskMobile(m.mobile) && v.email == MaskEmail(m.email)
    ensures v.emergencyContactPhone == MaskPhone(m.emergencyContactPhone)
    ensures v.lineId == (if Truthy(m.lineId) then Some(MaskLineId(m.lineId.value)) else m.lineId)
    ensures v.address == (if Truthy(m.address) then Some(MaskAddress(m.address.value)) else m.address)
  {
    m.(mobile := MaskMobile(m.mobile),
       email := MaskEmail(m.email),
       lineId := if Truthy(m.lineId) then Some(MaskLineId(m.lineId.value)) else m.lineId,
       address := if Truthy(m.address) then Some(MaskAddress(m.address.value)) else m.address,
       emergencyContactPhone := MaskPhone(m.emergencyContactPhone))
  }

  /** The masking loop of getDetail: each sensitive field in turn, through its mask function. */
  method MaskSensitiveFields(member: Member) returns (masked: Member)
    ensures masked == MaskedView(member)
  {
    masked := member;
    var sensitiveFields := AllSensitiveFields;
    for i := 0 to |sensitiveFields|
      invariant masked.(mobile := member.mobile, email := member.email, lineId := member.lineId,
                        address := member.address, emergencyContactPhone := member.emergencyContactPhone) == member
      invariant masked.mobile == if i > 0 then MaskMobile(member.mobile) else member.mobile
      invariant masked.email == if i > 1 then MaskEmail(member.email) else member.email
      invariant masked.lineId == if i > 2 then MaskedView(member).lineId else member.lineId
      invariant masked.address == if i > 3 then MaskedView(member).address else member.address
      invariant masked.emergencyContactPhone ==
        if i > 4 then MaskPhone(member.emergencyContactPhone) else member.emergencyContactPhone
    {
      var field := sensitiveFields[i];
      var maskFn := GetMaskFunction(FieldName(field));
      GetMaskFunctionOfField(field, if field == Mobile then member.mobile else if field == Email then member.email
        else if field == LineId then OrEmpty(member.lineId) else if field == Address then OrEmpty(member.address)
        else member.emergencyContactPhone);
      if field == Mobile {
        masked := masked.(mobile := maskFn(member.mobile));
      } else if field == Email {
        masked := masked.(email := maskFn(member.email));
      } else if field == LineId && Truthy(member.lineId) {
        masked := masked.(lineId := Some(maskFn(member.lineId.value)));
      } else if field == Address && Truthy(member.address) {
        masked := masked.(address := Some(maskFn(member.address.value)));
      } else if field == EmergencyContactPhone {
        masked := masked.(emergencyContactPhone := maskFn(member.emergencyContactPhone));
      }
    }
  }

  /** One entry of the course history shown on the detail page. */
  datatype CourseRecord = CourseRecord(courseId: string, courseName: string, completionDate: string)

  /** MemberDetail, without the age (which depends on the clock). */
  datatype MemberDetail = MemberDetail(
    member: Member,
    zoneName: Option<string>,
    groupName: Option<string>,
    roleNames: seq<string>,
    courseRecords: seq<CourseRecord>,
    canReveal: map<SensitiveField, bool>)

  /** A past course by id; an unknown id stands for its own name. */
  function CourseRecordOf(store: OrgStore, courseId: string): (c: CourseRecord)
    ensures c.courseId == courseId
    ensures FindCourseById(store, courseId).None? ==> c.courseName == courseId
    ensures FindCourseById(store, courseId).Some? ==>
      c.courseName == (if FindCourseById(store, courseId).value.name != "" then FindCourseById(store, courseId).value.name
                       else courseId)
  {
    var course := FindCourseById(store, courseId);
    var name := if course.Some? && course.value.name != "" then course.value.name else courseId;
    CourseRecord(courseId, name, "2024-06-01")
  }

  /** `zones.find(z => z.id === zoneId)?.name`: no zone id, or none that matches, gives no name. */
  function NameOfZone(store: OrgStore, zoneId: Option<string>): (r: Option<string>)
    ensures r.Some? <==> zoneId.Some? && exists z :: z in store.zones && z.id == zoneId.value
    ensures r.Some? ==> r.value == FindZoneById(store, zoneId.value).value.name
  {
    if zoneId.None? then None
    else match FindZoneById(store, zoneId.value)
      case Some(z) => Some(z.name)
      case None => None
  }

  /** `groups.find(g => g.id === groupId)?.name`. */
  function NameOfGroup(store: OrgStore, groupId: Option<string>): (r: Option<string>)
    ensures r.Some? <==> groupId.Some? && exists g :: g in store.groups && g.id == groupId.value
    ensures r.Some? ==> r.value == FindGroupById(store, groupId.value).value.name
  {
    if groupId.None? then None
    else match FindGroupById(store, groupId.value)
      case Some(g) => Some(g.name)
      case None => None
  }

  /** `roles.filter(r => member.roleIds.includes(r.id))`: the member's roles, in the order of the role list. */
  function HeldRoles(roles: seq<Role>, member: Member): (r: seq<Role>)
    ensures forall x :: x in r <==> x in roles && x.id in member.roleIds
    ensures Subsequence(r, roles)
  {
    FilterIsSubsequence(roles, (role: Role) => role.id in member.roleIds);
    Filter(roles, (role: Role) => role.id in member.roleIds)
  }

  /**
   * getDetail: 404 for an unknown member, the scope guard next, then the masked
   * member with the names of its zone, group and roles, its course history, and
   * whether each sensitive field may be revealed.
   */
  method GetDetail(repo: MemberRepository, store: OrgStore, roles: seq<Role>, ctx: UserContext,
                   ability: Casl.Ability, uuid: string)
    returns (r: Result<MemberDetail>)
    ensures FindMember(repo.members, uuid).None? ==> r == Err(404)
    ensures FindMember(repo.members, uuid).Some? ==>
      (r.Ok? <==> CheckScopeAccess(ctx, FindMember(repo.members, uuid).value) == Pass)
    ensures r.Err? ==> r.status == 404 || r.status == 403
    ensures r.Ok? ==> r.value.member == MaskedView(FindMember(repo.members, uuid).value)
    ensures r.Ok? ==> forall f :: f in r.value.canReveal && r.value.canReveal[f] == CanReveal(ability, FieldName(f))
    ensures r.Ok? ==> |r.value.courseRecords| == |FindMember(repo.members, uuid).value.pastCourses|
    ensures r.Ok? ==> forall i :: 0 <= i < |r.value.courseRecords| ==>
      r.value.courseRecords[i] == CourseRecordOf(store, FindMember(repo.members, uuid).value.pastCourses[i])
    ensures r.Ok? ==> r.value.zoneName == NameOfZone(store, FindMember(repo.members, uuid).value.zoneId)
    ensures r.Ok? ==> r.value.groupName == NameOfGroup(store, FindMember(repo.members, uuid).value.groupId)
    ensures r.Ok? ==>
      var held := HeldRoles(roles, FindMember(repo.members, uuid).value);
      |r.value.roleNames| == |held| && forall i :: 0 <= i < |held| ==> r.value.roleNames[i] == held[i].name
  {
    var found := repo.FindById(uuid);
    if found.None? {
      return Err(404);
    }
    var member := found.value;
    var access := CheckScopeAccess(ctx, member);
    if access.Fail? {
      return Err(access.status);
    }
    var memberRoles := HeldRoles(roles, member);
    var courseRecords := seq(|member.pastCourses|, i requires 0 <= i < |member.pastCourses| =>
      CourseRecordOf(store, member.pastCourses[i]));
    var masked := MaskSensitiveFields(member);
    var canReveal := map f: SensitiveField | true :: CanReveal(ability, FieldName(f));
    r := Ok(MemberDetail(
      masked,
      NameOfZone(store, member.zoneId),
      NameOfGroup(store, member.groupId),
      seq(|memberRoles|, i requires 0 <= i < |memberRoles| => memberRoles[i].name),
      courseRecords,
      canReveal));
  }

  // ---------------------------------------------------------------------------
  // Writes
  // ---------------------------------------------------------------------------

  /** Some member other than `exclude` already has that mobile number. */
  predicate MobileTaken(members: seq<Member>, mobile: string, exclude: Option<string>)
  {
    exists i :: 0 <= i < |members| && members[i].mobile == mobile && Some(members[i].uuid) != exclude
  }

  predicate MobilesUnique(members: seq<Member>)
  {
    forall i, j :: 0 <= i < j < |members| ==> members[i].mobile != members[j].mobile
  }

  predicate UuidsUnique(members: seq<Member>)
  {
    forall i, j :: 0 <= i < j < |members| ==> members[i].uuid != members[j].uuid
  }

  /** Every stored member's zone and group pass validateZoneGroupRelationship. */
  predicate ZonesConsistent(store: OrgStore, members: seq<Member>)
  {
    forall i :: 0 <= i < |members| ==> ValidateZoneGroupRelationship(store, members[i].zoneId, members[i].groupId) == Pass
  }

  /**
   * create: 409 when any member already has the mobile number, 400 when the
   * zone and group do not fit together; otherwise the new member is appended.
   * A created member keeps mobile numbers and uuids unique and its own zone and
   * group consistent.
   */
  method Create(repo: MemberRepository, store: OrgStore, payload: CreateMemberPayload, uuid: string, now: string)
    returns (r: Result<Member>)
    modifies repo
    ensures MobileTaken(old(repo.members), payload.mobile, None) ==> r == Err(409)
    ensures (!MobileTaken(old(repo.members), payload.mobile, None) &&
      ValidateZoneGroupRelationship(store, payload.zoneId, payload.groupId).Fail?) ==> r == Err(400)
    ensures r.Err? ==> repo.members == old(repo.members)
    ensures r.Ok? ==> r.value == NewMember(payload, uuid, now) && repo.members == old(repo.members) + [r.value]
    ensures r.Ok? ==> ValidateZoneGroupRelationship(store, r.value.zoneId, r.value.groupId) == Pass
    ensures r.Ok? && MobilesUnique(old(repo.members)) ==> MobilesUnique(repo.members)
    ensures r.Ok? && UuidsUnique(old(repo.members)) && (forall m :: m in old(repo.members) ==> m.uuid != uuid) ==>
      UuidsUnique(repo.members)
    ensures r.Ok? && ZonesConsistent(store, old(repo.members)) ==> ZonesConsistent(store, repo.members)
  {
    var mobileExists := repo.IsMobileExists(payload.mobile, None);
    if mobileExists {
      return Err(409);
    }
    if Truthy(payload.groupId) {
      var valid := ValidateZoneGroupRelationship(store, payload.zoneId, payload.groupId);
      if valid.Fail? {
        return Err(valid.status);
      }
    }
    var created := repo.Create(payload, uuid, now);
    r := Ok(created);
  }

  /** The update would give the member a mobile number another member already has. */
  predicate MobileConflict(members: seq<Member>, e: Member, payload: UpdateMemberPayload, uuid: string)
  {
    Truthy(payload.mobile) && payload.mobile.value != e.mobile && MobileTaken(members, payload.mobile.value, Some(uuid))
  }

  /**
   * update: 404 for an unknown member; 409 when a changed, non-empty mobile
   * number belongs to another member; 400 when the resulting zone and group do
   * not fit together; otherwise the stored member is overlaid with the payload.
   */
  method Update(repo: MemberRepository, store: OrgStore, uuid: string, payload: UpdateMemberPayload, now: string)
    returns (r: Result<Member>)
    modifies repo
    ensures FindMember(old(repo.members), uuid).None? ==> r == Err(404)
    ensures FindMember(old(repo.members), uuid).Some? ==>
      var e := FindMember(old(repo.members), uuid).value;
      var i := FirstIndex(old(repo.members), (m: Member) => m.uuid == uuid);
      if MobileConflict(old(repo.members), e, payload, uuid) then r == Err(409)
      else if ValidateZoneGroupRelationship(store, OrKeep(payload.zoneId, e.zoneId), OrKeep(payload.groupId, e.groupId)).Fail? then r == Err(400)
      else r == Ok(Overlay(e, payload, now)) && repo.members == old(repo.members)[i := r.value]
    ensures r.Err? ==> repo.members == old(repo.members)
    ensures r.Ok? ==> ValidateZoneGroupRelationship(store, r.value.zoneId, r.value.groupId) == Pass
    ensures r.Ok? && MobilesUnique(old(repo.members)) && UuidsUnique(old(repo.members)) && payload.mobile != Some("") ==>
      MobilesUnique(repo.members)
    ensures r.Ok? && UuidsUnique(old(repo.members)) ==> UuidsUnique(repo.members)
    ensures r.Ok? && ZonesConsistent(store, old(repo.members)) ==> ZonesConsistent(store, repo.members)
  {
    var existing := repo.FindById(uuid);
    if existing.None? {
      return Err(404);
    }
    var e := existing.value;
    ghost var i := FirstIndex(repo.members, (m: Member) => m.uuid == uuid);
    var guard := GuardUpdate(repo, store, e, uuid, payload);
    if guard.Fail? {
      return Err(guard.status);
    }
    ghost var before := repo.members;
    var updated := repo.Update(uuid, payload, now);
    match updated
    case Some(u) =>
      r := Ok(u);
      ReplaceKeepsUuidsUnique(before, i, u);
      if payload.mobile != Some("") && UuidsUnique(before) {
        OverlayTakesPayload(e, payload, now);
        ReplaceKeepsMobilesUnique(before, i, u);
      }
  }

  /** The checks update makes before writing: the mobile number first, then the zone and group. */
  method GuardUpdate(repo: MemberRepository, store: OrgStore, e: Member, uuid: string, payload: UpdateMemberPayload)
    returns (o: Outcome)
    ensures MobileConflict(repo.members, e, payload, uuid) ==> o == Fail(409)
    ensures !MobileConflict(repo.members, e, payload, uuid) ==>
      o == ValidateZoneGroupRelationship(store, OrKeep(payload.zoneId, e.zoneId), OrKeep(payload.groupId, e.groupId))
  {
    if Truthy(payload.mobile) && payload.mobile.value != e.mobile {
      var mobileExists := repo.IsMobileExists(payload.mobile.value, Some(uuid));
      if mobileExists {
        return Fail(409);
      }
    }
    var newZoneId := if payload.zoneId.Some? then payload.zoneId else e.zoneId;
    var newGroupId := if payload.groupId.Some? then payload.groupId else e.groupId;
    if Truthy(newGroupId) {
      if !Truthy(newZoneId) {
        return Fail(400);
      }
      o := ValidateZoneGroupRelationship(store, newZoneId, newGroupId);
    } else {
      o := Pass;
    }
  }

  /** Replacing a member by one with the same uuid keeps uuids unique. */
  lemma ReplaceKeepsUuidsUnique(members: seq<Member>, i: nat, u: Member)
    requires i < |members| && u.uuid == members[i].uuid
    ensures UuidsUnique(members) ==> UuidsUnique(members[i := u])
  {
  }

  /**
   * Replacing a member by one with the same uuid and either the same mobile
   * number or one no other member has keeps mobile numbers unique.
   */
  lemma ReplaceKeepsMobilesUnique(members: seq<Member>, i: nat, u: Member)
    requires i < |members| && u.uuid == members[i].uuid && UuidsUnique(members)
    requires u.mobile == members[i].mobile || !MobileTaken(members, u.mobile, Some(u.uuid))
    ensures MobilesUnique(members) ==> MobilesUnique(members[i := u])
  {
  }

  /** softDelete: 404 for an unknown member; otherwise the member is marked Inactive. */
  method SoftDelete(repo: MemberRepository, uuid: string, deletion: Option<Deletion>, now: string)
    returns (o: Outcome)
    modifies repo
    ensures FindMember(old(repo.members), uuid).None? ==> o == Fail(404) && repo.members == old(repo.members)
    ensures FindMember(old(repo.members), uuid).Some? ==>
      var i := FirstIndex(old(repo.members), (m: Member) => m.uuid == uuid);
      o == Pass && repo.members == old(repo.members)[i := SoftDeleted(old(repo.members)[i], deletion, now)] &&
      repo.members[i].status == Inactive
  {
    var member := repo.FindById(uuid);
    if member.None? {
      return Fail(404);
    }
    var success := repo.SoftDelete(uuid, deletion, now);
    o := Pass;
  }
}

/**
 * The in-memory member store. `members` is the module-level array the
 * repository mutates; the seed it is reset to is fixed at construction. New ids
 * and timestamps are supplied by the caller.
 */
module Members {
  import opened Wrappers
  import opened Seqs
  import opened Entities

  // ---------------------------------------------------------------------------
  // The filters of findAll, one predicate per stage
  // ---------------------------------------------------------------------------

  /** A status filter other than "all" keeps members of that status. */
  predicate StatusMatches(f: MemberFilters, m: Member)
  {
    f.status.Some? && f.status.value.OnlyStatus? ==> m.status == f.status.value.status
  }

  predicate BaptismMatches(f: MemberFilters, m: Member)
  {
    match f.baptismStatus
    case Some(Baptized) => m.baptismStatus
    case Some(NotBaptized) => !m.baptismStatus
    case _ => true
  }

  predicate ZoneMatches(f: MemberFilters, m: Member)
  {
    Truthy(f.zoneId) ==> m.zoneId == f.zoneId
  }

  predicate GroupMatches(f: MemberFilters, m: Member)
  {
    Truthy(f.groupId) ==> m.groupId == f.groupId
  }

  /** `unassigned` keeps only members without a group. */
  predicate UnassignedMatches(f: MemberFilters, m: Member)
  {
    f.unassigned == Some(true) ==> !Truthy(m.groupId)
  }

  /**
   * A search by mobile is an exact match; a search by full name (the default) is
   * a case-insensitive substring match.
   */
  predicate SearchMatches(f: MemberFilters, m: Member)
  {
    Truthy(f.search) ==>
      if f.searchField == Some(ByMobile) then m.mobile == f.search.value
      else Contains(Lower(m.fullName), Lower(f.search.value))
  }

  /** The first `n` stages of findAll, in the order the source applies them. */
  predicate Stages(f: MemberFilters, n: nat, m: Member)
  {
    (n > 0 ==> StatusMatches(f, m)) &&
    (n > 1 ==> BaptismMatches(f, m)) &&
    (n > 2 ==> ZoneMatches(f, m)) &&
    (n > 3 ==> GroupMatches(f, m)) &&
    (n > 4 ==> UnassignedMatches(f, m)) &&
    (n > 5 ==> SearchMatches(f, m))
  }

  /** Whether a member passes every active filter; without filters every member does. */
  predicate MatchesFilters(filters: Option<MemberFilters>, m: Member)
  {
    filters.Some? ==> Stages(filters.value, 6, m)
  }

  // ---------------------------------------------------------------------------
  // Creating and updating records
  // ---------------------------------------------------------------------------

  /** The member create builds: payload fields, then the defaults for the optional lists and status. */
  function NewMember(p: CreateMemberPayload, uuid: string, now: string): (m: Member)
    ensures m.uuid == uuid && m.createdAt == now && m.updatedAt == now
    ensures m.status == (if p.status.Some? then p.status.value else Active)
    ensures m.roleIds == (if p.roleIds.Some? then p.roleIds.value else ["general"])
    ensures m.deletionReason.None? && m.deletionNotes.None?
  {
    Member(
      uuid, now, now, "system", "system",
      p.fullName, p.gender, p.dob, p.email, p.mobile, p.address, p.lineId,
      p.emergencyContactName, p.emergencyContactRelationship, p.emergencyContactPhone,
      p.baptismStatus, p.baptismDate,
      if p.status.Some? then p.status.value else Active,
      p.zoneId, p.groupId,
      if p.pastCourses.Some? then p.pastCourses.value else [],
      if p.roleIds.Some? then p.roleIds.value else ["general"],
      if p.functionalGroupIds.Some? then p.functionalGroupIds.value else [],
      p.avatar, None, None)
  }

  /** `{ ...existing, ...payload, updatedAt, updatedBy: "system" }`: every present payload field wins. */
  function Overlay(e: Member, p: UpdateMemberPayload, now: string): (m: Member)
    ensures m.uuid == e.uuid && m.createdAt == e.createdAt && m.createdBy == e.createdBy
    ensures m.updatedAt == now && m.updatedBy == "system"
  {
    Member(
      e.uuid, e.createdAt, now, e.createdBy, "system",
      Or(p.fullName, e.fullName), Or(p.gender, e.gender), Or(p.dob, e.dob),
      Or(p.email, e.email), Or(p.mobile, e.mobile),
      OrKeep(p.address, e.address), OrKeep(p.lineId, e.lineId),
      Or(p.emergencyContactName, e.emergencyContactName),
      Or(p.emergencyContactRelationship, e.emergencyContactRelationship),
      Or(p.emergencyContactPhone, e.emergencyContactPhone),
      Or(p.baptismStatus, e.baptismStatus), OrKeep(p.baptismDate, e.baptismDate),
      Or(p.status, e.status), OrKeep(p.zoneId, e.zoneId), OrKeep(p.groupId, e.groupId),
      Or(p.pastCourses, e.pastCourses), Or(p.roleIds, e.roleIds),
      Or(p.functionalGroupIds, e.functionalGroupIds), OrKeep(p.avatar, e.avatar),
      OrKeep(p.deletionReason, e.deletionReason), OrKeep(p.deletionNotes, e.deletionNotes))
  }

  /** The deletion metadata softDelete may receive. */
  datatype Deletion = Deletion(reason: DeletionReason, notes: Option<string>)

  /** softDelete's record: Inactive, with the reason and any non-empty notes recorded. */
  function SoftDeleted(e: Member, deletion: Option<Deletion>, now: string): (m: Member)
    ensures m.status == Inactive && m.updatedAt == now
    ensures m.deletionReason == (if deletion.Some? then Some(deletion.value.reason) else e.deletionReason)
    ensures m.deletionNotes == (if deletion.Some? && Truthy(deletion.value.notes) then deletion.value.notes else e.deletionNotes)
    ensures m.(status := e.status, updatedAt := e.updatedAt, deletionReason := e.deletionReason,
               deletionNotes := e.deletionNotes) == e
  {
    var m := e.(status := Inactive, updatedAt := now);
    var m := if deletion.Some? then m.(deletionReason := Some(deletion.value.reason)) else m;
    if deletion.Some? && Truthy(deletion.value.notes) then m.(deletionNotes := deletion.value.notes) else m
  }

  // ---------------------------------------------------------------------------
  // The repository
  // ---------------------------------------------------------------------------

  class MemberRepository {
    var members: seq<Member>
    const seed: seq<Member>

    constructor (seed: seq<Member>)
      ensures this.seed == seed && members == seed
    {
      this.seed := seed;
      members := seed;
    }

    /**
     * findAll: the stored members, in store order, that pass every active filter.
     * Each stage narrows the previous result, so the chain is one filter by the
     * conjunction of the stages.
     */
    method FindAll(filters: Option<MemberFilters>) returns (results: seq<Member>)
      ensures results == Filter(members, (m: Member) => MatchesFilters(filters, m))
    {
      results := members;
      if filters.None? {
        FilterAll(members, (m: Member) => MatchesFilters(filters, m));
        return;
      }
      var f := filters.value;
      FilterAll(members, (m: Member) => Stages(f, 0, m));
      results := NarrowByStatus(results, f);
      FilterFilter(members, (m: Member) => Stages(f, 0, m), (m: Member) => StatusMatches(f, m), (m: Member) => Stages(f, 1, m));
      results := NarrowByBaptism(results, f);
      FilterFilter(members, (m: Member) => Stages(f, 1, m), (m: Member) => BaptismMatches(f, m), (m: Member) => Stages(f, 2, m));
      results := NarrowByZone(results, f);
      FilterFilter(members, (m: Member) => Stages(f, 2, m), (m: Member) => ZoneMatches(f, m), (m: Member) => Stages(f, 3, m));
      results := NarrowByGroup(results, f);
      FilterFilter(members, (m: Member) => Stages(f, 3, m), (m: Member) => GroupMatches(f, m), (m: Member) => Stages(f, 4, m));
      results := NarrowToUnassigned(results, f);
      FilterFilter(members, (m: Member) => Stages(f, 4, m), (m: Member) => UnassignedMatches(f, m), (m: Member) => Stages(f, 5, m));
      results := NarrowBySearch(results, f);
      FilterFilter(members, (m: Member) => Stages(f, 5, m), (m: Member) => SearchMatches(f, m), (m: Member) => Stages(f, 6, m));
      FilterSame(members, (m: Member) => Stages(f, 6, m), (m: Member) => MatchesFilters(filters, m));
    }

    /** findByZoneId: the members of that zone, in store order. */
    method FindByZoneId(zoneId: string) returns (results: seq<Member>)
      ensures results == Filter(members, (m: Member) => m.zoneId == Some(zoneId))
      ensures forall m :: m in results <==> m in members && m.zoneId == Some(zoneId)
    {
      results := Filter(members, (m: Member) => m.zoneId == Some(zoneId));
    }

    /** findByGroupIds: members whose group, or one of whose functional groups, is listed. */
    method FindByGroupIds(groupIds: seq<string>) returns (results: seq<Member>)
      ensures results == Filter(members, (m: Member) => InGroups(m, groupIds))
      ensures forall m :: m in results <==> (m in members &&
        ((Truthy(m.groupId) && m.groupId.value in groupIds) ||
         (exists g :: g in m.functionalGroupIds && g in groupIds)))
    {
      results := Filter(members, (m: Member) => InGroups(m, groupIds));
    }

    /** findById: the first member with that uuid. */
    method FindById(uuid: string) returns (r: Option<Member>)
      ensures r.Some? <==> exists i :: 0 <= i < |members| && members[i].uuid == uuid
      ensures r.Some? ==> r.value == members[FirstIndex(members, (m: Member) => m.uuid == uuid)]
    {
      r := Find(members, (m: Member) => m.uuid == uuid);
    }

    /** isMobileExists: some member other than `excludeUuid` has that mobile number. */
    method IsMobileExists(mobile: string, excludeUuid: Option<string>) returns (b: bool)
      ensures b <==> exists i :: 0 <= i < |members| && members[i].mobile == mobile && Some(members[i].uuid) != excludeUuid
    {
      b := Find(members, (m: Member) => m.mobile == mobile && Some(m.uuid) != excludeUuid).Some?;
    }

    /** isEmailExists: some member other than `excludeUuid` has that email address. */
    method IsEmailExists(email: string, excludeUuid: Option<string>) returns (b: bool)
      ensures b <==> exists i :: 0 <= i < |members| && members[i].email == email && Some(members[i].uuid) != excludeUuid
    {
      b := Find(members, (m: Member) => m.email == email && Some(m.uuid) != excludeUuid).Some?;
    }

    /** create: appends the new member built from the payload under a fresh uuid. */
    method Create(payload: CreateMemberPayload, uuid: string, now: string) returns (m: Member)
      modifies this
      ensures m == NewMember(payload, uuid, now)
      ensures members == old(members) + [m]
    {
      m := NewMember(payload, uuid, now);
      members := members + [m];
    }

    /** update: replaces the first member with that uuid by its overlay with the payload. */
    method Update(uuid: string, payload: UpdateMemberPayload, now: string) returns (r: Option<Member>)
      modifies this
      ensures var i := FirstIndex(old(members), (m: Member) => m.uuid == uuid);
        if i == |old(members)| then r.None? && members == old(members)
        else r == Some(Overlay(old(members)[i], payload, now)) && members == old(members)[i := r.value]
    {
      var i := FirstIndex(members, (m: Member) => m.uuid == uuid);
      if i == |members| {
        return None;
      }
      var updated := Overlay(members[i], payload, now);
      members := members[i := updated];
      r := Some(updated);
    }

    /** softDelete: marks the first member with that uuid Inactive; false for an unknown uuid. */
    method SoftDelete(uuid: string, deletion: Option<Deletion>, now: string) returns (ok: bool)
      modifies this
      ensures var i := FirstIndex(old(members), (m: Member) => m.uuid == uuid);
        ok == (i < |old(members)|) &&
        members == if ok then old(members)[i := SoftDeleted(old(members)[i], deletion, now)] else old(members)
    {
      var i := FirstIndex(members, (m: Member) => m.uuid == uuid);
      if i == |members| {
        return false;
      }
      members := members[i := SoftDeleted(members[i], deletion, now)];
      ok := true;
    }

    /** countByRoleId: how many members hold the role. */
    method CountByRoleId(roleId: string) returns (n: nat)
      ensures n == Count(members, (m: Member) => roleId in m.roleIds)
      ensures n > 0 <==> exists i :: 0 <= i < |members| && roleId in members[i].roleIds
    {
      var held := Filter(members, (m: Member) => roleId in m.roleIds);
      CountIsFilterLength(members, (m: Member) => roleId in m.roleIds);
      n := |held|;
    }

    /** reset: back to the seed. */
    method Reset()
      modifies this
      ensures members == seed
    {
      members := seed;
    }
  }

  // ---------------------------------------------------------------------------
  // The stages of findAll
  // ---------------------------------------------------------------------------

  /** Status filter: skipped when absent or "all". */
  method NarrowByStatus(results: seq<Member>, f: MemberFilters) returns (r: seq<Member>)
    ensures r == Filter(results, (m: Member) => StatusMatches(f, m))
  {
    r := results;
    if f.status.Some? && f.status.value.OnlyStatus? {
      var status := f.status.value.status;
      r := Filter(results, (m: Member) => m.status == status);
      FilterSame(results, (m: Member) => m.status == status, (m: Member) => StatusMatches(f, m));
    } else {
      FilterAll(results, (m: Member) => StatusMatches(f, m));
    }
  }

  /** Baptism status filter: skipped when absent or "all". */
  method NarrowByBaptism(results: seq<Member>, f: MemberFilters) returns (r: seq<Member>)
    ensures r == Filter(results, (m: Member) => BaptismMatches(f, m))
  {
    r := results;
    if f.baptismStatus == Some(Baptized) {
      r := Filter(results, (m: Member) => m.baptismStatus == true);
      FilterSame(results, (m: Member) => m.baptismStatus == true, (m: Member) => BaptismMatches(f, m));
    } else if f.baptismStatus == Some(NotBaptized) {
      r := Filter(results, (m: Member) => m.baptismStatus == false);
      FilterSame(results, (m: Member) => m.baptismStatus == false, (m: Member) => BaptismMatches(f, m));
    } else {
      FilterAll(results, (m: Member) => BaptismMatches(f, m));
    }
  }

  /** Zone filter: skipped for an absent or empty zone id. */
  method NarrowByZone(results: seq<Member>, f: MemberFilters) returns (r: seq<Member>)
    ensures r == Filter(results, (m: Member) => ZoneMatches(f, m))
  {
    r := results;
    if Truthy(f.zoneId) {
      r := Filter(results, (m: Member) => m.zoneId == f.zoneId);
      FilterSame(results, (m: Member) => m.zoneId == f.zoneId, (m: Member) => ZoneMatches(f, m));
    } else {
      FilterAll(results, (m: Member) => ZoneMatches(f, m));
    }
  }

  /** Group filter: skipped for an absent or empty group id. */
  method NarrowByGroup(results: seq<Member>, f: MemberFilters) returns (r: seq<Member>)
    ensures r == Filter(results, (m: Member) => GroupMatches(f, m))
  {
    r := results;
    if Truthy(f.groupId) {
      r := Filter(results, (m: Member) => m.groupId == f.groupId);
      FilterSame(results, (m: Member) => m.groupId == f.groupId, (m: Member) => GroupMatches(f, m));
    } else {
      FilterAll(results, (m: Member) => GroupMatches(f, m));
    }
  }

  /** Unassigned filter: members without a group. */
  method NarrowToUnassigned(results: seq<Member>, f: MemberFilters) returns (r: seq<Member>)
    ensures r == Filter(results, (m: Member) => UnassignedMatches(f, m))
  {
    r := results;
    if f.unassigned == Some(true) {
      r := Filter(results, (m: Member) => !Truthy(m.groupId));
      FilterSame(results, (m: Member) => !Truthy(m.groupId), (m: Member) => UnassignedMatches(f, m));
    } else {
      FilterAll(results, (m: Member) => UnassignedMatches(f, m));
    }
  }

  /** Search filter: by full name unless the search field is the mobile number. */
  method NarrowBySearch(results: seq<Member>, f: MemberFilters) returns (r: seq<Member>)
    ensures r == Filter(results, (m: Member) => SearchMatches(f, m))
  {
    r := results;
    if Truthy(f.search) {
      var term := Lower(f.search.value);
      var field := if f.searchField.Some? then f.searchField.value else ByFullName;
      if field == ByFullName {
        r := Filter(results, (m: Member) => Contains(Lower(m.fullName), term));
        FilterSame(results, (m: Member) => Contains(Lower(m.fullName), term), (m: Member) => SearchMatches(f, m));
      } else {
        r := Filter(results, (m: Member) => m.mobile == f.search.value);
        FilterSame(results, (m: Member) => m.mobile == f.search.value, (m: Member) => SearchMatches(f, m));
      }
    } else {
      FilterAll(results, (m: Member) => SearchMatches(f, m));
    }
  }

  predicate InGroups(m: Member, groupIds: seq<string>)
  {
    (Truthy(m.groupId) && m.groupId.value in groupIds) ||
    (exists g :: g in m.functionalGroupIds && g in groupIds)
  }

  // ---------------------------------------------------------------------------
  // Properties of the filters and records
  // ---------------------------------------------------------------------------

  /** The status "all" applies no status filter, exactly like an absent status. */
  lemma AllStatusesFiltersNothing(members: seq<Member>, f: MemberFilters)
    ensures Filter(members, (m: Member) => MatchesFilters(Some(f.(status := Some(AllStatuses))), m)) ==
            Filter(members, (m: Member) => MatchesFilters(Some(f.(status := None)), m))
  {
    FilterSame(members, (m: Member) => MatchesFilters(Some(f.(status := Some(AllStatuses))), m),
                        (m: Member) => MatchesFilters(Some(f.(status := None)), m));
  }

  /** An update with an empty payload changes only the update stamp. */
  lemma EmptyUpdateKeepsFields(e: Member, now: string)
    ensures Overlay(e, UpdateMemberPayload(None, None, None, None, None, None, None, None, None, None,
                                           None, None, None, None, None, None, None, None, None, None, None), now)
            == e.(updatedAt := now, updatedBy := "system")
  {
  }

  /** `{ ...existing, ...payload }`: every field present in the payload wins over the stored one. */
  lemma OverlayTakesPayload(e: Member, p: UpdateMemberPayload, now: string)
    ensures p.fullName.Some? ==> Overlay(e, p, now).fullName == p.fullName.value
    ensures p.gender.Some? ==> Overlay(e, p, now).gender == p.gender.value
    ensures p.dob.Some? ==> Overlay(e, p, now).dob == p.dob.value
    ensures p.email.Some? ==> Overlay(e, p, now).email == p.email.value
    ensures p.mobile.Some? ==> Overlay(e, p, now).mobile == p.mobile.value
    ensures p.address.Some? ==> Overlay(e, p, now).address == p.address
    ensures p.lineId.Some? ==> Overlay(e, p, now).lineId == p.lineId
    ensures p.emergencyContactName.Some? ==> Overlay(e, p, now).emergencyContactName == p.emergencyContactName.value
    ensures p.emergencyContactRelationship.Some? ==> Overlay(e, p, now).emergencyContactRelationship == p.emergencyContactRelationship.value
    ensures p.emergencyContactPhone.Some? ==> Overlay(e, p, now).emergencyContactPhone == p.emergencyContactPhone.value
    ensures p.baptismStatus.Some? ==> Overlay(e, p, now).baptismStatus == p.baptismStatus.value
    ensures p.baptismDate.Some? ==> Overlay(e, p, now).baptismDate == p.baptismDate
    ensures p.status.Some? ==> Overlay(e, p, now).status == p.status.value
    ensures p.zoneId.Some? ==> Overlay(e, p, now).zoneId == p.zoneId
    ensures p.groupId.Some? ==> Overlay(e, p, now).groupId == p.groupId
    ensures p.pastCourses.Some? ==> Overlay(e, p, now).pastCourses == p.pastCourses.value
    ensures p.roleIds.Some? ==> Overlay(e, p, now).roleIds == p.roleIds.value
    ensures p.functionalGroupIds.Some? ==> Overlay(e, p, now).functionalGroupIds == p.functionalGroupIds.value
    ensures p.avatar.Some? ==> Overlay(e, p, now).avatar == p.avatar
    ensures p.deletionReason.Some? ==> Overlay(e, p, now).deletionReason == p.deletionReason
    ensures p.deletionNotes.Some? ==> Overlay(e, p, now).deletionNotes == p.deletionNotes
  {
  }

  /** A field absent from the payload keeps its stored value. */
  lemma OverlayKeepsAbsent(e: Member, p: UpdateMemberPayload, now: string)
    ensures p.fullName.None? ==> Overlay(e, p, now).fullName == e.fullName
    ensures p.gender.None? ==> Overlay(e, p, now).gender == e.gender
    ensures p.dob.None? ==> Overlay(e, p, now).dob == e.dob
    ensures p.email.None? ==> Overlay(e, p, now).email == e.email
    ensures p.mobile.None? ==> Overlay(e, p, now).mobile == e.mobile
    ensures p.address.None? ==> Overlay(e, p, now).address == e.address
    ensures p.lineId.None? ==> Overlay(e, p, now).lineId == e.lineId
    ensures p.emergencyContactName.None? ==> Overlay(e, p, now).emergencyContactName == e.emergencyContactName
    ensures p.emergencyContactRelationship.None? ==> Overlay(e, p, now).emergencyContactRelationship == e.emergencyContactRelationship
    ensures p.emergencyContactPhone.None? ==> Overlay(e, p, now).emergencyContactPhone == e.emergencyContactPhone
    ensures p.baptismStatus.None? ==> Overlay(e, p, now).baptismStatus == e.baptismStatus
    ensures p.baptismDate.None? ==> Overlay(e, p, now).baptismDate == e.baptismDate
    ensures p.status.None? ==> Overlay(e, p, now).status == e.status
    ensures p.zoneId.None? ==> Overlay(e, p, now).zoneId == e.zoneId
    ensures p.groupId.None? ==> Overlay(e, p, now).groupId == e.groupId
    ensures p.pastCourses.None? ==> Overlay(e, p, now).pastCourses == e.pastCourses
    ensures p.roleIds.None? ==> Overlay(e, p, now).roleIds == e.roleIds
    ensures p.functionalGroupIds.None? ==> Overlay(e, p, now).functionalGroupIds == e.functionalGroupIds
    ensures p.avatar.None? ==> Overlay(e, p, now).avatar == e.avatar
    ensures p.deletionReason.None? ==> Overlay(e, p, now).deletionReason == e.deletionReason
    ensures p.deletionNotes.None? ==> Overlay(e, p, now).deletionNotes == e.deletionNotes
  {
  }
}

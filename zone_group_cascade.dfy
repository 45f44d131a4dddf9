/**
 * The zone and group pickers of the member form (useZoneGroupCascade): the
 * zones and groups loaded from the organisation structure, the groups offered
 * for the selected zone, and the edit-mode warning for a member whose group
 * does not lie in its zone.
 *
 * The fetch of the structure endpoint is a parameter: the structure it returns,
 * or its error status.
 */
module ZoneGroupCascade {
  import opened Wrappers
  import opened Seqs
  import opened Entities
  import opened Organization
  import MemberService

  /** The groups nested under the zones, zone by zone and in each zone's order. */
  function FlattenGroups(zones: seq<ZoneWithGroups>): (r: seq<Group>)
    ensures forall g :: g in r <==> exists i :: 0 <= i < |zones| && g in zones[i].groups
  {
    if zones == [] then []
    else
      var prefix := zones[..|zones| - 1];
      var r := FlattenGroups(prefix) + zones[|zones| - 1].groups;
      assert forall i :: 0 <= i < |prefix| ==> zones[i] == prefix[i];
      r
  }

  /** Flattening distributes over concatenation, so each zone's groups come out as one block, zone by zone. */
  lemma {:induction false} FlattenGroupsAppend(a: seq<ZoneWithGroups>, b: seq<ZoneWithGroups>)
    ensures FlattenGroups(a + b) == FlattenGroups(a) + FlattenGroups(b)
    decreases |b|
  {
    if b == [] {
      assert a + b == a;
    } else {
      var front := b[..|b| - 1];
      assert (a + b)[..|a + b| - 1] == a + front;
      assert (a + b)[|a + b| - 1] == b[|b| - 1];
      FlattenGroupsAppend(a, front);
    }
  }

  /** A single zone flattens to its own groups, in its own order. */
  lemma FlattenOneZone(z: ZoneWithGroups)
    ensures FlattenGroups([z]) == z.groups
  {
    assert [z][..0] == [];
  }

  /** The groups offered for a zone: none without a zone, else the Pastoral groups that name it. */
  function GroupsOfZone(allGroups: seq<Group>, zoneId: Option<string>): (r: seq<Group>)
    ensures !Truthy(zoneId) ==> r == []
    ensures Truthy(zoneId) ==> forall g :: g in r <==> g in allGroups && g.groupType == Pastoral && g.zoneId == zoneId
    ensures |r| <= |allGroups|
    ensures Subsequence(r, allGroups)
  {
    if !Truthy(zoneId) then []
    else
      FilterIsSubsequence(allGroups, (g: Group) => g.groupType == Pastoral && g.zoneId == zoneId);
      Filter(allGroups, (g: Group) => g.groupType == Pastoral && g.zoneId == zoneId)
  }

  /** The filter picking the groups with id `id`. */
  function HasId(id: string): Group -> bool
  {
    (g: Group) => g.id == id
  }

  /**
   * isZoneGroupMismatch over a list of groups: no warning unless both ids are
   * given; an unknown group is a mismatch, a Functional group never is, and a
   * Pastoral group is one when it names another zone.
   */
  function Mismatch(allGroups: seq<Group>, zoneId: Option<string>, groupId: Option<string>): (b: bool)
    ensures !Truthy(zoneId) || !Truthy(groupId) ==> !b
    ensures Truthy(zoneId) && Truthy(groupId) && (forall g :: g in allGroups ==> g.id != groupId.value) ==> b
    ensures b ==> Truthy(zoneId) && Truthy(groupId)
    ensures Truthy(zoneId) && Truthy(groupId) && Find(allGroups, HasId(groupId.value)).Some? ==>
      b == (Find(allGroups, HasId(groupId.value)).value.groupType == Pastoral &&
            Find(allGroups, HasId(groupId.value)).value.zoneId != zoneId)
  {
    if !Truthy(zoneId) || !Truthy(groupId) then false
    else
      match Find(allGroups, HasId(groupId.value))
      case None => true
      case Some(group) =>
        if group.groupType == Functional then false
        else
          assert group.groupType.Pastoral?;
          group.zoneId != zoneId
  }

  // ---------------------------------------------------------------------------
  // The composable's state
  // ---------------------------------------------------------------------------

  class CascadeState {
    var zones: seq<Zone>
    var allGroups: seq<Group>
    var filteredGroups: seq<Group>
    var isLoading: bool

    constructor()
      ensures zones == [] && allGroups == [] && filteredGroups == [] && !isLoading
    {
      zones := [];
      allGroups := [];
      filteredGroups := [];
      isLoading := false;
    }

    /**
     * fetchOrganizationStructure: the zones as listed, and as the group list the
     * groups nested under the zones, flattened in order. A failed fetch changes
     * neither list and is passed on; the loading flag is cleared either way.
     */
    method FetchOrganizationStructure(response: Result<OrganizationStructure>) returns (o: Outcome)
      modifies this
      ensures !isLoading && filteredGroups == old(filteredGroups)
      ensures response.Err? ==> o == Fail(response.status) && zones == old(zones) && allGroups == old(allGroups)
      ensures response.Ok? ==> o == Pass && allGroups == FlattenGroups(response.value.zones)
      ensures response.Ok? ==> (|zones| == |response.value.zones| &&
        forall i :: 0 <= i < |zones| ==> zones[i] == response.value.zones[i].zone)
    {
      isLoading := true;
      if response.Err? {
        isLoading := false;
        return Fail(response.status);
      }
      var structure := response.value;
      zones := seq(|structure.zones|, i requires 0 <= i < |structure.zones| => structure.zones[i].zone);
      allGroups := Flatten(structure.zones);
      isLoading := false;
      o := Pass;
    }

    /** filterGroupsByZone: the offered groups become those of the zone. */
    method FilterGroupsByZone(zoneId: Option<string>)
      modifies this
      ensures filteredGroups == GroupsOfZone(allGroups, zoneId)
      ensures zones == old(zones) && allGroups == old(allGroups) && isLoading == old(isLoading)
    {
      if !Truthy(zoneId) {
        filteredGroups := [];
        return;
      }
      filteredGroups := Filter(allGroups, (g: Group) => g.groupType == Pastoral && g.zoneId == zoneId);
    }

    /** The watcher of watchZoneChange: a new zone clears the selected group and refilters the groups. */
    method ZoneChanged(newZoneId: Option<string>) returns (groupId: Option<string>)
      modifies this
      ensures groupId.None?
      ensures filteredGroups == GroupsOfZone(allGroups, newZoneId)
      ensures zones == old(zones) && allGroups == old(allGroups) && isLoading == old(isLoading)
    {
      groupId := None;
      FilterGroupsByZone(newZoneId);
    }

    /** isZoneGroupMismatch over the loaded groups. */
    function IsZoneGroupMismatch(zoneId: Option<string>, groupId: Option<string>): (b: bool)
      reads this
      ensures !Truthy(zoneId) || !Truthy(groupId) ==> !b
      ensures Truthy(zoneId) && Truthy(groupId) && (forall g :: g in allGroups ==> g.id != groupId.value) ==> b
      ensures b == Mismatch(allGroups, zoneId, groupId)
    {
      Mismatch(allGroups, zoneId, groupId)
    }
  }

  /** The flattening loop of fetchOrganizationStructure: each zone's groups pushed in turn. */
  method Flatten(zones: seq<ZoneWithGroups>) returns (pastoralGroups: seq<Group>)
    ensures pastoralGroups == FlattenGroups(zones)
  {
    pastoralGroups := [];
    for i := 0 to |zones|
      invariant pastoralGroups == FlattenGroups(zones[..i])
    {
      var groups := zones[i].groups;
      for j := 0 to |groups|
        invariant pastoralGroups == FlattenGroups(zones[..i]) + groups[..j]
      {
        assert groups[..j + 1] == groups[..j] + [groups[j]];
        pastoralGroups := pastoralGroups + [groups[j]];
      }
      assert zones[..i + 1][..i] == zones[..i];
      assert groups[..|groups|] == groups;
    }
    assert zones[..|zones|] == zones;
  }

  // ---------------------------------------------------------------------------
  // Against the store and the server's check
  // ---------------------------------------------------------------------------

  /** No two groups of the store share an id. */
  predicate UniqueGroupIds(store: OrgStore)
  {
    forall i, j :: 0 <= i < |store.groups| && 0 <= j < |store.groups| && store.groups[i].id == store.groups[j].id ==> i == j
  }

  /** The groups the client loads from the store's structure: the Pastoral groups of existing zones. */
  lemma LoadedGroups(store: OrgStore, g: Group)
    ensures g in FlattenGroups(GetStructure(store).zones) <==>
      g in store.groups && g.groupType == Pastoral && g.zoneId.Some? && FindZoneById(store, g.zoneId.value).Some?
  {
    var s := GetStructure(store);
    if g in store.groups && g.groupType == Pastoral && g.zoneId.Some? && FindZoneById(store, g.zoneId.value).Some? {
      var z := FindZoneById(store, g.zoneId.value).value;
      var i :| 0 <= i < |store.zones| && store.zones[i] == z;
      assert g in s.zones[i].groups;
    }
  }

  /**
   * Once loaded from the store, the groups offered for an existing zone are
   * exactly the store's Pastoral groups of that zone.
   */
  lemma OfferedGroupsAreTheZonesPastoralGroups(store: OrgStore, zoneId: string)
    requires zoneId != "" && FindZoneById(store, zoneId).Some?
    ensures forall g :: g in GroupsOfZone(FlattenGroups(GetStructure(store).zones), Some(zoneId)) <==>
      g in FindGroupsByZoneId(store, zoneId) && g.groupType == Pastoral
  {
    forall g ensures g in GroupsOfZone(FlattenGroups(GetStructure(store).zones), Some(zoneId)) <==>
      g in FindGroupsByZoneId(store, zoneId) && g.groupType == Pastoral
    {
      LoadedGroups(store, g);
    }
  }

  /** With unique ids, a group found by id in a list of store groups is the store's group of that id. */
  lemma FoundIsStoreGroup(store: OrgStore, groups: seq<Group>, groupId: string)
    requires UniqueGroupIds(store)
    requires forall g :: g in groups ==> g in store.groups
    requires Find(groups, (g: Group) => g.id == groupId).Some?
    ensures FindGroupById(store, groupId) == Find(groups, (g: Group) => g.id == groupId)
  {
    var found := Find(groups, (g: Group) => g.id == groupId).value;
    var stored := FindGroupById(store, groupId).value;
    var i :| 0 <= i < |store.groups| && store.groups[i] == found;
    var j :| 0 <= j < |store.groups| && store.groups[j] == stored;
  }

  /**
   * The groups the corrected loader keeps: the Pastoral groups nested under the
   * zones followed by the Functional groups listed apart.
   */
  function FlattenAllGroups(structure: OrganizationStructure): (r: seq<Group>)
    ensures forall g :: g in r <==> g in FlattenGroups(structure.zones) || g in structure.functionalGroups
  {
    FlattenGroups(structure.zones) + structure.functionalGroups
  }

  /**
   * As written, the loader drops the Functional groups, so the warning fires for
   * a Functional group even though the server accepts it in any zone: the
   * Functional branch of isZoneGroupMismatch is never reached after a load.
   */
  lemma MismatchFlagsFunctionalGroup(store: OrgStore, zoneId: string, groupId: string)
    requires zoneId != "" && groupId != "" && UniqueGroupIds(store)
    requires FindGroupById(store, groupId).Some? && FindGroupById(store, groupId).value.groupType == Functional
    ensures Mismatch(FlattenGroups(GetStructure(store).zones), Some(zoneId), Some(groupId))
    ensures MemberService.ValidateZoneGroupRelationship(store, Some(zoneId), Some(groupId)) == Pass
  {
    var loaded := FlattenGroups(GetStructure(store).zones);
    var fg := FindGroupById(store, groupId).value;
    forall g | g in loaded ensures g.id != groupId {
      LoadedGroups(store, g);
    }
  }

  /**
   * With the Functional groups loaded as well, the warning agrees with the
   * server's check for any existing zone: no warning exactly when the server
   * would accept the pair.
   */
  lemma CorrectedMismatchAgreesWithServer(store: OrgStore, zoneId: string, groupId: string)
    requires zoneId != "" && groupId != "" && UniqueGroupIds(store)
    requires FindZoneById(store, zoneId).Some?
    ensures !Mismatch(FlattenAllGroups(GetStructure(store)), Some(zoneId), Some(groupId)) <==>
      MemberService.ValidateZoneGroupRelationship(store, Some(zoneId), Some(groupId)) == Pass
  {
    var s := GetStructure(store);
    var loaded := FlattenAllGroups(s);
    forall g | g in loaded ensures g in store.groups {
      LoadedGroups(store, g);
    }
    var p := (g: Group) => g.id == groupId;
    match Find(loaded, p)
    case Some(_) =>
      FoundIsStoreGroup(store, loaded, groupId);
    case None =>
      if FindGroupById(store, groupId).Some? {
        var g := FindGroupById(store, groupId).value;
        LoadedGroups(store, g);
      }
  }

  /** As written, the warning agrees with the server for every group that is not Functional. */
  lemma MismatchAgreesWithServerOffFunctional(store: OrgStore, zoneId: string, groupId: string)
    requires zoneId != "" && groupId != "" && UniqueGroupIds(store)
    requires FindZoneById(store, zoneId).Some?
    requires FindGroupById(store, groupId).Some? ==> FindGroupById(store, groupId).value.groupType == Pastoral
    ensures !Mismatch(FlattenGroups(GetStructure(store).zones), Some(zoneId), Some(groupId)) <==>
      MemberService.ValidateZoneGroupRelationship(store, Some(zoneId), Some(groupId)) == Pass
  {
    var loaded := FlattenGroups(GetStructure(store).zones);
    forall g | g in loaded ensures g in store.groups {
      LoadedGroups(store, g);
    }
    var p := (g: Group) => g.id == groupId;
    match Find(loaded, p)
    case Some(_) =>
      FoundIsStoreGroup(store, loaded, groupId);
    case None =>
      if FindGroupById(store, groupId).Some? {
        var g := FindGroupById(store, groupId).value;
        LoadedGroups(store, g);
      }
  }
}

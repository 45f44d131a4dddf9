/**
 * The organisation store: zones, groups and courses. The repository only reads
 * constant tables, so the store is a value and every finder is a function of it.
 */
module Organization {
  import opened Wrappers
  import opened Seqs
  import opened Entities

  datatype OrgStore = OrgStore(zones: seq<Zone>, groups: seq<Group>, courses: seq<Course>)

  /** findZoneById: the first zone with that id. */
  function FindZoneById(store: OrgStore, id: string): (r: Option<Zone>)
    ensures r.Some? <==> exists z :: z in store.zones && z.id == id
    ensures r.Some? ==> r.value in store.zones && r.value.id == id
    ensures r.Some? ==> r.value == store.zones[FirstIndex(store.zones, (z: Zone) => z.id == id)]
  {
    Find(store.zones, (z: Zone) => z.id == id)
  }

  /** findGroupById: the first group with that id. */
  function FindGroupById(store: OrgStore, id: string): (r: Option<Group>)
    ensures r.Some? <==> exists g :: g in store.groups && g.id == id
    ensures r.Some? ==> r.value in store.groups && r.value.id == id
    ensures r.Some? ==> r.value == store.groups[FirstIndex(store.groups, (g: Group) => g.id == id)]
  {
    Find(store.groups, (g: Group) => g.id == id)
  }

  /** findCourseById: the first course with that id. */
  function FindCourseById(store: OrgStore, id: string): (r: Option<Course>)
    ensures r.Some? <==> exists c :: c in store.courses && c.id == id
    ensures r.Some? ==> r.value in store.courses && r.value.id == id
    ensures r.Some? ==> r.value == store.courses[FirstIndex(store.courses, (c: Course) => c.id == id)]
  {
    Find(store.courses, (c: Course) => c.id == id)
  }

  /** findGroupsByZoneId: the groups of the zone, in store order. */
  function FindGroupsByZoneId(store: OrgStore, zoneId: string): (r: seq<Group>)
    ensures forall g :: g in r <==> g in store.groups && g.zoneId == Some(zoneId)
    ensures |r| <= |store.groups|
    ensures Subsequence(r, store.groups)
  {
    FilterIsSubsequence(store.groups, (g: Group) => g.zoneId == Some(zoneId));
    Filter(store.groups, (g: Group) => g.zoneId == Some(zoneId))
  }

  /** findCoursesByIds: the listed courses, in store order rather than in the order of `ids`. */
  function FindCoursesByIds(store: OrgStore, ids: seq<string>): (r: seq<Course>)
    ensures forall c :: c in r <==> c in store.courses && c.id in ids
    ensures |r| <= |store.courses|
    ensures Subsequence(r, store.courses)
  {
    FilterIsSubsequence(store.courses, (c: Course) => c.id in ids);
    Filter(store.courses, (c: Course) => c.id in ids)
  }

  /** A Pastoral group belongs under the zone it names. */
  predicate PastoralIn(zone: Zone, g: Group)
  {
    g.zoneId == Some(zone.id) && g.groupType == Pastoral
  }

  /** The filter picking the Pastoral groups of `zone`. */
  function PastoralOf(zone: Zone): Group -> bool
  {
    (g: Group) => PastoralIn(zone, g)
  }

  predicate IsFunctional(g: Group)
  {
    g.groupType == Functional
  }

  /**
   * getStructure: every zone, in order, with its Pastoral groups nested under it,
   * and the Functional groups listed apart.
   */
  function GetStructure(store: OrgStore): (s: OrganizationStructure)
    ensures |s.zones| == |store.zones|
    ensures forall i :: 0 <= i < |s.zones| ==> s.zones[i].zone == store.zones[i]
    ensures forall i, g :: 0 <= i < |s.zones| ==>
      (g in s.zones[i].groups <==> g in store.groups && PastoralIn(store.zones[i], g))
    ensures forall g :: g in s.functionalGroups <==> g in store.groups && g.groupType == Functional
  {
    OrganizationStructure(
      seq(|store.zones|, i requires 0 <= i < |store.zones| =>
        ZoneWithGroups(store.zones[i], Filter(store.groups, PastoralOf(store.zones[i])))),
      Filter(store.groups, IsFunctional))
  }

  /** The structure lists every zone's groups, and the Functional groups, in store order. */
  lemma StructureKeepsStoreOrder(store: OrgStore)
    ensures forall i :: 0 <= i < |GetStructure(store).zones| ==> Subsequence(GetStructure(store).zones[i].groups, store.groups)
    ensures Subsequence(GetStructure(store).functionalGroups, store.groups)
  {
    forall i | 0 <= i < |store.zones| {
      FilterIsSubsequence(store.groups, PastoralOf(store.zones[i]));
    }
    FilterIsSubsequence(store.groups, IsFunctional);
  }

  /**
   * Every group of the store appears in the structure exactly when it is
   * Functional or it is Pastoral and names an existing zone: a Pastoral group
   * without a known zone is dropped.
   */
  lemma StructureCoversGroups(store: OrgStore, g: Group)
    requires g in store.groups
    ensures (g in GetStructure(store).functionalGroups || exists i :: 0 <= i < |store.zones| && g in GetStructure(store).zones[i].groups)
      <==> (g.groupType == Functional || exists z :: z in store.zones && PastoralIn(z, g))
  {
    var s := GetStructure(store);
    if exists z :: z in store.zones && PastoralIn(z, g) {
      var z :| z in store.zones && PastoralIn(z, g);
      var i :| 0 <= i < |store.zones| && store.zones[i] == z;
      assert g in s.zones[i].groups;
    }
  }
}

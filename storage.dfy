/**
 * The development-mode avatar tracker: a map from a file's URL to the member it
 * belongs to and the instant it was stored. Creation instants and the cleanup
 * cutoff are milliseconds since the epoch, given as parameters.
 */
module Storage {

  datatype AvatarEntry = AvatarEntry(url: string, memberUuid: string, createdAt: int)

  /** The tracked URLs of one member. */
  function OwnedBy(store: map<string, AvatarEntry>, memberUuid: string): (urls: set<string>)
    ensures urls <= store.Keys
    ensures forall u :: u in urls <==> u in store && store[u].memberUuid == memberUuid
  {
    set u | u in store && store[u].memberUuid == memberUuid
  }

  /** The store with the given URLs removed. */
  function Without(store: map<string, AvatarEntry>, urls: set<string>): (r: map<string, AvatarEntry>)
    ensures r.Keys == store.Keys - urls
    ensures forall u :: u in r ==> r[u] == store[u]
  {
    map u | u in store && u !in urls :: store[u]
  }

  /** Tracked URLs that are not any member's current avatar. */
  function Unused(store: map<string, AvatarEntry>, active: seq<string>): (urls: set<string>)
    ensures forall u :: u in urls <==> u in store && u !in active
  {
    set u | u in store && u !in active
  }

  /** Unused URLs stored after the cutoff: still inside the safety buffer. */
  function Recent(store: map<string, AvatarEntry>, active: seq<string>, cutoff: int): (urls: set<string>)
    ensures forall u :: u in urls <==> u in store && u !in active && store[u].createdAt > cutoff
  {
    set u | u in store && u !in active && store[u].createdAt > cutoff
  }

  /** Unused URLs stored at or before the cutoff: the ones cleanup removes. */
  function Stale(store: map<string, AvatarEntry>, active: seq<string>, cutoff: int): (urls: set<string>)
    ensures forall u :: u in urls <==> u in store && u !in active && store[u].createdAt <= cutoff
  {
    set u | u in store && u !in active && store[u].createdAt <= cutoff
  }

  /** The distinct members that own a tracked file. */
  function MemberIds(store: map<string, AvatarEntry>): (ids: set<string>)
    ensures forall id :: id in ids <==> exists u :: u in store && store[u].memberUuid == id
  {
    set u | u in store :: store[u].memberUuid
  }

  class AvatarStore {
    var entries: map<string, AvatarEntry>

    constructor()
      ensures entries == map[]
    {
      entries := map[];
    }

    /** trackAvatarFile: records the URL for the member, replacing an earlier entry of the same URL. */
    method TrackAvatarFile(url: string, memberUuid: string, now: int)
      modifies this
      ensures entries == old(entries)[url := AvatarEntry(url, memberUuid, now)]
    {
      entries := entries[url := AvatarEntry(url, memberUuid, now)];
    }

    /** deleteAvatarFile: an empty URL changes nothing; otherwise only that URL is forgotten. */
    method DeleteAvatarFile(url: string)
      modifies this
      ensures url == "" ==> entries == old(entries)
      ensures url != "" ==> entries == old(entries) - {url}
    {
      if url == "" {
        return;
      }
      entries := entries - {url};
    }

    /** deleteAllAvatarsForMember: forgets every file of the member and returns how many there were. */
    method DeleteAllAvatarsForMember(memberUuid: string) returns (deletedCount: nat)
      modifies this
      ensures entries == Without(old(entries), OwnedBy(old(entries), memberUuid))
      ensures deletedCount == |OwnedBy(old(entries), memberUuid)|
    {
      var start := entries;
      ghost var owned := OwnedBy(start, memberUuid);
      deletedCount := 0;
      var remaining := entries.Keys;
      RemovalStart(start, owned);
      while remaining != {}
        invariant remaining <= start.Keys
        invariant RemovalProgress(start, owned, remaining, entries, deletedCount)
        decreases remaining
      {
        var url :| url in remaining;
        if start[url].memberUuid == memberUuid {
          RemoveStep(start, owned, remaining, entries, deletedCount, url);
          entries := entries - {url};
          deletedCount := deletedCount + 1;
        } else {
          KeepStep(start, owned, remaining, entries, deletedCount, url);
        }
        remaining := remaining - {url};
      }
      RemovalEnd(start, owned, entries, deletedCount);
    }

    /**
     * cleanupUnusedAvatars: forgets every unused file stored at or before the
     * cutoff and counts the unused files it spares because they are newer.
     * A file tracked under the empty URL is counted as deleted, but
     * deleteAvatarFile leaves it in place.
     */
    method CleanupUnusedAvatars(activeAvatarUrls: seq<string>, cutoff: int) returns (deleted: nat, skipped: nat)
      modifies this
      ensures entries == Without(old(entries), Stale(old(entries), activeAvatarUrls, cutoff) - {""})
      ensures deleted == |Stale(old(entries), activeAvatarUrls, cutoff)|
      ensures skipped == |Recent(old(entries), activeAvatarUrls, cutoff)|
    {
      var start := entries;
      ghost var stale := Stale(start, activeAvatarUrls, cutoff);
      ghost var recent := Recent(start, activeAvatarUrls, cutoff);
      deleted, skipped := 0, 0;
      var remaining := entries.Keys;
      CleanupStart(start, stale, recent);
      while remaining != {}
        invariant remaining <= start.Keys
        invariant CleanupProgress(start, stale, recent, remaining, entries, deleted, skipped)
        decreases remaining
      {
        var url :| url in remaining;
        if url in activeAvatarUrls {
          SkipStep(start, stale, recent, remaining, entries, deleted, skipped, url);
        } else if start[url].createdAt > cutoff {
          SpareStep(start, stale, recent, remaining, entries, deleted, skipped, url);
          skipped := skipped + 1;
        } else {
          DeleteStep(start, stale, recent, remaining, entries, deleted, skipped, url);
          DeleteAvatarFile(url);
          deleted := deleted + 1;
        }
        remaining := remaining - {url};
      }
      CleanupEnd(start, stale, recent, entries, deleted, skipped);
    }

    /** getAvatarStorageStats: the number of tracked files and of distinct members owning them. */
    method GetAvatarStorageStats() returns (totalFiles: nat, uniqueMembers: nat)
      ensures totalFiles == |entries|
      ensures uniqueMembers == |MemberIds(entries)|
      ensures uniqueMembers <= totalFiles
    {
      var memberIds: set<string> := {};
      var remaining := entries.Keys;
      ghost var seen: set<string> := {};
      while remaining != {}
        invariant remaining !! seen && remaining + seen == entries.Keys
        invariant memberIds == set u | u in seen :: entries[u].memberUuid
        invariant |memberIds| <= |seen|
        decreases remaining
      {
        var url :| url in remaining;
        memberIds := memberIds + {entries[url].memberUuid};
        remaining := remaining - {url};
        seen := seen + {url};
      }
      assert seen == entries.Keys;
      totalFiles := |entries.Keys|;
      uniqueMembers := |memberIds|;
    }
  }

  /** Cleanup never touches a file that is some member's current avatar. */
  lemma CleanupKeepsActive(store: map<string, AvatarEntry>, active: seq<string>, cutoff: int, url: string)
    requires url in store && url in active
    ensures url in Without(store, Stale(store, active, cutoff) - {""})
    ensures Without(store, Stale(store, active, cutoff) - {""})[url] == store[url]
  {
  }

  /** Every unused file is either deleted or skipped, never both: deleted + skipped == |unused|. */
  lemma CleanupCountsEveryUnused(store: map<string, AvatarEntry>, active: seq<string>, cutoff: int)
    ensures |Stale(store, active, cutoff)| + |Recent(store, active, cutoff)| == |Unused(store, active)|
  {
    var stale, recent := Stale(store, active, cutoff), Recent(store, active, cutoff);
    assert stale !! recent;
    assert stale + recent == Unused(store, active);
  }

  /** After deleting a member's files, no tracked file belongs to that member and every other file stays. */
  lemma DeletedMemberOwnsNothing(store: map<string, AvatarEntry>, memberUuid: string)
    ensures OwnedBy(Without(store, OwnedBy(store, memberUuid)), memberUuid) == {}
    ensures forall u :: u in store && store[u].memberUuid != memberUuid ==>
      u in Without(store, OwnedBy(store, memberUuid))
  {
  }

  /** `entries` is `store` with exactly the URLs of `removed` taken out. */
  predicate Restricts(entries: map<string, AvatarEntry>, store: map<string, AvatarEntry>, removed: set<string>)
  {
    entries.Keys == store.Keys - removed && forall u :: u in entries ==> entries[u] == store[u]
  }

  lemma RestrictsIsWithout(entries: map<string, AvatarEntry>, store: map<string, AvatarEntry>, removed: set<string>)
    requires Restricts(entries, store, removed)
    ensures entries == Without(store, removed)
  {
  }

  /** Taking out one more present URL keeps the restriction. */
  lemma RestrictsStep(entries: map<string, AvatarEntry>, store: map<string, AvatarEntry>, removed: set<string>,
                      url: string)
    requires Restricts(entries, store, removed) && url in entries
    ensures Restricts(entries - {url}, store, removed + {url})
  {
  }

  /** The state of deleteAllAvatarsForMember once the URLs outside `remaining` are visited. */
  predicate RemovalProgress(store: map<string, AvatarEntry>, owned: set<string>, remaining: set<string>,
                            entries: map<string, AvatarEntry>, deletedCount: nat)
  {
    Restricts(entries, store, owned - remaining) && deletedCount == |owned - remaining|
  }

  lemma RemovalStart(store: map<string, AvatarEntry>, owned: set<string>)
    requires owned <= store.Keys
    ensures RemovalProgress(store, owned, store.Keys, store, 0)
  {
    assert owned - store.Keys == {};
  }

  lemma RemoveStep(store: map<string, AvatarEntry>, owned: set<string>, remaining: set<string>,
                   entries: map<string, AvatarEntry>, deletedCount: nat, url: string)
    requires RemovalProgress(store, owned, remaining, entries, deletedCount)
    requires url in owned && url in remaining && url in store
    ensures RemovalProgress(store, owned, remaining - {url}, entries - {url}, deletedCount + 1)
  {
    TakeOne(owned, remaining, url);
    RestrictsStep(entries, store, owned - remaining, url);
  }

  lemma KeepStep(store: map<string, AvatarEntry>, owned: set<string>, remaining: set<string>,
                 entries: map<string, AvatarEntry>, deletedCount: nat, url: string)
    requires RemovalProgress(store, owned, remaining, entries, deletedCount)
    requires url !in owned
    ensures RemovalProgress(store, owned, remaining - {url}, entries, deletedCount)
  {
    SkipOne(owned, remaining, url);
  }

  lemma RemovalEnd(store: map<string, AvatarEntry>, owned: set<string>, entries: map<string, AvatarEntry>,
                   deletedCount: nat)
    requires RemovalProgress(store, owned, {}, entries, deletedCount)
    ensures entries == Without(store, owned) && deletedCount == |owned|
  {
    assert owned - {} == owned;
    RestrictsIsWithout(entries, store, owned);
  }

  /**
   * The state of cleanup once the URLs outside `remaining` are visited: the
   * visited stale URLs, except the empty one, are gone and counted as deleted,
   * and the visited recent URLs are counted as skipped.
   */
  predicate CleanupProgress(store: map<string, AvatarEntry>, stale: set<string>, recent: set<string>,
                            remaining: set<string>, entries: map<string, AvatarEntry>, deleted: nat, skipped: nat)
  {
    Restricts(entries, store, (stale - remaining) - {""}) &&
    deleted == |stale - remaining| && skipped == |recent - remaining|
  }

  /** Before the first visit nothing is removed or counted. */
  lemma CleanupStart(store: map<string, AvatarEntry>, stale: set<string>, recent: set<string>)
    requires stale <= store.Keys && recent <= store.Keys
    ensures CleanupProgress(store, stale, recent, store.Keys, store, 0, 0)
  {
    assert stale - store.Keys == {};
    assert recent - store.Keys == {};
    assert (stale - store.Keys) - {""} == {};
  }

  /** Once every URL is visited, exactly the stale URLs but the empty one are gone, and both counts are complete. */
  lemma CleanupEnd(store: map<string, AvatarEntry>, stale: set<string>, recent: set<string>,
                   entries: map<string, AvatarEntry>, deleted: nat, skipped: nat)
    requires CleanupProgress(store, stale, recent, {}, entries, deleted, skipped)
    ensures entries == Without(store, stale - {""})
    ensures deleted == |stale| && skipped == |recent|
  {
    assert stale - {} == stale && recent - {} == recent;
    RestrictsIsWithout(entries, store, stale - {""});
  }

  /** Visiting an active URL changes nothing. */
  lemma SkipStep(store: map<string, AvatarEntry>, stale: set<string>, recent: set<string>, remaining: set<string>,
                 entries: map<string, AvatarEntry>, deleted: nat, skipped: nat, url: string)
    requires CleanupProgress(store, stale, recent, remaining, entries, deleted, skipped)
    requires url !in stale && url !in recent
    ensures CleanupProgress(store, stale, recent, remaining - {url}, entries, deleted, skipped)
  {
    SkipOne(stale, remaining, url);
    SkipOne(recent, remaining, url);
  }

  /** Visiting a recent unused URL counts one more skip. */
  lemma SpareStep(store: map<string, AvatarEntry>, stale: set<string>, recent: set<string>, remaining: set<string>,
                  entries: map<string, AvatarEntry>, deleted: nat, skipped: nat, url: string)
    requires CleanupProgress(store, stale, recent, remaining, entries, deleted, skipped)
    requires url !in stale && url in recent && url in remaining
    ensures CleanupProgress(store, stale, recent, remaining - {url}, entries, deleted, skipped + 1)
  {
    SkipOne(stale, remaining, url);
    TakeOne(recent, remaining, url);
  }

  /** Visiting a stale URL counts one more deletion and forgets the URL unless it is empty. */
  lemma DeleteStep(store: map<string, AvatarEntry>, stale: set<string>, recent: set<string>, remaining: set<string>,
                   entries: map<string, AvatarEntry>, deleted: nat, skipped: nat, url: string)
    requires CleanupProgress(store, stale, recent, remaining, entries, deleted, skipped)
    requires url in stale && url !in recent && url in remaining && url in store
    ensures url != "" ==> CleanupProgress(store, stale, recent, remaining - {url}, entries - {url}, deleted + 1, skipped)
    ensures url == "" ==> CleanupProgress(store, stale, recent, remaining - {url}, entries, deleted + 1, skipped)
  {
    TakeOne(stale, remaining, url);
    SkipOne(recent, remaining, url);
    var gone := stale - remaining;
    if url != "" {
      RestrictsStep(entries, store, gone - {""}, url);
      assert (gone - {""}) + {url} == (gone + {url}) - {""};
    } else {
      assert gone - {""} == (gone + {url}) - {""};
    }
  }

  /** Visiting a URL of `chosen`: the visited part of `chosen` grows by that URL. */
  lemma TakeOne(chosen: set<string>, remaining: set<string>, url: string)
    requires url in chosen && url in remaining
    ensures chosen - (remaining - {url}) == (chosen - remaining) + {url}
    ensures url !in chosen - remaining
  {
  }

  /** Visiting a URL outside `chosen` leaves the visited part of `chosen` as it was. */
  lemma SkipOne(chosen: set<string>, remaining: set<string>, url: string)
    requires url !in chosen
    ensures chosen - (remaining - {url}) == chosen - remaining
  {
  }

}

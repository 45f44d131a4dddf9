/**
 * The client's reveal cache (useRevealSensitiveData): the plain values the
 * server revealed, per member and field, and the auto-mask timers that hide them
 * again.
 *
 * The fetch of the reveal endpoint is a parameter (its response or its error
 * status), as is the handle `setTimeout` returns. A timer firing is an event of
 * its own, `TimerFires`; `clearTimeout` is recorded by adding the handle to the
 * set of cancelled handles, and a cancelled timer never fires.
 */
module RevealCache {
  import opened Wrappers
  import opened Seqs
  import opened Permissions

  /** A scheduled auto-mask: its handle and the masking it will do. */
  datatype Timer = Timer(handle: nat, memberId: string, fields: seq<string>)

  type Cache = map<string, map<string, string>>

  // ---------------------------------------------------------------------------
  // The cache as a value
  // ---------------------------------------------------------------------------

  /** `revealedFields[memberId]?.[field]`. */
  function Lookup(cache: Cache, memberId: string, field: string): (v: Option<string>)
    ensures v.Some? <==> memberId in cache && field in cache[memberId]
    ensures v.Some? ==> v.value == cache[memberId][field]
  {
    if memberId in cache && field in cache[memberId] then Some(cache[memberId][field]) else None
  }

  /** The cache after a reveal stored `data` for the member: new values win, earlier fields stay. */
  function Merged(cache: Cache, memberId: string, data: map<string, string>): (c: Cache)
    ensures memberId in c && c.Keys == cache.Keys + {memberId}
    ensures c[memberId].Keys == data.Keys + (if memberId in cache then cache[memberId].Keys else {})
  {
    cache[memberId := (if memberId in cache then cache[memberId] else map[]) + data]
  }

  /** The set of the listed fields. */
  function FieldSet(fields: seq<string>): set<string>
  {
    set f | f in fields
  }

  /** The cache after maskFields: the listed fields gone, and the member gone once none is left. */
  function Masked(cache: Cache, memberId: string, fields: seq<string>): (c: Cache)
    ensures c.Keys <= cache.Keys
    ensures memberId in c ==> c[memberId] != map[]
  {
    if memberId !in cache then cache
    else
      var rest := cache[memberId] - FieldSet(fields);
      if rest == map[] then cache - {memberId} else cache[memberId := rest]
  }

  /** `fields.join(',')`: the empty list joins to "". */
  function CommaJoin(fields: seq<string>): string
  {
    if fields == [] then "" else Join(fields, ',')
  }

  /** The key of a reveal's timer: the member id, a dash and the comma-joined fields. */
  function TimerKey(memberId: string, fields: seq<string>): (k: string)
    ensures |k| > |memberId| && k[..|memberId| + 1] == memberId + "-"
  {
    memberId + "-" + CommaJoin(fields)
  }

  /** The five fields revealAll asks for. */
  const RevealAllFields: seq<string> := ["mobile", "email", "lineId", "address", "emergencyContactPhone"]

  // ---------------------------------------------------------------------------
  // The composable's state
  // ---------------------------------------------------------------------------

  class RevealCacheState {
    var revealed: Cache
    var timers: map<string, Timer>
    var cancelled: set<nat>
    var isRevealing: bool

    constructor()
      ensures revealed == map[] && timers == map[] && cancelled == {} && !isRevealing
    {
      revealed := map[];
      timers := map[];
      cancelled := {};
      isRevealing := false;
    }

    /**
     * revealFields: on a successful response, merges the returned values into
     * the member's entry, cancels the timer of an earlier reveal of the same
     * fields and schedules a new one. A failed fetch changes nothing and is
     * passed on. In either case the flag is cleared at the end.
     */
    method RevealFields(memberId: string, fields: seq<string>, response: Result<map<string, string>>, handle: nat)
      returns (r: Result<map<string, string>>)
      modifies this
      ensures r == response && !isRevealing
      ensures response.Err? ==> revealed == old(revealed) && timers == old(timers) && cancelled == old(cancelled)
      ensures response.Ok? ==> revealed == Merged(old(revealed), memberId, response.value)
      ensures response.Ok? ==> timers == old(timers)[TimerKey(memberId, fields) := Timer(handle, memberId, fields)]
      ensures response.Ok? ==> (cancelled == old(cancelled) +
        (if TimerKey(memberId, fields) in old(timers) then {old(timers)[TimerKey(memberId, fields)].handle} else {}))
    {
      isRevealing := true;
      if response.Err? {
        isRevealing := false;
        return response;
      }
      var data := response.value;
      var base := if memberId in revealed then revealed[memberId] else map[];
      var entry := MergeEntry(base, data);
      revealed := revealed[memberId := entry];
      var key := TimerKey(memberId, fields);
      if key in timers {
        cancelled := cancelled + {timers[key].handle};
      }
      timers := timers[key := Timer(handle, memberId, fields)];
      isRevealing := false;
      r := response;
    }

    /** revealAll: revealFields with the five sensitive fields. */
    method RevealAll(memberId: string, response: Result<map<string, string>>, handle: nat)
      modifies this
      ensures !isRevealing
      ensures response.Err? ==> revealed == old(revealed) && timers == old(timers) && cancelled == old(cancelled)
      ensures response.Ok? ==> revealed == Merged(old(revealed), memberId, response.value)
      ensures response.Ok? ==> timers == old(timers)[TimerKey(memberId, RevealAllFields) := Timer(handle, memberId, RevealAllFields)]
      ensures response.Ok? ==> (cancelled == old(cancelled) +
        (if TimerKey(memberId, RevealAllFields) in old(timers) then {old(timers)[TimerKey(memberId, RevealAllFields)].handle}
         else {}))
    {
      var _ := RevealFields(memberId, RevealAllFields, response, handle);
    }

    /** maskFields: deletes the listed fields of the member, then the member's entry once it is empty. */
    method MaskFields(memberId: string, fields: seq<string>)
      modifies this
      ensures revealed == Masked(old(revealed), memberId, fields)
      ensures timers == old(timers) && cancelled == old(cancelled) && isRevealing == old(isRevealing)
    {
      if memberId !in revealed {
        return;
      }
      var entry := RemoveFields(revealed[memberId], fields);
      if |entry| == 0 {
        revealed := revealed - {memberId};
      } else {
        revealed := revealed[memberId := entry];
      }
    }

    /** getRevealedValue: the stored value, or nothing. */
    function GetRevealedValue(memberId: string, field: string): (v: Option<string>)
      reads this
      ensures v.Some? <==> memberId in revealed && field in revealed[memberId]
      ensures v.Some? ==> v.value == revealed[memberId][field]
    {
      Lookup(revealed, memberId, field)
    }

    /** isFieldRevealed: a stored value counts only when it is not the empty string. */
    function IsFieldRevealed(memberId: string, field: string): (b: bool)
      reads this
      ensures b <==> memberId in revealed && field in revealed[memberId] && revealed[memberId][field] != ""
    {
      Truthy(GetRevealedValue(memberId, field))
    }

    /** A timer that was not cancelled runs its masking when it fires. */
    method TimerFires(key: string)
      modifies this
      ensures key in old(timers) && old(timers)[key].handle !in old(cancelled) ==>
        revealed == Masked(old(revealed), old(timers)[key].memberId, old(timers)[key].fields)
      ensures !(key in old(timers) && old(timers)[key].handle !in old(cancelled)) ==> revealed == old(revealed)
      ensures timers == old(timers) && cancelled == old(cancelled) && isRevealing == old(isRevealing)
    {
      if key in timers && timers[key].handle !in cancelled {
        MaskFields(timers[key].memberId, timers[key].fields);
      }
    }

    /** cleanup: cancels every pending timer and empties both the timers and the cache. */
    method Cleanup()
      modifies this
      ensures cancelled == old(cancelled) + Handles(old(timers))
      ensures timers == map[] && revealed == map[]
      ensures isRevealing == old(isRevealing)
    {
      var remaining := timers.Keys;
      while remaining != {}
        invariant remaining <= timers.Keys
        invariant timers == old(timers) && revealed == old(revealed) && isRevealing == old(isRevealing)
        invariant cancelled == old(cancelled) + HandlesAt(timers, timers.Keys - remaining)
        decreases remaining
      {
        var key :| key in remaining;
        HandlesStep(timers, remaining, key);
        cancelled := cancelled + {timers[key].handle};
        remaining := remaining - {key};
      }
      timers := map[];
      revealed := map[];
    }
  }

  /** The loop of revealFields over `Object.entries(response.data)`: each returned value written into the entry. */
  method MergeEntry(base: map<string, string>, data: map<string, string>) returns (entry: map<string, string>)
    ensures entry == base + data
  {
    entry := base;
    var remaining := data.Keys;
    assert Restrict(data, data.Keys - remaining) == map[];
    assert base + map[] == base;
    while remaining != {}
      invariant remaining <= data.Keys
      invariant entry == base + Restrict(data, data.Keys - remaining)
      decreases remaining
    {
      var field :| field in remaining;
      MergeStep(base, data, remaining, field);
      entry := entry[field := data[field]];
      remaining := remaining - {field};
    }
    assert Restrict(data, data.Keys) == data;
  }

  /** The loop of maskFields: each listed field deleted from the entry in turn. */
  method RemoveFields(start: map<string, string>, fields: seq<string>) returns (entry: map<string, string>)
    ensures entry == start - FieldSet(fields)
  {
    entry := start;
    assert FieldSet(fields[..0]) == {};
    assert start - {} == start;
    for i := 0 to |fields|
      invariant entry == start - FieldSet(fields[..i])
    {
      assert FieldSet(fields[..i + 1]) == FieldSet(fields[..i]) + {fields[i]} by {
        assert fields[..i + 1] == fields[..i] + [fields[i]];
      }
      assert start - FieldSet(fields[..i]) - {fields[i]} == start - FieldSet(fields[..i + 1]);
      entry := entry - {fields[i]};
    }
    assert fields[..|fields|] == fields;
  }

  /** The part of `m` at the keys `keys`. */
  function Restrict(m: map<string, string>, keys: set<string>): (r: map<string, string>)
    ensures r.Keys == m.Keys * keys
  {
    map k | k in m && k in keys :: m[k]
  }

  lemma MergeStep(base: map<string, string>, data: map<string, string>, remaining: set<string>, field: string)
    requires remaining <= data.Keys && field in remaining
    ensures base + Restrict(data, data.Keys - (remaining - {field})) ==
            (base + Restrict(data, data.Keys - remaining))[field := data[field]]
  {
  }

  /** The handles of the timers at the keys `keys`. */
  function HandlesAt(timers: map<string, Timer>, keys: set<string>): set<nat>
  {
    set k | k in keys && k in timers :: timers[k].handle
  }

  /** The handles of every timer. */
  function Handles(timers: map<string, Timer>): set<nat>
  {
    HandlesAt(timers, timers.Keys)
  }

  lemma HandlesStep(timers: map<string, Timer>, remaining: set<string>, key: string)
    requires remaining <= timers.Keys && key in remaining
    ensures HandlesAt(timers, timers.Keys - (remaining - {key})) ==
            HandlesAt(timers, timers.Keys - remaining) + {timers[key].handle}
  {
    assert timers.Keys - (remaining - {key}) == (timers.Keys - remaining) + {key};
  }

  // ---------------------------------------------------------------------------
  // Properties
  // ---------------------------------------------------------------------------

  /**
   * A reveal stores the returned values and keeps what was revealed before:
   * every other field of the member, and every other member, reads as it did.
   */
  lemma RevealKeepsEarlierFields(cache: Cache, memberId: string, data: map<string, string>, m: string, f: string)
    ensures m == memberId && f in data ==> Lookup(Merged(cache, memberId, data), m, f) == Some(data[f])
    ensures !(m == memberId && f in data) ==> Lookup(Merged(cache, memberId, data), m, f) == Lookup(cache, m, f)
  {
  }

  /**
   * Masking removes exactly the listed fields of that member: each reads as
   * absent afterwards and every other field and member reads as before. An
   * unknown member leaves the cache as it is.
   */
  lemma MaskRemovesOnlyListed(cache: Cache, memberId: string, fields: seq<string>, m: string, f: string)
    ensures m == memberId && f in fields ==> Lookup(Masked(cache, memberId, fields), m, f).None?
    ensures !(m == memberId && f in fields) ==> Lookup(Masked(cache, memberId, fields), m, f) == Lookup(cache, m, f)
    ensures memberId !in cache ==> Masked(cache, memberId, fields) == cache
  {
    if memberId in cache && m == memberId && f !in fields && f in cache[m] {
      assert f in cache[memberId] - FieldSet(fields);
    }
  }

  /** A member whose every revealed field is masked leaves the cache altogether. */
  lemma MaskingEverythingPrunes(cache: Cache, memberId: string, fields: seq<string>)
    requires memberId in cache && cache[memberId].Keys <= FieldSet(fields)
    ensures memberId !in Masked(cache, memberId, fields)
    ensures Masked(cache, memberId, fields) == cache - {memberId}
  {
    assert cache[memberId] - FieldSet(fields) == map[];
  }

  /** Masking twice is masking once, so a timer firing again is harmless. */
  lemma MaskIdempotent(cache: Cache, memberId: string, fields: seq<string>)
    ensures Masked(Masked(cache, memberId, fields), memberId, fields) == Masked(cache, memberId, fields)
  {
    var once := Masked(cache, memberId, fields);
    if memberId in once {
      assert once[memberId] - FieldSet(fields) == once[memberId];
    }
  }

  /** When a reveal's own timer fires, none of the requested fields reads as revealed. */
  lemma AutoMaskHidesRequestedFields(cache: Cache, memberId: string, fields: seq<string>,
                                     data: map<string, string>, f: string)
    requires f in fields
    ensures Lookup(Masked(Merged(cache, memberId, data), memberId, fields), memberId, f).None?
  {
    MaskRemovesOnlyListed(Merged(cache, memberId, data), memberId, fields, memberId, f);
  }

  /** revealAll asks for the wire name of every sensitive field, in the canonical order. */
  lemma RevealAllIsEverySensitiveField()
    ensures |RevealAllFields| == |AllSensitiveFields|
    ensures forall i :: 0 <= i < |AllSensitiveFields| ==> RevealAllFields[i] == FieldName(AllSensitiveFields[i])
    ensures forall s :: s in RevealAllFields <==> FieldFromName(s).Some?
  {
    forall s | FieldFromName(s).Some? ensures s in RevealAllFields {
      var f := FieldFromName(s).value;
      assert FieldName(f) == s;
    }
  }

  /**
   * Two reveals of the same member get the same timer exactly when they ask for
   * the same fields in the same order, as long as each asks for at least one
   * field and no field name holds a comma.
   */
  lemma TimerKeysAreDistinct(memberId: string, a: seq<string>, b: seq<string>)
    requires a != [] && b != []
    requires forall i :: 0 <= i < |a| ==> ',' !in a[i]
    requires forall i :: 0 <= i < |b| ==> ',' !in b[i]
    ensures TimerKey(memberId, a) == TimerKey(memberId, b) <==> a == b
  {
    if TimerKey(memberId, a) == TimerKey(memberId, b) {
      var n := |memberId| + 1;
      assert TimerKey(memberId, a)[n..] == Join(a, ',');
      assert TimerKey(memberId, b)[n..] == Join(b, ',');
      JoinSplit(a, ',');
      JoinSplit(b, ',');
    }
  }
}

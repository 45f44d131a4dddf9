/**
 * mergeDeep: a deep merge of plain objects.
 *
 * A JavaScript value is `undefined`, `null`, a primitive (its text stands for
 * it), an array or a plain object. The target and every source are plain
 * objects, given by their own properties; a source may be absent (`undefined`).
 */
module ObjectMerge {
  import opened Wrappers

  datatype JsValue =
    | Undefined
    | Null
    | Prim(text: string)
    | Arr(items: seq<JsValue>)
    | Obj(fields: map<string, JsValue>)

  type Object = map<string, JsValue>

  /** isObject, and not an array: a truthy value of type "object" that is not an array. */
  predicate IsPlainObject(v: JsValue)
  {
    v.Obj?
  }

  /** The keys at which `source` has a value other than `undefined`. */
  function DefinedKeys(source: Object): set<string>
  {
    set k | k in source && source[k] != Undefined
  }

  /**
   * One source merged into the target: a source value of `undefined` is
   * skipped, two plain objects merge recursively, and any other source value
   * replaces the target's.
   */
  function MergeInto(target: Object, source: Object): (r: Object)
    ensures r.Keys == target.Keys + DefinedKeys(source)
    decreases Obj(source)
  {
    map k | k in target.Keys + DefinedKeys(source) ::
      if k in source && source[k] != Undefined then
        if k in target && IsPlainObject(target[k]) && IsPlainObject(source[k])
        then Obj(MergeInto(target[k].fields, source[k].fields))
        else source[k]
      else target[k]
  }

  /**
   * What one merge leaves at each key: the target's value where the source has
   * none or `undefined`, the recursive merge where both are plain objects, and
   * the source's value otherwise.
   */
  lemma MergeIntoAt(target: Object, source: Object, k: string)
    ensures k in target && k !in DefinedKeys(source) ==> MergeInto(target, source)[k] == target[k]
    ensures k in DefinedKeys(source) && !(k in target && IsPlainObject(target[k]) && IsPlainObject(source[k])) ==>
      MergeInto(target, source)[k] == source[k]
    ensures k in DefinedKeys(source) && k in target && IsPlainObject(target[k]) && IsPlainObject(source[k]) ==>
      MergeInto(target, source)[k] == Obj(MergeInto(target[k].fields, source[k].fields))
  {
  }

  /** Every source in turn, from the first to the last; an absent source is skipped. */
  function MergeAll(target: Object, sources: seq<Option<Object>>): (r: Object)
  {
    if sources == [] then target
    else
      var before := MergeAll(target, sources[..|sources| - 1]);
      var last := sources[|sources| - 1];
      if last.None? then before else MergeInto(before, last.value)
  }

  /** The keys at which some source has a defined value. */
  function SourceKeys(sources: seq<Option<Object>>): set<string>
  {
    if sources == [] then {}
    else
      var last := sources[|sources| - 1];
      SourceKeys(sources[..|sources| - 1]) + (if last.None? then {} else DefinedKeys(last.value))
  }

  /** A value with no `undefined` anywhere inside its objects. */
  predicate NoUndefined(v: JsValue)
    decreases v, 1
  {
    v != Undefined && (v.Obj? ==> AllDefined(v.fields))
  }

  predicate AllDefined(o: Object)
    decreases Obj(o), 0
  {
    forall k :: k in o ==> NoUndefined(o[k])
  }

  // ---------------------------------------------------------------------------
  // The source's loops
  // ---------------------------------------------------------------------------

  /** mergeDeep: no sources gives back the target; otherwise a copy with every present source merged in. */
  method MergeDeep(target: Object, sources: seq<Option<Object>>) returns (result: Object)
    ensures result == MergeAll(target, sources)
  {
    if |sources| == 0 {
      return target;
    }
    result := target;
    for i := 0 to |sources|
      invariant result == MergeAll(target, sources[..i])
    {
      assert sources[..i + 1][..i] == sources[..i];
      var source := sources[i];
      if source.None? {
        continue;
      }
      result := MergeSource(result, source.value);
    }
    assert sources[..|sources|] == sources;
  }

  /**
   * The inner loop over the keys of one source. The recursive
   * `mergeDeep(targetValue, sourceValue)` has a single present source, so it is
   * this loop again on the nested objects.
   */
  method MergeSource(start: Object, source: Object) returns (result: Object)
    ensures result == MergeInto(start, source)
    decreases Obj(source)
  {
    result := start;
    var remaining := source.Keys;
    MergePartStart(start, source);
    while remaining != {}
      invariant remaining <= source.Keys
      invariant result == MergeInto(start, Restrict(source, source.Keys - remaining))
      decreases remaining
    {
      var key :| key in remaining;
      var sourceValue := source[key];
      var targetValue := if key in result then Some(result[key]) else None;
      MergePartStep(start, source, remaining, key);
      if sourceValue == Undefined {
        remaining := remaining - {key};
        continue;
      }
      if targetValue.Some? && IsPlainObject(targetValue.value) && IsPlainObject(sourceValue) {
        var nested := MergeSource(targetValue.value.fields, sourceValue.fields);
        result := result[key := Obj(nested)];
      } else {
        result := result[key := sourceValue];
      }
      remaining := remaining - {key};
    }
    MergePartEnd(start, source);
  }

  /** The part of `m` at the keys `keys`. */
  function Restrict(m: Object, keys: set<string>): (r: Object)
    ensures r.Keys == m.Keys * keys
    ensures forall k :: k in r ==> r[k] == m[k]
  {
    map k | k in m && k in keys :: m[k]
  }

  lemma MergePartStart(start: Object, source: Object)
    ensures MergeInto(start, Restrict(source, source.Keys - source.Keys)) == start
  {
    assert DefinedKeys(Restrict(source, {})) == {};
  }

  lemma MergePartEnd(start: Object, source: Object)
    ensures MergeInto(start, Restrict(source, source.Keys - {})) == MergeInto(start, source)
  {
    assert Restrict(source, source.Keys - {}) == source;
  }

  /** Merging one more key of the source changes the result at that key only, and as the source's loop does. */
  lemma MergePartStep(start: Object, source: Object, remaining: set<string>, key: string)
    requires remaining <= source.Keys && key in remaining
    ensures var before := MergeInto(start, Restrict(source, source.Keys - remaining));
            var after := MergeInto(start, Restrict(source, source.Keys - (remaining - {key})));
            (key in before <==> key in start) &&
            (key in before ==> before[key] == start[key]) &&
            (source[key] == Undefined ==> after == before) &&
            (source[key] != Undefined ==>
              after == before[key := if key in before && IsPlainObject(before[key]) && IsPlainObject(source[key])
                                     then Obj(MergeInto(before[key].fields, source[key].fields))
                                     else source[key]])
  {
    var done := Restrict(source, source.Keys - remaining);
    var more := Restrict(source, source.Keys - (remaining - {key}));
    assert key !in done && key in more && more[key] == source[key];
    assert forall k :: k != key ==> (k in done <==> k in more) && (k in done ==> done[k] == more[k]);
    if source[key] == Undefined {
      MergeSkipsUndefined(start, done, more, key);
    } else {
      MergeWritesDefined(start, done, more, key);
    }
  }

  /** The other keys of two sources that differ at one key merge alike. */
  lemma MergeOtherKeys(start: Object, done: Object, more: Object, key: string)
    requires forall k :: k != key ==> (k in done <==> k in more) && (k in done ==> done[k] == more[k])
    ensures forall k :: k != key ==> (k in MergeInto(start, more) <==> k in MergeInto(start, done))
    ensures forall k :: k != key && k in MergeInto(start, done) ==> MergeInto(start, more)[k] == MergeInto(start, done)[k]
  {
    forall k | k != key
      ensures (k in MergeInto(start, more) <==> k in MergeInto(start, done))
      ensures k in MergeInto(start, done) ==> MergeInto(start, more)[k] == MergeInto(start, done)[k]
    {
      MergeIntoSameAt(start, done, more, k);
    }
  }

  lemma MergeSkipsUndefined(start: Object, done: Object, more: Object, key: string)
    requires key !in done && key in more && more[key] == Undefined
    requires forall k :: k != key ==> (k in done <==> k in more) && (k in done ==> done[k] == more[k])
    ensures MergeInto(start, more) == MergeInto(start, done)
  {
    MergeOtherKeys(start, done, more, key);
    assert key in MergeInto(start, more) <==> key in MergeInto(start, done);
  }

  lemma MergeWritesDefined(start: Object, done: Object, more: Object, key: string)
    requires key !in done && key in more && more[key] != Undefined
    requires forall k :: k != key ==> (k in done <==> k in more) && (k in done ==> done[k] == more[k])
    ensures var before := MergeInto(start, done);
            MergeInto(start, more) ==
              before[key := if key in before && IsPlainObject(before[key]) && IsPlainObject(more[key])
                            then Obj(MergeInto(before[key].fields, more[key].fields))
                            else more[key]]
  {
    var before, after := MergeInto(start, done), MergeInto(start, more);
    MergeOtherKeys(start, done, more, key);
    var merged := if key in before && IsPlainObject(before[key]) && IsPlainObject(more[key])
                  then Obj(MergeInto(before[key].fields, more[key].fields))
                  else more[key];
    assert key in DefinedKeys(more);
    assert after[key] == merged;
    var updated := before[key := merged];
    assert after.Keys == updated.Keys;
    forall k | k in after ensures after[k] == updated[k] {
      if k != key {
        assert after[k] == before[k];
      }
    }
    assert after == updated;
  }

  /** Two sources that agree at a key give the same merge result at that key. */
  lemma MergeIntoSameAt(start: Object, a: Object, b: Object, k: string)
    requires (k in a <==> k in b) && (k in a ==> a[k] == b[k])
    ensures k in MergeInto(start, a) <==> k in MergeInto(start, b)
    ensures k in MergeInto(start, a) ==> MergeInto(start, a)[k] == MergeInto(start, b)[k]
  {
    assert k in DefinedKeys(a) <==> k in DefinedKeys(b);
  }

  // ---------------------------------------------------------------------------
  // Properties
  // ---------------------------------------------------------------------------

  /** With no sources, or only absent ones, the target comes back as it is. */
  lemma {:induction false} AbsentSourcesAreSkipped(target: Object, sources: seq<Option<Object>>)
    requires forall i :: 0 <= i < |sources| ==> sources[i].None?
    ensures MergeAll(target, sources) == target
  {
    if sources != [] {
      AbsentSourcesAreSkipped(target, sources[..|sources| - 1]);
    }
  }

  /** The result has the target's keys and every key some source defines, and no other. */
  lemma {:induction false} MergedKeys(target: Object, sources: seq<Option<Object>>)
    ensures MergeAll(target, sources).Keys == target.Keys + SourceKeys(sources)
  {
    if sources != [] {
      MergedKeys(target, sources[..|sources| - 1]);
    }
  }

  /** An `undefined` in the last source never overwrites: the key keeps what the earlier merges gave it. */
  lemma UndefinedNeverOverwrites(target: Object, sources: seq<Option<Object>>, source: Object, k: string)
    requires k in source && source[k] == Undefined
    ensures var before := MergeAll(target, sources);
            var after := MergeAll(target, sources + [Some(source)]);
            (k in after <==> k in before) && (k in before ==> after[k] == before[k])
  {
    assert (sources + [Some(source)])[..|sources|] == sources;
  }

  /** The last source wins at a key it defines, unless both sides are plain objects. */
  lemma LastSourceWins(target: Object, sources: seq<Option<Object>>, source: Object, k: string)
    requires k in source && source[k] != Undefined && !IsPlainObject(source[k])
    ensures MergeAll(target, sources + [Some(source)])[k] == source[k]
  {
    assert (sources + [Some(source)])[..|sources|] == sources;
  }

  /** Two plain objects at the same key are merged, so the earlier object's other keys survive. */
  lemma NestedObjectsMerge(target: Object, sources: seq<Option<Object>>, source: Object, k: string, inner: string)
    requires k in source && source[k].Obj?
    requires k in MergeAll(target, sources) && MergeAll(target, sources)[k].Obj?
    requires inner in MergeAll(target, sources)[k].fields && inner !in DefinedKeys(source[k].fields)
    ensures var after := MergeAll(target, sources + [Some(source)]);
            after[k].Obj? && inner in after[k].fields &&
            after[k].fields[inner] == MergeAll(target, sources)[k].fields[inner]
  {
    var before := MergeAll(target, sources);
    assert (sources + [Some(source)])[..|sources|] == sources;
    assert MergeAll(target, sources + [Some(source)]) == MergeInto(before, source);
    assert k in DefinedKeys(source);
    MergeIntoAt(before, source, k);
    MergeIntoAt(before[k].fields, source[k].fields, inner);
  }

  /** Merging a fully defined object into itself changes nothing, however deep it is nested. */
  lemma {:induction false} MergeIntoSelf(o: Object)
    requires AllDefined(o)
    ensures MergeInto(o, o) == o
    decreases Obj(o)
  {
    var r := MergeInto(o, o);
    assert DefinedKeys(o) == o.Keys;
    forall k | k in o ensures r[k] == o[k] {
      if o[k].Obj? {
        MergeIntoSelf(o[k].fields);
      }
    }
  }

  /** Merging an empty source changes nothing. */
  lemma EmptySourceChangesNothing(target: Object)
    ensures MergeInto(target, map[]) == target
  {
    assert DefinedKeys(map[]) == {};
  }
}

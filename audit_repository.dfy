/**
 * The in-memory audit log: entries are only ever appended (reset empties it).
 * Timestamps are milliseconds since the epoch; the source stores ISO strings of
 * one fixed format, which order like the instants they name.
 */
module AuditLogs {
  import opened Wrappers
  import opened Seqs
  import opened Entities

  /** The entry create stores: the payload's fields under a fresh id, stamped `now`. */
  function NewLog(p: CreateAuditLogPayload, id: string, now: int): (log: AuditLog)
    ensures log.id == id && log.timestamp == now
    ensures log.action == p.action && log.userId == p.userId && log.userName == p.userName
    ensures log.targetMemberId == p.targetMemberId && log.targetMemberName == p.targetMemberName
    ensures log.fieldName == p.fieldName && log.details == p.details
    ensures log.ipAddress == p.ipAddress && log.userAgent == p.userAgent
  {
    AuditLog(id, p.action, p.userId, p.userName, p.targetMemberId, p.targetMemberName, p.fieldName, now,
             p.ipAddress, p.userAgent, p.details)
  }

  /** The optional filters of findAll; an absent or empty one does not filter. */
  datatype AuditFilters = AuditFilters(
    userId: Option<string>,
    targetMemberId: Option<string>,
    action: Option<AuditAction>,
    startDate: Option<int>,
    endDate: Option<int>)

  predicate UserStage(f: AuditFilters, log: AuditLog)
  {
    Truthy(f.userId) ==> log.userId == f.userId.value
  }

  predicate TargetStage(f: AuditFilters, log: AuditLog)
  {
    Truthy(f.targetMemberId) ==> log.targetMemberId == f.targetMemberId
  }

  predicate ActionStage(f: AuditFilters, log: AuditLog)
  {
    f.action.Some? ==> log.action == f.action.value
  }

  predicate StartStage(f: AuditFilters, log: AuditLog)
  {
    f.startDate.Some? ==> log.timestamp >= f.startDate.value
  }

  predicate EndStage(f: AuditFilters, log: AuditLog)
  {
    f.endDate.Some? ==> log.timestamp <= f.endDate.value
  }

  /** The first `n` filters of findAll, in the order the source applies them. */
  predicate AuditStages(f: AuditFilters, n: nat, log: AuditLog)
  {
    (n > 0 ==> UserStage(f, log)) &&
    (n > 1 ==> TargetStage(f, log)) &&
    (n > 2 ==> ActionStage(f, log)) &&
    (n > 3 ==> StartStage(f, log)) &&
    (n > 4 ==> EndStage(f, log))
  }

  /** An entry passes every given filter; without filters every entry does. */
  predicate AuditMatches(filters: Option<AuditFilters>, log: AuditLog)
  {
    filters.Some? ==> AuditStages(filters.value, 5, log)
  }

  // ---------------------------------------------------------------------------
  // Newest first
  // ---------------------------------------------------------------------------

  predicate NewestFirst(s: seq<AuditLog>)
  {
    forall i, j :: 0 <= i < j < |s| ==> s[i].timestamp >= s[j].timestamp
  }

  /** Inserts `x` ahead of the first entry that is not newer, so equal timestamps keep their order. */
  function InsertByTime(x: AuditLog, s: seq<AuditLog>): (r: seq<AuditLog>)
    ensures multiset(r) == multiset(s) + multiset{x}
    ensures |r| == |s| + 1
  {
    if s == [] || s[0].timestamp <= x.timestamp then [x] + s
    else
      assert s == [s[0]] + s[1..];
      [s[0]] + InsertByTime(x, s[1..])
  }

  lemma {:induction false} InsertKeepsNewestFirst(x: AuditLog, s: seq<AuditLog>)
    requires NewestFirst(s)
    ensures NewestFirst(InsertByTime(x, s))
  {
    if s != [] && s[0].timestamp > x.timestamp {
      assert s == [s[0]] + s[1..];
      InsertKeepsNewestFirst(x, s[1..]);
      InsertedBelow(x, s[1..], s[0].timestamp);
      ConsKeepsNewestFirst(s[0], InsertByTime(x, s[1..]));
    } else {
      ConsKeepsNewestFirst(x, s);
    }
  }

  /** Inserting an entry no newer than `bound` among entries no newer than `bound` keeps them all below it. */
  lemma InsertedBelow(x: AuditLog, s: seq<AuditLog>, bound: int)
    requires x.timestamp <= bound
    requires forall i :: 0 <= i < |s| ==> s[i].timestamp <= bound
    ensures forall i :: 0 <= i < |InsertByTime(x, s)| ==> InsertByTime(x, s)[i].timestamp <= bound
  {
    var r := InsertByTime(x, s);
    forall i | 0 <= i < |r| ensures r[i].timestamp <= bound {
      assert r[i] in multiset(r);
      assert r[i] in multiset(s) || r[i] == x;
    }
  }

  /** An entry at least as new as every entry of a newest-first list can go in front of it. */
  lemma ConsKeepsNewestFirst(h: AuditLog, rest: seq<AuditLog>)
    requires NewestFirst(rest)
    requires forall i :: 0 <= i < |rest| ==> rest[i].timestamp <= h.timestamp
    ensures NewestFirst([h] + rest)
  {
    var r := [h] + rest;
    forall i, j | 0 <= i < j < |r| ensures r[i].timestamp >= r[j].timestamp {
      assert r[j] == rest[j - 1];
      if i > 0 {
        assert r[i] == rest[i - 1];
      }
    }
  }

  /** `sort((a, b) => b.timestamp - a.timestamp)`: the same entries, newest first. */
  function SortNewestFirst(s: seq<AuditLog>): (r: seq<AuditLog>)
    ensures multiset(r) == multiset(s)
    ensures NewestFirst(r)
  {
    if s == [] then []
    else
      assert s == [s[0]] + s[1..];
      InsertKeepsNewestFirst(s[0], SortNewestFirst(s[1..]));
      InsertByTime(s[0], SortNewestFirst(s[1..]))
  }

  /** The entries stamped exactly at `t`. */
  function StampedAt(t: int): AuditLog -> bool
  {
    (log: AuditLog) => log.timestamp == t
  }

  /**
   * Inserting `x` skips only strictly newer entries, so among the entries of any
   * one timestamp `x` goes in front and the others keep their order.
   */
  lemma {:induction false} InsertKeepsTies(x: AuditLog, s: seq<AuditLog>, t: int)
    ensures Filter(InsertByTime(x, s), StampedAt(t)) ==
      (if x.timestamp == t then [x] else []) + Filter(s, StampedAt(t))
  {
    if s == [] || s[0].timestamp <= x.timestamp {
      FilterCons(x, s, StampedAt(t));
    } else {
      assert s == [s[0]] + s[1..];
      InsertKeepsTies(x, s[1..], t);
      FilterCons(s[0], InsertByTime(x, s[1..]), StampedAt(t));
      FilterCons(s[0], s[1..], StampedAt(t));
    }
  }

  /**
   * The sort is stable, as `Array.prototype.sort` is: entries with equal
   * timestamps come out in the order they went in.
   */
  lemma {:induction false} SortKeepsTiesInOrder(s: seq<AuditLog>, t: int)
    ensures Filter(SortNewestFirst(s), StampedAt(t)) == Filter(s, StampedAt(t))
  {
    if s != [] {
      assert s == [s[0]] + s[1..];
      SortKeepsTiesInOrder(s[1..], t);
      InsertKeepsTies(s[0], SortNewestFirst(s[1..]), t);
      FilterCons(s[0], s[1..], StampedAt(t));
    }
  }

  /** The number of entries of a user stamped at or after `since`, whatever their action. */
  function CountSince(logs: seq<AuditLog>, userId: string, since: int): (n: nat)
    ensures n <= |logs|
  {
    |Filter(logs, (log: AuditLog) => log.userId == userId && log.timestamp >= since)|
  }

  class AuditLogRepository {
    var logs: seq<AuditLog>

    constructor()
      ensures logs == []
    {
      logs := [];
    }

    /** create: appends exactly one entry built from the payload. */
    method Create(payload: CreateAuditLogPayload, id: string, now: int) returns (log: AuditLog)
      modifies this
      ensures log == NewLog(payload, id, now)
      ensures logs == old(logs) + [log]
    {
      log := NewLog(payload, id, now);
      logs := logs + [log];
    }

    /** findAll: the entries that pass every given filter, newest first. */
    method FindAll(filters: Option<AuditFilters>) returns (results: seq<AuditLog>)
      ensures results == SortNewestFirst(Filter(logs, (log: AuditLog) => AuditMatches(filters, log)))
      ensures NewestFirst(results)
      ensures forall log :: log in results <==> log in logs && AuditMatches(filters, log)
    {
      results := logs;
      if filters.None? {
        FilterAll(logs, (log: AuditLog) => AuditMatches(filters, log));
      } else {
        var f := filters.value;
        FilterAll(logs, (log: AuditLog) => AuditStages(f, 0, log));
        results := NarrowByUser(results, f);
        FilterFilter(logs, (log: AuditLog) => AuditStages(f, 0, log), (log: AuditLog) => UserStage(f, log),
          (log: AuditLog) => AuditStages(f, 1, log));
        results := NarrowByTarget(results, f);
        FilterFilter(logs, (log: AuditLog) => AuditStages(f, 1, log), (log: AuditLog) => TargetStage(f, log),
          (log: AuditLog) => AuditStages(f, 2, log));
        results := NarrowByAction(results, f);
        FilterFilter(logs, (log: AuditLog) => AuditStages(f, 2, log), (log: AuditLog) => ActionStage(f, log),
          (log: AuditLog) => AuditStages(f, 3, log));
        results := NarrowByStart(results, f);
        FilterFilter(logs, (log: AuditLog) => AuditStages(f, 3, log), (log: AuditLog) => StartStage(f, log),
          (log: AuditLog) => AuditStages(f, 4, log));
        results := NarrowByEnd(results, f);
        FilterFilter(logs, (log: AuditLog) => AuditStages(f, 4, log), (log: AuditLog) => EndStage(f, log),
          (log: AuditLog) => AuditStages(f, 5, log));
        FilterSame(logs, (log: AuditLog) => AuditStages(f, 5, log), (log: AuditLog) => AuditMatches(filters, log));
      }
      var matching := results;
      results := SortNewestFirst(matching);
      forall log ensures log in results <==> log in matching {
        assert log in results <==> log in multiset(results);
      }
    }

    /** findByUserId: the user's entries, oldest first. */
    method FindByUserId(userId: string) returns (results: seq<AuditLog>)
      ensures results == Filter(logs, (log: AuditLog) => log.userId == userId)
      ensures forall log :: log in results <==> log in logs && log.userId == userId
    {
      results := Filter(logs, (log: AuditLog) => log.userId == userId);
    }

    /** findByTargetMemberId: the entries about that member, oldest first. */
    method FindByTargetMemberId(targetMemberId: string) returns (results: seq<AuditLog>)
      ensures results == Filter(logs, (log: AuditLog) => log.targetMemberId == Some(targetMemberId))
      ensures forall log :: log in results <==> log in logs && log.targetMemberId == Some(targetMemberId)
    {
      results := Filter(logs, (log: AuditLog) => log.targetMemberId == Some(targetMemberId));
    }

    /** countByUserSince: how many of the user's entries are stamped at or after `since`. */
    method CountByUserSince(userId: string, since: int) returns (n: nat)
      ensures n == CountSince(logs, userId, since)
      ensures n <= |logs|
    {
      var recent := Filter(logs, (log: AuditLog) => log.userId == userId && log.timestamp >= since);
      n := |recent|;
    }

    /** count: the number of stored entries. */
    method Count() returns (n: nat)
      ensures n == |logs|
    {
      n := |logs|;
    }

    /** reset: the log is emptied. */
    method Reset()
      modifies this
      ensures logs == []
    {
      logs := [];
    }
  }

  // ---------------------------------------------------------------------------
  // The stages of findAll
  // ---------------------------------------------------------------------------

  method NarrowByUser(results: seq<AuditLog>, f: AuditFilters) returns (r: seq<AuditLog>)
    ensures r == Filter(results, (log: AuditLog) => UserStage(f, log))
  {
    r := results;
    if Truthy(f.userId) {
      var userId := f.userId.value;
      r := Filter(results, (log: AuditLog) => log.userId == userId);
      FilterSame(results, (log: AuditLog) => log.userId == userId, (log: AuditLog) => UserStage(f, log));
    } else {
      FilterAll(results, (log: AuditLog) => UserStage(f, log));
    }
  }

  method NarrowByTarget(results: seq<AuditLog>, f: AuditFilters) returns (r: seq<AuditLog>)
    ensures r == Filter(results, (log: AuditLog) => TargetStage(f, log))
  {
    r := results;
    if Truthy(f.targetMemberId) {
      var target := f.targetMemberId;
      r := Filter(results, (log: AuditLog) => log.targetMemberId == target);
      FilterSame(results, (log: AuditLog) => log.targetMemberId == target, (log: AuditLog) => TargetStage(f, log));
    } else {
      FilterAll(results, (log: AuditLog) => TargetStage(f, log));
    }
  }

  method NarrowByAction(results: seq<AuditLog>, f: AuditFilters) returns (r: seq<AuditLog>)
    ensures r == Filter(results, (log: AuditLog) => ActionStage(f, log))
  {
    r := results;
    if f.action.Some? {
      var action := f.action.value;
      r := Filter(results, (log: AuditLog) => log.action == action);
      FilterSame(results, (log: AuditLog) => log.action == action, (log: AuditLog) => ActionStage(f, log));
    } else {
      FilterAll(results, (log: AuditLog) => ActionStage(f, log));
    }
  }

  method NarrowByStart(results: seq<AuditLog>, f: AuditFilters) returns (r: seq<AuditLog>)
    ensures r == Filter(results, (log: AuditLog) => StartStage(f, log))
  {
    r := results;
    if f.startDate.Some? {
      var start := f.startDate.value;
      r := Filter(results, (log: AuditLog) => log.timestamp >= start);
      FilterSame(results, (log: AuditLog) => log.timestamp >= start, (log: AuditLog) => StartStage(f, log));
    } else {
      FilterAll(results, (log: AuditLog) => StartStage(f, log));
    }
  }

  method NarrowByEnd(results: seq<AuditLog>, f: AuditFilters) returns (r: seq<AuditLog>)
    ensures r == Filter(results, (log: AuditLog) => EndStage(f, log))
  {
    r := results;
    if f.endDate.Some? {
      var end := f.endDate.value;
      r := Filter(results, (log: AuditLog) => log.timestamp <= end);
      FilterSame(results, (log: AuditLog) => log.timestamp <= end, (log: AuditLog) => EndStage(f, log));
    } else {
      FilterAll(results, (log: AuditLog) => EndStage(f, log));
    }
  }

  /**
   * Appending an entry of the user stamped inside the window raises the user's
   * count by exactly one, whatever the entry's action; any other entry leaves it.
   */
  lemma {:induction false} CountSinceAppend(logs: seq<AuditLog>, log: AuditLog, userId: string, since: int)
    ensures CountSince(logs + [log], userId, since) ==
      CountSince(logs, userId, since) + (if log.userId == userId && log.timestamp >= since then 1 else 0)
  {
    var p := (l: AuditLog) => l.userId == userId && l.timestamp >= since;
    FilterAppend(logs, [log], p);
    assert Filter([log], p) == (if p(log) then [log] else []) + Filter([log][1..], p);
  }
}

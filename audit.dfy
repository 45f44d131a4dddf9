/**
 * The audit helpers: build the entry of a reveal, of a failed reveal attempt or
 * of any other action, and store it in the shared audit log. The request's
 * client address and user agent are parameters, as are the fresh id and the
 * clock that the log assigns.
 */
module Audit {
  import opened Wrappers
  import opened Entities
  import opened AuditLogs

  /** The entry of a successful reveal: who revealed which field of whom. */
  function RevealSuccessPayload(ctx: UserContext, targetMemberId: string, targetMemberName: string,
                                fieldName: string, ipAddress: Option<string>, userAgent: Option<string>)
    : (p: CreateAuditLogPayload)
    ensures p.action == RevealSensitiveData
    ensures p.userId == ctx.userId && p.userName == ctx.fullName
    ensures p.targetMemberId == Some(targetMemberId) && p.targetMemberName == Some(targetMemberName)
    ensures p.fieldName == Some(fieldName)
    ensures p.details.None?
  {
    CreateAuditLogPayload(RevealSensitiveData, ctx.userId, ctx.fullName, Some(targetMemberId),
                          Some(targetMemberName), Some(fieldName), ipAddress, userAgent, None)
  }

  /** The entry of a refused reveal: the same facts, and the reason under the key "reason". */
  function RevealFailurePayload(ctx: UserContext, targetMemberId: string, targetMemberName: string,
                                fieldName: string, reason: string, ipAddress: Option<string>,
                                userAgent: Option<string>)
    : (p: CreateAuditLogPayload)
    ensures p.action == RevealAttemptFailed
    ensures p.userId == ctx.userId && p.userName == ctx.fullName
    ensures p.targetMemberId == Some(targetMemberId) && p.targetMemberName == Some(targetMemberName)
    ensures p.fieldName == Some(fieldName)
    ensures p.details == Some(map["reason" := reason])
  {
    CreateAuditLogPayload(RevealAttemptFailed, ctx.userId, ctx.fullName, Some(targetMemberId),
                          Some(targetMemberName), Some(fieldName), ipAddress, userAgent,
                          Some(map["reason" := reason]))
  }

  /** The entry of logAction: an action without a target member, field or request data. */
  function ActionPayload(action: AuditAction, userId: string, userName: string,
                         details: Option<map<string, string>>)
    : (p: CreateAuditLogPayload)
    ensures p.action == action && p.userId == userId && p.userName == userName && p.details == details
    ensures p.targetMemberId.None? && p.targetMemberName.None? && p.fieldName.None?
    ensures p.ipAddress.None? && p.userAgent.None?
  {
    CreateAuditLogPayload(action, userId, userName, None, None, None, None, None, details)
  }

  /**
   * createAuditLog: stores the entry and returns its id. The in-memory log never
   * fails to store, so the source's fallback of an empty id is never taken.
   */
  method CreateAuditLog(repo: AuditLogRepository, payload: CreateAuditLogPayload, id: string, now: int)
    returns (logId: string)
    modifies repo
    ensures logId == id
    ensures repo.logs == old(repo.logs) + [NewLog(payload, id, now)]
  {
    var log := repo.Create(payload, id, now);
    logId := log.id;
  }

  /**
   * logRevealSuccess: records the reveal for the request's user. Without a user
   * context the source reads a field of `undefined` and the request fails with
   * status 500, leaving the log untouched.
   */
  method LogRevealSuccess(repo: AuditLogRepository, ctx: Option<UserContext>, targetMemberId: string,
                          targetMemberName: string, fieldName: string, ipAddress: Option<string>,
                          userAgent: Option<string>, id: string, now: int)
    returns (r: Result<string>)
    modifies repo
    ensures ctx.None? ==> r == Err(500) && repo.logs == old(repo.logs)
    ensures ctx.Some? ==> (r == Ok(id) && repo.logs == old(repo.logs) +
      [NewLog(RevealSuccessPayload(ctx.value, targetMemberId, targetMemberName, fieldName, ipAddress, userAgent), id, now)])
  {
    if ctx.None? {
      return Err(500);
    }
    var payload := RevealSuccessPayload(ctx.value, targetMemberId, targetMemberName, fieldName, ipAddress, userAgent);
    var logId := CreateAuditLog(repo, payload, id, now);
    r := Ok(logId);
  }

  /** logRevealFailure: records the refused attempt and its reason; status 500 without a user context. */
  method LogRevealFailure(repo: AuditLogRepository, ctx: Option<UserContext>, targetMemberId: string,
                          targetMemberName: string, fieldName: string, reason: string,
                          ipAddress: Option<string>, userAgent: Option<string>, id: string, now: int)
    returns (r: Result<string>)
    modifies repo
    ensures ctx.None? ==> r == Err(500) && repo.logs == old(repo.logs)
    ensures ctx.Some? ==> (r == Ok(id) && repo.logs == old(repo.logs) +
      [NewLog(RevealFailurePayload(ctx.value, targetMemberId, targetMemberName, fieldName, reason, ipAddress, userAgent), id, now)])
  {
    if ctx.None? {
      return Err(500);
    }
    var payload := RevealFailurePayload(ctx.value, targetMemberId, targetMemberName, fieldName, reason, ipAddress, userAgent);
    var logId := CreateAuditLog(repo, payload, id, now);
    r := Ok(logId);
  }

  /** logAction: records a generic action of a user. */
  method LogAction(repo: AuditLogRepository, action: AuditAction, userId: string, userName: string,
                   details: Option<map<string, string>>, id: string, now: int)
    returns (logId: string)
    modifies repo
    ensures logId == id
    ensures repo.logs == old(repo.logs) + [NewLog(ActionPayload(action, userId, userName, details), id, now)]
  {
    logId := CreateAuditLog(repo, ActionPayload(action, userId, userName, details), id, now);
  }

  /** getRevealCountSince: the user's entries stamped at or after `since`, of every action. */
  method GetRevealCountSince(repo: AuditLogRepository, userId: string, since: int) returns (n: nat)
    ensures n == CountSince(repo.logs, userId, since)
  {
    n := repo.CountByUserSince(userId, since);
  }

  /**
   * Every entry the helpers write for a user is counted against that user at
   * its own instant, whatever its action: a failed attempt counts as much as a
   * reveal.
   */
  lemma {:induction false} LoggedEntryIsCounted(logs: seq<AuditLog>, p: CreateAuditLogPayload, id: string,
                                                 now: int, since: int)
    requires since <= now
    ensures CountSince(logs + [NewLog(p, id, now)], p.userId, since) == CountSince(logs, p.userId, since) + 1
  {
    CountSinceAppend(logs, NewLog(p, id, now), p.userId, since);
  }

  /** An entry about another user leaves a user's count as it was. */
  lemma {:induction false} OtherUsersEntryIsNotCounted(logs: seq<AuditLog>, p: CreateAuditLogPayload, id: string,
                                                        now: int, userId: string, since: int)
    requires p.userId != userId
    ensures CountSince(logs + [NewLog(p, id, now)], userId, since) == CountSince(logs, userId, since)
  {
    CountSinceAppend(logs, NewLog(p, id, now), userId, since);
  }
}

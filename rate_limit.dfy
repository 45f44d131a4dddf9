/**
 * The reveal rate limit: at most 60 audit entries per user in the minute before
 * the request. The clock is the parameter `now` (milliseconds since the epoch).
 */
module RateLimit {
  import opened Wrappers
  import opened Entities
  import opened AuditLogs
  import opened Helpers
  import Audit

  const WindowMs: nat := 60 * 1000
  const MaxRevealsPerWindow: nat := 60

  /** The verdict of checkRevealRateLimit. */
  datatype RateCheck =
    | Allowed
    | Rejected(status: int, retryAfter: Option<nat>)

  /** The whole seconds, rounded up, until the current minute of the clock ends. */
  function RetryAfter(now: nat): (s: nat)
    ensures 1 <= s <= 60
    ensures (s - 1) * 1000 < WindowMs - now % WindowMs <= s * 1000
  {
    CeilDiv(WindowMs - now % WindowMs, 1000)
  }

  /**
   * The decision on a request whose user has `count` entries in the window:
   * 401 without a user, 429 with a retry delay from the 60th entry on.
   */
  function RateDecision(ctx: Option<UserContext>, count: nat, now: nat): (r: RateCheck)
    ensures r == Rejected(401, None) <==> ctx.None?
    ensures r.Rejected? && r.status == 429 <==> ctx.Some? && count >= MaxRevealsPerWindow
    ensures r.Allowed? <==> ctx.Some? && count < MaxRevealsPerWindow
    ensures r.Rejected? && r.status == 429 ==> r.retryAfter == Some(RetryAfter(now))
  {
    if ctx.None? then Rejected(401, None)
    else if count >= MaxRevealsPerWindow then Rejected(429, Some(RetryAfter(now)))
    else Allowed
  }

  /** checkRevealRateLimit: counts the user's entries since one window ago and decides. */
  method CheckRevealRateLimit(repo: AuditLogRepository, ctx: Option<UserContext>, now: nat) returns (r: RateCheck)
    ensures ctx.None? ==> r == Rejected(401, None)
    ensures ctx.Some? ==> r == RateDecision(ctx, CountSince(repo.logs, ctx.value.userId, now - WindowMs), now)
  {
    if ctx.None? {
      return Rejected(401, None);
    }
    var count := Audit.GetRevealCountSince(repo, ctx.value.userId, now - WindowMs);
    r := RateDecision(ctx, count, now);
  }

  /** `Math.max(0, 60 - count)`. */
  function Remaining(count: nat): (n: nat)
    ensures n <= MaxRevealsPerWindow
    ensures n == 0 <==> count >= MaxRevealsPerWindow
    ensures n > 0 ==> count + n == MaxRevealsPerWindow
  {
    if count >= MaxRevealsPerWindow then 0 else MaxRevealsPerWindow - count
  }

  /** getRemainingReveals: what is left of the user's allowance in the current window. */
  method GetRemainingReveals(repo: AuditLogRepository, userId: string, now: nat) returns (n: nat)
    ensures n == Remaining(CountSince(repo.logs, userId, now - WindowMs))
  {
    var count := Audit.GetRevealCountSince(repo, userId, now - WindowMs);
    n := Remaining(count);
  }

  /** For a known user the check lets a request through exactly when some allowance remains. */
  lemma AllowedIffRemaining(ctx: UserContext, count: nat, now: nat)
    ensures RateDecision(Some(ctx), count, now).Allowed? <==> Remaining(count) > 0
  {
  }

  /**
   * Once a user has 60 entries inside the window, a reveal at the same instant
   * is refused with 429, and logging one more entry does not lift the refusal.
   */
  lemma {:induction false} LimitStaysReached(logs: seq<AuditLog>, ctx: UserContext, p: CreateAuditLogPayload,
                                             id: string, now: nat)
    requires CountSince(logs, ctx.userId, now - WindowMs) >= MaxRevealsPerWindow
    ensures RateDecision(Some(ctx), CountSince(logs, ctx.userId, now - WindowMs), now) == Rejected(429, Some(RetryAfter(now)))
    ensures RateDecision(Some(ctx), CountSince(logs + [NewLog(p, id, now)], ctx.userId, now - WindowMs), now) == Rejected(429, Some(RetryAfter(now)))
  {
    CountSinceAppend(logs, NewLog(p, id, now), ctx.userId, now - WindowMs);
  }

  /** Each logged entry of the user inside the window uses up one unit of the allowance, until none is left. */
  lemma {:induction false} LoggingUsesAllowance(logs: seq<AuditLog>, p: CreateAuditLogPayload, id: string, now: nat)
    ensures var before := Remaining(CountSince(logs, p.userId, now - WindowMs));
            var after := Remaining(CountSince(logs + [NewLog(p, id, now)], p.userId, now - WindowMs));
            after == if before == 0 then 0 else before - 1
  {
    Audit.LoggedEntryIsCounted(logs, p, id, now, now - WindowMs);
  }
}

/**
 * Server-side request guards: schema validation with its error report, the
 * ability guard and the user-context guard.
 *
 * A schema is represented by the outcome of its `safeParse`: either the parsed
 * data or the list of issues it found. An issue's path is a list of keys; a
 * numeric key (an array index) stands as its decimal string, which is how
 * `join('.')` writes it.
 */
module Validation {
  import opened Wrappers
  import opened Seqs
  import Casl

  datatype Issue = Issue(path: seq<string>, message: string)

  /** The outcome of `schema.safeParse(data)`. */
  datatype SafeParse<T> = Success(data: T) | Failure(issues: seq<Issue>)

  /** The outcome of validateWithSchema: the parsed data, or status 400 with the grouped messages. */
  datatype Validated<T> = Valid(data: T) | Invalid(status: int, errors: map<string, seq<string>>)

  /** The key an issue is reported under: its dot-joined path, or "_root" when that is empty. */
  function IssueKey(issue: Issue): (k: string)
    ensures k != ""
    ensures JoinDot(issue.path) != "" ==> k == JoinDot(issue.path)
  {
    var joined := JoinDot(issue.path);
    if joined == "" then "_root" else joined
  }

  /** The keys that occur among the issues. */
  function KeysOf(issues: seq<Issue>): set<string>
  {
    set j | 0 <= j < |issues| :: IssueKey(issues[j])
  }

  /** The messages of the issues reported under `k`, in the order of the issues. */
  function MessagesAt(issues: seq<Issue>, k: string): seq<string>
  {
    if issues == [] then []
    else
      var last := issues[|issues| - 1];
      MessagesAt(issues[..|issues| - 1], k) + (if IssueKey(last) == k then [last.message] else [])
  }

  /** The report formatZodErrors builds: every key that occurs, with its messages in issue order. */
  function GroupedErrors(issues: seq<Issue>): (errors: map<string, seq<string>>)
    ensures errors.Keys == KeysOf(issues)
    ensures forall k :: k in errors ==> errors[k] == MessagesAt(issues, k)
  {
    map k | k in KeysOf(issues) :: MessagesAt(issues, k)
  }

  /** A key that no issue is reported under has no messages. */
  lemma {:induction false} MessagesAtUnusedKey(issues: seq<Issue>, k: string)
    requires k !in KeysOf(issues)
    ensures MessagesAt(issues, k) == []
  {
    if issues != [] {
      var prefix := issues[..|issues| - 1];
      assert KeysOf(prefix) <= KeysOf(issues) by {
        forall key | key in KeysOf(prefix) ensures key in KeysOf(issues) {
          var j :| 0 <= j < |prefix| && IssueKey(prefix[j]) == key;
          assert issues[j] == prefix[j];
        }
      }
      MessagesAtUnusedKey(prefix, k);
      assert IssueKey(issues[|issues| - 1]) in KeysOf(issues);
    }
  }

  /** The keys of a prefix followed by one more issue are the prefix's keys and that issue's key. */
  lemma KeysOfSnoc(issues: seq<Issue>, i: nat)
    requires i < |issues|
    ensures KeysOf(issues[..i + 1]) == KeysOf(issues[..i]) + {IssueKey(issues[i])}
  {
    var prefix, longer := issues[..i], issues[..i + 1];
    forall k | k in KeysOf(longer) ensures k in KeysOf(prefix) + {IssueKey(issues[i])} {
      var j :| 0 <= j < |longer| && IssueKey(longer[j]) == k;
      if j < i {
        assert longer[j] == prefix[j];
      }
    }
    forall k | k in KeysOf(prefix) ensures k in KeysOf(longer) {
      var j :| 0 <= j < |prefix| && IssueKey(prefix[j]) == k;
      assert longer[j] == prefix[j];
    }
    assert longer[i] == issues[i];
  }

  /** One more issue adds its message at the end of its own key's list and changes no other key. */
  lemma GroupedErrorsStep(issues: seq<Issue>, i: nat)
    requires i < |issues|
    ensures var errors := GroupedErrors(issues[..i]);
            var key := IssueKey(issues[i]);
            GroupedErrors(issues[..i + 1]) ==
              errors[key := (if key in errors then errors[key] else []) + [issues[i].message]]
  {
    var prefix, longer := issues[..i], issues[..i + 1];
    var key := IssueKey(issues[i]);
    var errors := GroupedErrors(prefix);
    var next := errors[key := (if key in errors then errors[key] else []) + [issues[i].message]];
    assert longer[..i] == prefix;
    KeysOfSnoc(issues, i);
    if key !in KeysOf(prefix) {
      MessagesAtUnusedKey(prefix, key);
    }
    forall k | k in next ensures GroupedErrors(longer)[k] == next[k] {
      assert MessagesAt(longer, k) == MessagesAt(prefix, k) + (if key == k then [issues[i].message] else []);
    }
    assert GroupedErrors(longer).Keys == next.Keys;
  }

  /**
   * formatZodErrors: walks the issues in order and appends each message to the
   * list of its key, creating the list on the key's first issue.
   */
  method FormatZodErrors(issues: seq<Issue>) returns (errors: map<string, seq<string>>)
    ensures errors == GroupedErrors(issues)
  {
    errors := map[];
    for i := 0 to |issues|
      invariant errors == GroupedErrors(issues[..i])
    {
      var path := IssueKey(issues[i]);
      if path !in errors {
        errors := errors[path := []];
      }
      GroupedErrorsStep(issues, i);
      errors := errors[path := errors[path] + [issues[i].message]];
    }
    assert issues[..|issues|] == issues;
  }

  /** validateWithSchema: the parsed data, or status 400 with the formatted issues. */
  method ValidateWithSchema<T>(parsed: SafeParse<T>) returns (r: Validated<T>)
    ensures parsed.Success? ==> r == Valid(parsed.data)
    ensures parsed.Failure? ==> r == Invalid(400, GroupedErrors(parsed.issues))
  {
    if parsed.Failure? {
      var formatted := FormatZodErrors(parsed.issues);
      return Invalid(400, formatted);
    }
    r := Valid(parsed.data);
  }

  // ---------------------------------------------------------------------------
  // Every issue is reported exactly once
  // ---------------------------------------------------------------------------

  /** The total number of messages listed under the keys of `keys`. */
  function TotalMessages(issues: seq<Issue>, keys: seq<string>): nat
  {
    if keys == [] then 0 else |MessagesAt(issues, keys[0])| + TotalMessages(issues, keys[1..])
  }

  /** How often `k` occurs in `keys`. */
  function Occurrences(keys: seq<string>, k: string): nat
  {
    if keys == [] then 0 else (if keys[0] == k then 1 else 0) + Occurrences(keys[1..], k)
  }

  lemma {:induction false} OccursOnce(keys: seq<string>, k: string)
    requires NoDuplicates(keys) && k in keys
    ensures Occurrences(keys, k) == 1
  {
    if keys[0] == k {
      OccursNever(keys[1..], k);
    } else {
      OccursOnce(keys[1..], k);
    }
  }

  lemma {:induction false} OccursNever(keys: seq<string>, k: string)
    requires k !in keys
    ensures Occurrences(keys, k) == 0
  {
    if keys != [] {
      OccursNever(keys[1..], k);
    }
  }

  /** Adding an issue at the end adds one message under each occurrence of its key. */
  lemma {:induction false} TotalMessagesSnoc(issues: seq<Issue>, x: Issue, keys: seq<string>)
    ensures TotalMessages(issues + [x], keys) == TotalMessages(issues, keys) + Occurrences(keys, IssueKey(x))
  {
    assert (issues + [x])[..|issues|] == issues;
    if keys != [] {
      TotalMessagesSnoc(issues, x, keys[1..]);
    }
  }

  lemma {:induction false} TotalMessagesNone(keys: seq<string>)
    ensures TotalMessages([], keys) == 0
  {
    if keys != [] {
      TotalMessagesNone(keys[1..]);
    }
  }

  /** Listing each key once, the lists hold as many messages as there are issues. */
  lemma {:induction false} TotalMessagesIsIssueCount(issues: seq<Issue>, keys: seq<string>)
    requires NoDuplicates(keys)
    requires forall j :: 0 <= j < |issues| ==> IssueKey(issues[j]) in keys
    ensures TotalMessages(issues, keys) == |issues|
  {
    if issues == [] {
      TotalMessagesNone(keys);
    } else {
      var prefix, last := issues[..|issues| - 1], issues[|issues| - 1];
      assert issues == prefix + [last];
      assert forall j :: 0 <= j < |prefix| ==> prefix[j] == issues[j];
      TotalMessagesIsIssueCount(prefix, keys);
      TotalMessagesSnoc(prefix, last, keys);
      OccursOnce(keys, IssueKey(last));
    }
  }

  /**
   * The report loses and duplicates nothing: over its keys, each listed once,
   * the message lists hold exactly as many messages as there were issues.
   */
  lemma FormattedReportCountsEveryIssue(issues: seq<Issue>, keys: seq<string>)
    requires NoDuplicates(keys)
    requires forall k :: k in keys <==> k in GroupedErrors(issues)
    ensures TotalMessages(issues, keys) == |issues|
  {
    forall j | 0 <= j < |issues| ensures IssueKey(issues[j]) in keys {
      assert IssueKey(issues[j]) in KeysOf(issues);
    }
    TotalMessagesIsIssueCount(issues, keys);
  }

  // ---------------------------------------------------------------------------
  // Guards
  // ---------------------------------------------------------------------------

  /** requireAbility: 401 without an ability, before any check; 403 when the ability does not allow it. */
  function RequireAbility(ability: Option<Casl.Ability>, action: Casl.Action, subject: Casl.Subject): (o: Outcome)
    ensures ability.None? ==> o == Fail(401)
    ensures ability.Some? ==> (o == Pass <==> Casl.Can(ability.value, action, subject, None))
    ensures ability.Some? && o.Fail? ==> o == Fail(403)
  {
    if ability.None? then Fail(401)
    else if !Casl.Can(ability.value, action, subject, None) then Fail(403)
    else Pass
  }

  /** getUserContext: the request's user context, or 401 when there is none. */
  function GetUserContext<C>(ctx: Option<C>): (r: Result<C>)
    ensures ctx.None? <==> r == Err(401)
    ensures ctx.Some? ==> r == Ok(ctx.value)
  {
    if ctx.None? then Err(401) else Ok(ctx.value)
  }
}

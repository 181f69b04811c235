/**
 * The application's error registry: it classifies a thrown value (network,
 * HTTP status, validation, permission), keeps a log of the errors it has
 * handled, tells its listeners about each one, and counts the log by type
 * and by severity. Also the retry helper with its exponential back-off.
 *
 * The clock, the random id, the page URL and the user agent are passed in
 * as an `Env`; a timestamp is a number of milliseconds. Listeners are
 * identified by number, and which of them throw is a parameter.
 */
module ErrorHandler {
  import opened Common
  import opened JsValue

  // ------------------------------------------------------------ classification

  const Network := "NETWORK_ERROR"
  const Validation := "VALIDATION_ERROR"
  const Permission := "PERMISSION_ERROR"
  const NotFound := "NOT_FOUND_ERROR"
  const Server := "SERVER_ERROR"
  const Client := "CLIENT_ERROR"
  const UnknownType := "UNKNOWN_ERROR"

  const Low := "low"
  const Medium := "medium"
  const High := "high"
  const Critical := "critical"

  /** The type, severity and user-facing message an error is given. */
  datatype Category = Category(kind: string, severity: string, userMessage: string)

  const UnknownCategory := Category(UnknownType, Medium, "An unexpected error occurred")
  const NetworkCategory := Category(Network, High, "Network connection error. Please check your internet connection.")
  const NotFoundCategory := Category(NotFound, Medium, "The requested resource was not found.")
  const ClientCategory := Category(Client, High, "There was a problem with your request.")
  const ServerCategory := Category(Server, High, "Server error. Please try again later.")
  const ValidationCategory := Category(Validation, Medium, "Please check your input and try again.")
  const PermissionCategory := Category(Permission, High, "You do not have permission to perform this action.")

  /**
   * `error.message?.includes(word)`: a missing message is falsy; `None` when
   * the message has no `includes` method (a TypeError).
   */
  function MessageIncludes(message: Value, word: string): Option<bool>
  {
    if IsNullish(message) then Some(false) else Includes(message, word)
  }

  /** `name === marker || message?.includes(word)`, evaluated left to right. */
  function Marked(error: Value, marker: string, word: string): Option<bool>
  {
    if Property(error, "name") == Str(marker) then Some(true)
    else MessageIncludes(Property(error, "message"), word)
  }

  /** The switch on `Math.floor(error.status / 100)`; a status that is not a number matches no case. */
  function StatusCategory(status: Value): Category
  {
    match ToNumber(ToPrimitive(status))
    case None => UnknownCategory
    case Some(n) =>
      if n / 100 == 4 then (if status == Num(404) then NotFoundCategory else ClientCategory)
      else if n / 100 == 5 then ServerCategory
      else UnknownCategory
  }

  /**
   * The branches of `categorizeError` in their order: the network marker,
   * then a truthy status, then the validation marker, then the permission
   * marker. `None` where it throws: a null or undefined error, or a
   * message that cannot be searched.
   */
  function Classify(error: Value): Option<Category>
  {
    if IsNullish(error) then None
    else
      match Marked(error, "NetworkError", "fetch")
      case None => None
      case Some(network) =>
        if network then Some(NetworkCategory)
        else if Truthy(Property(error, "status")) then Some(StatusCategory(Property(error, "status")))
        else
          match Marked(error, "ValidationError", "validation")
          case None => None
          case Some(validation) =>
            if validation then Some(ValidationCategory)
            else
              match Marked(error, "PermissionError", "permission")
              case None => None
              case Some(permission) => Some(if permission then PermissionCategory else UnknownCategory)
  }

  /** The network marker wins over any status and any other marker. */
  lemma NetworkTakesPrecedence(error: Value)
    requires !IsNullish(error)
    requires Property(error, "name") == Str("NetworkError")
             || (Property(error, "message").Str? && Contains(Property(error, "message").s, "fetch"))
    ensures Classify(error) == Some(NetworkCategory)
  {
  }

  /** Without a network marker, a numeric status decides: 404, other 4xx, 5xx, and anything else. */
  lemma HttpStatusMapping(error: Value, status: int)
    requires !IsNullish(error) && Marked(error, "NetworkError", "fetch") == Some(false)
    requires Property(error, "status") == Num(status) && status != 0
    ensures status == 404 ==> Classify(error) == Some(NotFoundCategory)
    ensures status / 100 == 4 && status != 404 ==> Classify(error) == Some(ClientCategory)
    ensures status / 100 == 5 ==> Classify(error) == Some(ServerCategory)
    ensures status / 100 != 4 && status / 100 != 5 ==> Classify(error) == Some(UnknownCategory)
  {
    assert ToNumber(ToPrimitive(Num(status))) == Some(status);
  }

  /** The status test is strict: the string "404" is a client error, not "not found". */
  lemma StringStatusIsClientError(error: Value)
    requires !IsNullish(error) && Marked(error, "NetworkError", "fetch") == Some(false)
    requires Property(error, "status") == Str("404")
    ensures Classify(error) == Some(ClientCategory)
  {
    StringNumber404();
    assert StatusCategory(Str("404")) == ClientCategory;
  }

  lemma StringNumber404()
    ensures ToNumber(ToPrimitive(Str("404"))) == Some(404)
  {
    var t := "404";
    assert TrimStart(t) == t && TrimEnd(t) == t;
    assert t[..2] == "40" && "40"[..1] == "4" && "4"[..0] == [];
    assert ParseDigits("4") == 4;
    assert ParseDigits("40") == 40;
    assert ParseDigits(t) == 404;
  }

  /** The validation and permission categories are only given when there is neither a network marker nor a status. */
  lemma MarkersNeedNoStatus(error: Value)
    requires Classify(error) == Some(ValidationCategory) || Classify(error) == Some(PermissionCategory)
    ensures Marked(error, "NetworkError", "fetch") == Some(false)
    ensures !Truthy(Property(error, "status"))
  {
  }

  /** No branch gives the critical severity, so no error is ever reported as fatal. */
  lemma NeverCritical(error: Value)
    requires Classify(error).Some?
    ensures Classify(error).value.severity != Critical
    ensures Classify(error).value.severity in {Medium, High}
  {
  }

  // ------------------------------------------------------------ error records

  /** What the environment supplies: the time in milliseconds, the random id, the page URL, the user agent. */
  datatype Env = Env(now: int, id: string, url: string, userAgent: string)

  datatype ErrorInfo = ErrorInfo(
    id: string, kind: string, severity: string, timestamp: int,
    userMessage: string, technicalMessage: Value, stack: Value,
    context: Record, originalError: Value)

  /** `categorizeError`: the category plus the error's message, stack and context. */
  function CategorizeError(error: Value, context: Record, env: Env): (r: Option<ErrorInfo>)
    ensures r.Some? <==> Classify(error).Some?
    ensures r.Some? ==> r.value.kind == Classify(error).value.kind
                        && r.value.severity == Classify(error).value.severity
                        && r.value.originalError == error && r.value.timestamp == env.now
    ensures r.Some? ==> r.value.technicalMessage == Or(Property(error, "message"), Str("Unknown error"))
  {
    match Classify(error)
    case None => None
    case Some(c) =>
      Some(ErrorInfo(
        "error_" + IntToString(env.now) + "_" + env.id, c.kind, c.severity, env.now,
        c.userMessage, Or(Property(error, "message"), Str("Unknown error")), Property(error, "stack"),
        Merge([("url", Str(env.url)), ("userAgent", Str(env.userAgent))], context), error))
  }

  /** The console method `logError` uses for a severity. */
  function LogMethod(severity: string): (r: string)
    ensures r == "error" <==> severity == Critical || severity == High
    ensures r == "warn" <==> severity == Medium
  {
    if severity == Critical || severity == High then "error"
    else if severity == Medium then "warn"
    else "log"
  }

  // ------------------------------------------------------------ counting

  /** A count per key, in the order keys were first seen, as the stats objects hold them. */
  type Tally = seq<(string, int)>

  /** `t[k] || 0`. */
  function CountIn(t: Tally, k: string): int
    decreases |t|
  {
    if t == [] then 0 else if t[0].0 == k then t[0].1 else CountIn(t[1..], k)
  }

  function Total(t: Tally): int
    decreases |t|
  {
    if t == [] then 0 else t[0].1 + Total(t[1..])
  }

  /** `t[k] = (t[k] || 0) + 1`. */
  function Bump(t: Tally, k: string): (r: Tally)
    ensures Total(r) == Total(t) + 1
    ensures forall j :: CountIn(r, j) == CountIn(t, j) + (if j == k then 1 else 0)
    decreases |t|
  {
    if t == [] then [(k, 1)]
    else if t[0].0 == k then
      var r := [(k, t[0].1 + 1)] + t[1..];
      assert r[1..] == t[1..];
      r
    else
      var rest := Bump(t[1..], k);
      var r := [t[0]] + rest;
      assert r[1..] == rest;
      r
  }

  /** The counts of a list of keys, added one key after another. */
  function Tallied(keys: seq<string>): Tally
    decreases |keys|
  {
    if keys == [] then [] else Bump(Tallied(keys[..|keys| - 1]), keys[|keys| - 1])
  }

  /** The counts add up to the number of keys. */
  lemma {:induction false} TalliedTotal(keys: seq<string>)
    ensures Total(Tallied(keys)) == |keys|
    decreases |keys|
  {
    if keys != [] {
      TalliedTotal(keys[..|keys| - 1]);
    }
  }

  /** Each key's count is the number of times it occurs. */
  lemma {:induction false} TalliedCount(keys: seq<string>, k: string)
    ensures CountIn(Tallied(keys), k) == Count(keys, k)
    decreases |keys|
  {
    if keys != [] {
      var n := |keys| - 1;
      TalliedCount(keys[..n], k);
      assert keys == keys[..n] + [keys[n]];
      CountSnoc(keys[..n], keys[n], k);
    }
  }

  function Kinds(es: seq<ErrorInfo>): (r: seq<string>)
    ensures |r| == |es| && forall i :: 0 <= i < |es| ==> r[i] == es[i].kind
  {
    seq(|es|, i requires 0 <= i < |es| => es[i].kind)
  }

  function Severities(es: seq<ErrorInfo>): (r: seq<string>)
    ensures |r| == |es| && forall i :: 0 <= i < |es| ==> r[i] == es[i].severity
  {
    seq(|es|, i requires 0 <= i < |es| => es[i].severity)
  }

  const Day := 24 * 60 * 60 * 1000

  predicate Recent(e: ErrorInfo, now: int) { now - e.timestamp < Day }

  datatype ErrorStats = ErrorStats(total: int, byType: Tally, bySeverity: Tally, recent: int)

  /** The result of removing the first occurrence of `x`, as `splice(indexOf(x), 1)` does. */
  function RemoveFirst(xs: seq<nat>, x: nat): (r: seq<nat>)
    ensures x !in xs ==> r == xs
    ensures x in xs ==> |r| == |xs| - 1 && multiset(r) == multiset(xs) - multiset{x}
    ensures x in xs ==> var i := IndexOf(xs, x); r == xs[..i] + xs[i + 1..] && x !in xs[..i]
  {
    var i := IndexOf(xs, x);
    if i < 0 then xs
    else
      assert xs == xs[..i] + [xs[i]] + xs[i + 1..];
      xs[..i] + xs[i + 1..]
  }

  // ------------------------------------------------------------ the registry

  class Registry {
    var errors: seq<ErrorInfo>
    var listeners: seq<nat>

    constructor()
      ensures errors == [] && listeners == []
    {
      errors := [];
      listeners := [];
    }

    method AddListener(listener: nat)
      modifies this
      ensures listeners == old(listeners) + [listener] && errors == old(errors)
    {
      listeners := listeners + [listener];
    }

    /** `removeListener`: the first registration of `listener` goes; an absent one changes nothing. */
    method RemoveListener(listener: nat)
      modifies this
      ensures listeners == RemoveFirst(old(listeners), listener) && errors == old(errors)
    {
      var index := IndexOf(listeners, listener);
      if index > -1 {
        listeners := listeners[..index] + listeners[index + 1..];
      }
    }

    /**
     * `notifyListeners`: every listener is called in order; one that throws
     * is logged and the rest are still called.
     */
    method NotifyListeners(failing: set<nat>) returns (called: seq<nat>, failed: seq<nat>)
      ensures called == listeners
      ensures failed == Filter(listeners, (l: nat) => l in failing)
    {
      called := [];
      failed := [];
      for i := 0 to |listeners|
        invariant called == listeners[..i]
        invariant failed == Filter(listeners[..i], (l: nat) => l in failing)
      {
        assert listeners[..i + 1] == listeners[..i] + [listeners[i]];
        FilterSnoc(listeners[..i], listeners[i], (l: nat) => l in failing);
        called := called + [listeners[i]];
        if listeners[i] in failing {
          failed := failed + [listeners[i]];
        }
      }
      assert listeners[..|listeners|] == listeners;
    }

    /** `handleError`: one new entry at the end of the log, and every listener told about it. */
    method HandleError(error: Value, context: Record, env: Env, failing: set<nat>)
        returns (info: Option<ErrorInfo>, called: seq<nat>)
      modifies this
      ensures info == CategorizeError(error, context, env)
      ensures info.Some? ==> errors == old(errors) + [info.value] && called == listeners
      ensures info.None? ==> errors == old(errors) && called == []
      ensures listeners == old(listeners)
    {
      info := CategorizeError(error, context, env);
      called := [];
      if info.Some? {
        errors := errors + [info.value];
        var failed;
        called, failed := NotifyListeners(failing);
      }
    }

    /** `getErrorsByType`: the entries of that type, in log order. */
    function ErrorsByType(kind: string): (r: seq<ErrorInfo>)
      reads this
      ensures IsSubsequence(r, errors)
      ensures forall e :: e in r <==> e in errors && e.kind == kind
    {
      FilterIsSubsequence(errors, (e: ErrorInfo) => e.kind == kind);
      assert forall e :: e in Filter(errors, (e: ErrorInfo) => e.kind == kind) <==> e in errors && e.kind == kind by {
        forall e { FilterMembers(errors, (e: ErrorInfo) => e.kind == kind, e); }
      }
      Filter(errors, (e: ErrorInfo) => e.kind == kind)
    }

    /** `getErrorsBySeverity`: the entries of that severity, in log order. */
    function ErrorsBySeverity(severity: string): (r: seq<ErrorInfo>)
      reads this
      ensures IsSubsequence(r, errors)
      ensures forall e :: e in r <==> e in errors && e.severity == severity
    {
      FilterIsSubsequence(errors, (e: ErrorInfo) => e.severity == severity);
      assert forall e :: e in Filter(errors, (e: ErrorInfo) => e.severity == severity)
                         <==> e in errors && e.severity == severity by {
        forall e { FilterMembers(errors, (e: ErrorInfo) => e.severity == severity, e); }
      }
      Filter(errors, (e: ErrorInfo) => e.severity == severity)
    }

    method ClearErrors()
      modifies this
      ensures errors == [] && listeners == old(listeners)
    {
      errors := [];
    }

    /** `getErrorStats`: the total, the counts by type and by severity, and the entries of the last day. */
    method GetErrorStats(now: int) returns (stats: ErrorStats)
      ensures stats.total == |errors|
      ensures stats.byType == Tallied(Kinds(errors)) && stats.bySeverity == Tallied(Severities(errors))
      ensures stats.recent == |Filter(errors, (e: ErrorInfo) => Recent(e, now))|
    {
      var byType: Tally := [];
      var bySeverity: Tally := [];
      for i := 0 to |errors|
        invariant byType == Tallied(Kinds(errors[..i]))
        invariant bySeverity == Tallied(Severities(errors[..i]))
      {
        var e := errors[i];
        assert Kinds(errors[..i + 1])[..i] == Kinds(errors[..i]);
        assert Severities(errors[..i + 1])[..i] == Severities(errors[..i]);
        byType := Bump(byType, e.kind);
        bySeverity := Bump(bySeverity, e.severity);
      }
      assert errors[..|errors|] == errors;
      stats := ErrorStats(|errors|, byType, bySeverity, |Filter(errors, (e: ErrorInfo) => Recent(e, now))|);
    }
  }

  /** The counts by type, and those by severity, each add up to the number of errors. */
  lemma StatsAddUp(errors: seq<ErrorInfo>, kind: string)
    ensures Total(Tallied(Kinds(errors))) == |errors| && Total(Tallied(Severities(errors))) == |errors|
    ensures CountIn(Tallied(Kinds(errors)), kind) == Count(Kinds(errors), kind)
  {
    TalliedTotal(Kinds(errors));
    TalliedTotal(Severities(errors));
    TalliedCount(Kinds(errors), kind);
  }

  // ------------------------------------------------------------ withRetry

  datatype Outcome = Succeeds(value: Value) | Fails(error: Value)

  datatype Settled = Returned(value: Value) | Threw(error: Value)

  function Pow2(k: nat): (r: nat)
    ensures r >= 1
  {
    if k == 0 then 1 else 2 * Pow2(k - 1)
  }

  /** The waits after the first `n` failed attempts: `delay * 2^(k-1)` after attempt k. */
  function Schedule(delay: int, n: nat): (r: seq<int>)
    ensures |r| == n
    ensures forall k :: 0 <= k < n ==> r[k] == delay * Pow2(k)
  {
    seq(n, k requires 0 <= k < n => delay * Pow2(k))
  }

  /** Each wait doubles the one before. */
  lemma ScheduleDoubles(delay: int, n: nat, k: nat)
    requires k + 1 < n
    ensures Schedule(delay, n)[k + 1] == 2 * Schedule(delay, n)[k]
  {
  }

  /**
   * `withRetry`: `outcomes[k]` is what the operation does on its (k+1)-th
   * call. It stops at the first success, or rethrows the error of call
   * `maxRetries`; between two calls it waits by the schedule.
   */
  method WithRetry(outcomes: seq<Outcome>, maxRetries: int, delay: int)
      returns (result: Settled, calls: nat, waits: seq<int>)
    requires |outcomes| >= maxRetries
    ensures maxRetries < 1 ==> calls == 0 && result == Threw(Undefined)
    ensures maxRetries >= 1 ==> 1 <= calls <= maxRetries
    ensures forall k :: 0 <= k < calls - 1 ==> outcomes[k].Fails?
    ensures result.Returned? ==> outcomes[calls - 1] == Succeeds(result.value)
    ensures calls >= 1 && result.Threw? ==> calls == maxRetries && outcomes[calls - 1] == Fails(result.error)
    ensures waits == Schedule(delay, if calls == 0 then 0 else calls - 1)
  {
    var lastError := Undefined;
    calls := 0;
    waits := [];
    var attempt := 1;
    while attempt <= maxRetries
      invariant 1 <= attempt && (maxRetries >= 1 ==> attempt <= maxRetries) && (maxRetries < 1 ==> attempt == 1)
      invariant calls == attempt - 1 && calls <= |outcomes|
      invariant maxRetries < 1 ==> lastError == Undefined
      invariant forall k :: 0 <= k < calls ==> outcomes[k].Fails?
      invariant waits == Schedule(delay, calls)
      decreases maxRetries - attempt
    {
      calls := calls + 1;
      match outcomes[attempt - 1]
      case Succeeds(v) =>
        return Returned(v), calls, waits;
      case Fails(e) =>
        lastError := e;
        if attempt == maxRetries {
          return Threw(e), calls, waits;
        }
        waits := waits + [delay * Pow2(attempt - 1)];
        attempt := attempt + 1;
    }
    result := Threw(lastError);
  }

  /** With the defaults (three tries, one second) the waits are one and then two seconds. */
  lemma DefaultSchedule()
    ensures Schedule(1000, 2) == [1000, 2000]
  {
    assert Pow2(1) == 2;
  }
}

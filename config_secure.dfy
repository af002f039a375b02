/**
 * The shared backend helper layer: the `.env` loader, the sliding-window rate
 * limiter over the request log, the TTL cache over `data_cache`, and the
 * string-rule input validator. Time is an abstract clock `now` in seconds.
 */
module SecureConfig {
  import opened Wrappers
  import opened Strings

  // ---------------------------------------------------------------------------
  // `.env` loading
  // ---------------------------------------------------------------------------

  /**
   * One `.env` line: used only when it contains `=` and does not start with `#`;
   * then split at the first `=` and both halves trimmed.
   */
  function ParseEnvLine(line: string): (r: Option<(string, string)>)
    ensures r.Some? <==> '=' in line && line[0] != '#'
    ensures r.Some? ==> exists k :: 0 <= k < |line| && line[k] == '=' && '=' !in line[..k] &&
                                   r.value == (Trim(line[..k]), Trim(line[k + 1..]))
  {
    match IndexOf(line, '=')
    case None => None
    case Some(k) =>
      if line[0] == '#' then None
      else
        assert line[k] == '=' && '=' !in line[..k];
        Some((Trim(line[..k]), Trim(line[k + 1..])))
  }

  /** `line` assigns `key`. */
  predicate BindsKey(line: string, key: string) {
    ParseEnvLine(line).Some? && ParseEnvLine(line).value.0 == key
  }

  /** The environment after the loader has processed `lines` on top of `env0`, one line at a time. */
  function EnvAfter(env0: map<string, string>, lines: seq<string>): map<string, string>
    decreases |lines|
  {
    if lines == [] then env0
    else EnvStep(EnvAfter(env0, lines[..|lines| - 1]), lines[|lines| - 1])
  }

  /** One iteration of the loader: a usable line sets its key, any other line is skipped. */
  function EnvStep(env: map<string, string>, line: string): map<string, string> {
    match ParseEnvLine(line)
    case None => env
    case Some(kv) => env[kv.0 := kv.1]
  }

  /** The loader loop (config_secure.php lines 6-11) writing `$_ENV` line by line. */
  method LoadEnv(env0: map<string, string>, lines: seq<string>) returns (env: map<string, string>)
    ensures env == EnvAfter(env0, lines)
  {
    env := env0;
    var i := 0;
    while i < |lines|
      invariant 0 <= i <= |lines|
      invariant env == EnvAfter(env0, lines[..i])
    {
      assert lines[..i + 1][..i] == lines[..i];
      assert EnvAfter(env0, lines[..i + 1]) == EnvStep(env, lines[i]);
      match ParseEnvLine(lines[i]) {
        case None =>
        case Some(kv) => env := env[kv.0 := kv.1];
      }
      i := i + 1;
    }
    assert lines[..i] == lines;
  }

  /** The last line that binds a key decides its value: later duplicates overwrite earlier ones. */
  lemma {:induction false} EnvLastBindingWins(env0: map<string, string>, lines: seq<string>, i: nat, key: string)
    requires i < |lines| && BindsKey(lines[i], key)
    requires forall j :: i < j < |lines| ==> !BindsKey(lines[j], key)
    ensures key in EnvAfter(env0, lines)
    ensures EnvAfter(env0, lines)[key] == ParseEnvLine(lines[i]).value.1
    decreases |lines|
  {
    var front := lines[..|lines| - 1];
    if i < |lines| - 1 {
      assert !BindsKey(lines[|lines| - 1], key);
      EnvLastBindingWins(env0, front, i, key);
    }
  }

  /** A key no line binds keeps whatever the environment held before. */
  lemma {:induction false} EnvUnboundKeyKept(env0: map<string, string>, lines: seq<string>, key: string)
    requires forall j :: 0 <= j < |lines| ==> !BindsKey(lines[j], key)
    ensures key in EnvAfter(env0, lines) <==> key in env0
    ensures key in env0 ==> EnvAfter(env0, lines)[key] == env0[key]
    decreases |lines|
  {
    if lines != [] {
      var front := lines[..|lines| - 1];
      assert !BindsKey(lines[|lines| - 1], key);
      EnvUnboundKeyKept(env0, front, key);
    }
  }

  // ---------------------------------------------------------------------------
  // Rate limiter and cache
  // ---------------------------------------------------------------------------

  const RateLimitWindow: int := 3600
  const RateLimitMaxRequests: nat := 100
  const CacheDuration: int := 300

  /** One row of `request_log`. */
  datatype LogEntry = LogEntry(ip: string, timestamp: int)

  /** One row of `data_cache`: the decoded value and its expiry time. */
  datatype CacheRow<V> = CacheRow(value: V, expiresAt: int)

  /** The log entry is from `ip` and newer than `now - RateLimitWindow` (strictly). */
  predicate InWindow(e: LogEntry, ip: string, now: int) {
    e.ip == ip && e.timestamp > now - RateLimitWindow
  }

  /** `SELECT COUNT(*) FROM request_log WHERE ip_address = ? AND timestamp > NOW() - window`. */
  function RecentCount(log: seq<LogEntry>, ip: string, now: int): nat
    decreases |log|
  {
    if log == [] then 0
    else RecentCount(log[..|log| - 1], ip, now) + (if InWindow(log[|log| - 1], ip, now) then 1 else 0)
  }

  /** The value `getCache` returns for `key` at time `now`: a hit only for an unexpired row. */
  function CacheLookup<V>(enabled: bool, cache: map<string, CacheRow<V>>, key: string, now: int): (r: Option<V>)
    ensures r.Some? <==> enabled && key in cache && cache[key].expiresAt > now
    ensures r.Some? ==> r.value == cache[key].value
  {
    if enabled && key in cache && cache[key].expiresAt > now then Some(cache[key].value) else None
  }

  /** The request log and the cache: the two tables the helper layer updates. */
  class SecureStore<V> {
    var requestLog: seq<LogEntry>
    var cache: map<string, CacheRow<V>>
    const cacheEnabled: bool

    constructor (cacheEnabled: bool)
      ensures this.cacheEnabled == cacheEnabled
      ensures requestLog == [] && cache == map[]
    {
      this.cacheEnabled := cacheEnabled;
      requestLog := [];
      cache := map[];
    }

    /**
     * `checkRateLimit($ip)`: rejects (HTTP 429) when the window already holds the
     * maximum number of requests from `ip`; otherwise logs one request at `now`.
     */
    method CheckRateLimit(ip: string, now: int) returns (allowed: bool)
      modifies this`requestLog
      ensures allowed <==> RecentCount(old(requestLog), ip, now) < RateLimitMaxRequests
      ensures requestLog == if allowed then old(requestLog) + [LogEntry(ip, now)] else old(requestLog)
    {
      if RecentCount(requestLog, ip, now) >= RateLimitMaxRequests {
        allowed := false;
      } else {
        requestLog := requestLog + [LogEntry(ip, now)];
        allowed := true;
      }
    }

    /** `getCache($key)`: `None` stands for PHP's `false` (miss, expired, or caching disabled). */
    method GetCache(key: string, now: int) returns (r: Option<V>)
      ensures r.Some? <==> cacheEnabled && key in cache && cache[key].expiresAt > now
      ensures r.Some? ==> r.value == cache[key].value
      ensures r == CacheLookup(cacheEnabled, cache, key, now)
    {
      if cacheEnabled && key in cache && cache[key].expiresAt > now {
        r := Some(cache[key].value);
      } else {
        r := None;
      }
    }

    /** `setCache($key, $value, $duration)`: upsert of the single row for `key`. */
    method SetCache(key: string, value: V, now: int, duration: int := CacheDuration) returns (ok: bool)
      modifies this`cache
      ensures ok == cacheEnabled
      ensures cache == if cacheEnabled then old(cache)[key := CacheRow(value, now + duration)] else old(cache)
    {
      ok := cacheEnabled;
      if cacheEnabled {
        cache := cache[key := CacheRow(value, now + duration)];
      }
    }
  }

  /** Each logged entry in the window adds exactly one to the count. */
  lemma {:induction false} RecentCountAppend(log: seq<LogEntry>, extra: seq<LogEntry>, ip: string, now: int)
    requires forall k :: 0 <= k < |extra| ==> InWindow(extra[k], ip, now)
    ensures RecentCount(log + extra, ip, now) == RecentCount(log, ip, now) + |extra|
    decreases |extra|
  {
    if extra != [] {
      var front := extra[..|extra| - 1];
      assert (log + extra)[..|log + extra| - 1] == log + front;
      assert (log + extra)[|log + extra| - 1] == extra[|extra| - 1];
      assert InWindow(extra[|extra| - 1], ip, now);
      assert forall k :: 0 <= k < |front| ==> front[k] == extra[k];
      RecentCountAppend(log, front, ip, now);
    } else {
      assert log + extra == log;
    }
  }

  /** After `RateLimitMaxRequests` logged requests from one IP inside the window, the next one is rejected. */
  lemma LimitReachedRejects(log: seq<LogEntry>, extra: seq<LogEntry>, ip: string, now: int)
    requires |extra| >= RateLimitMaxRequests
    requires forall k :: 0 <= k < |extra| ==> InWindow(extra[k], ip, now)
    ensures !(RecentCount(log + extra, ip, now) < RateLimitMaxRequests)
  {
    RecentCountAppend(log, extra, ip, now);
  }

  /** Once every request of `ip` is older than the window, the count is zero and `ip` is admitted again. */
  lemma {:induction false} WindowElapsedAdmits(log: seq<LogEntry>, ip: string, now: int)
    requires forall k :: 0 <= k < |log| && log[k].ip == ip ==> log[k].timestamp <= now - RateLimitWindow
    ensures RecentCount(log, ip, now) == 0
    decreases |log|
  {
    if log != [] {
      WindowElapsedAdmits(log[..|log| - 1], ip, now);
    }
  }

  /** Requests from other IPs never count against `ip`. */
  lemma {:induction false} OtherIpsIgnored(log: seq<LogEntry>, other: LogEntry, ip: string, now: int)
    requires other.ip != ip
    ensures RecentCount(log + [other], ip, now) == RecentCount(log, ip, now)
  {
    assert (log + [other])[..|log|] == log;
  }

  /** A value written with `duration` is read back unchanged while `now' < now + duration`, and missed after. */
  lemma SetThenGet<V>(cache: map<string, CacheRow<V>>, key: string, value: V, now: int, duration: int, later: int)
    ensures CacheLookup(true, cache[key := CacheRow(value, now + duration)], key, later) ==
            if later < now + duration then Some(value) else None
  {
  }

  /** `setCache($key, null, 0)` invalidates: any later read of `key` misses. */
  lemma InvalidateMisses<V>(enabled: bool, cache: map<string, CacheRow<V>>, key: string, value: V, now: int, later: int)
    requires later >= now
    ensures CacheLookup(enabled, cache[key := CacheRow(value, now + 0)], key, later) == None
  {
  }

  /** Writing one key leaves what every other key reads unchanged. */
  lemma SetOtherKey<V>(enabled: bool, cache: map<string, CacheRow<V>>, key: string, other: string, row: CacheRow<V>, now: int)
    requires other != key
    ensures CacheLookup(enabled, cache[key := row], other, now) == CacheLookup(enabled, cache, other, now)
  {
  }

  // ---------------------------------------------------------------------------
  // validateInput
  // ---------------------------------------------------------------------------

  /** End (exclusive) of the run of digits starting at `j`. */
  function DigitRunEnd(s: string, j: nat): (k: nat)
    requires j <= |s|
    ensures j <= k <= |s| && AllDigits(s[j..k])
    ensures k < |s| ==> !IsDigit(s[k])
    decreases |s| - j
  {
    if j < |s| && IsDigit(s[j]) then DigitRunEnd(s, j + 1) else j
  }

  /** `/min:\d/` matches at position `i`. */
  predicate MinAt(rule: string, i: nat) {
    i + 5 <= |rule| && rule[i..i + 4] == "min:" && IsDigit(rule[i + 4])
  }

  /** The leftmost position at or after `i` where `/min:\d/` matches, `None` iff there is none. */
  function FindMinRule(rule: string, i: nat): (p: Option<nat>)
    ensures p.None? <==> forall j: nat :: i <= j ==> !MinAt(rule, j)
    ensures p.Some? ==> i <= p.value && MinAt(rule, p.value) &&
                        forall j: nat :: i <= j < p.value ==> !MinAt(rule, j)
    decreases |rule| - i
  {
    if i + 5 > |rule| then None
    else if rule[i..i + 4] == "min:" && IsDigit(rule[i + 4]) then
      assert MinAt(rule, i);
      Some(i)
    else
      assert !MinAt(rule, i);
      FindMinRule(rule, i + 1)
  }

  /**
   * `preg_match('/min:(\d+)/', $rule, $matches)`: `None` iff nothing matches,
   * else the captured group, the longest digit run after the leftmost `min:`
   * that is followed by a digit.
   */
  function MinRule(rule: string): (r: Option<string>)
    ensures r.None? <==> forall j: nat :: !MinAt(rule, j)
    ensures r.Some? ==>
              exists j: nat :: MinAt(rule, j) && (forall j': nat :: j' < j ==> !MinAt(rule, j')) &&
                               r.value == rule[j + 4..DigitRunEnd(rule, j + 4)]
    ensures r.Some? ==> |r.value| >= 1 && AllDigits(r.value) && Contains(rule, "min:" + r.value)
  {
    match FindMinRule(rule, 0)
    case None => None
    case Some(j) =>
      var k := DigitRunEnd(rule, j + 4);
      var d := rule[j + 4..k];
      assert OccursAt(rule, "min:" + d, j) by {
        assert rule[j..k] == rule[j..j + 4] + rule[j + 4..k];
      }
      ContainsSpec(rule, "min:" + d);
      Some(d)
  }

  /**
   * The message `validateInput` leaves for one `(field, rule)` pair: a missing
   * field only meets `required`; a present one runs email, numeric and `min:N`
   * in that order, each failing check overwriting the previous message.
   */
  function FieldError(data: map<string, string>, field: string, rule: string,
                      isEmail: string -> bool, isNumeric: string -> bool): (r: Option<string>)
    ensures field !in data ==> (r.None? <==> !Contains(rule, "required"))
    ensures field in data ==>
              (r.None? <==> (!Contains(rule, "email") || isEmail(data[field])) &&
                            (!Contains(rule, "numeric") || isNumeric(data[field])) &&
                            (MinRule(rule).None? || |data[field]| >= DigitsValue(MinRule(rule).value)))
    ensures field in data && MinFails(data[field], rule) ==>
              r == Some("Minimum length is " + MinRule(rule).value + " characters")
    ensures field in data && !MinFails(data[field], rule) && Contains(rule, "numeric") && !isNumeric(data[field]) ==>
              r == Some("Must be a number")
    ensures field in data && !MinFails(data[field], rule) && (!Contains(rule, "numeric") || isNumeric(data[field])) &&
            Contains(rule, "email") && !isEmail(data[field]) ==>
              r == Some("Invalid email format")
    ensures r.Some? ==> IsMessage(rule, r.value)
  {
    if field !in data then
      if Contains(rule, "required") then Some("Field is required") else None
    else
      var value := data[field];
      var afterEmail := if Contains(rule, "email") && !isEmail(value) then Some("Invalid email format") else None;
      var afterNumeric := if Contains(rule, "numeric") && !isNumeric(value) then Some("Must be a number") else afterEmail;
      match MinRule(rule)
      case Some(min) =>
        if |value| < DigitsValue(min) then Some("Minimum length is " + min + " characters") else afterNumeric
      case None => afterNumeric
  }

  /** The `min:N` check fails: the rule has one and the value is shorter than N. */
  predicate MinFails(value: string, rule: string) {
    MinRule(rule).Some? && |value| < DigitsValue(MinRule(rule).value)
  }

  /** The four messages `validateInput` can leave for a field with this rule. */
  predicate IsMessage(rule: string, msg: string) {
    msg == "Field is required" || msg == "Invalid email format" || msg == "Must be a number" ||
    (MinRule(rule).Some? && msg == "Minimum length is " + MinRule(rule).value + " characters")
  }

  /**
   * The error map after processing `rules` (in order) against `data`: every
   * error is the message of a rule for that field.
   */
  function Validation(data: map<string, string>, rules: seq<(string, string)>,
                      isEmail: string -> bool, isNumeric: string -> bool): (r: map<string, string>)
    ensures forall f :: f in r ==>
              exists k :: 0 <= k < |rules| && rules[k].0 == f &&
                          FieldError(data, f, rules[k].1, isEmail, isNumeric) == Some(r[f])
    decreases |rules|
  {
    if rules == [] then map[]
    else
      var errors := Validation(data, rules[..|rules| - 1], isEmail, isNumeric);
      var (field, rule) := rules[|rules| - 1];
      assert forall k :: 0 <= k < |rules| - 1 ==> rules[..|rules| - 1][k] == rules[k];
      match FieldError(data, field, rule, isEmail, isNumeric)
      case Some(msg) => errors[field := msg]
      case None => errors
  }

  /** `validateInput($data, $rules)`: the foreach that fills `$errors`. */
  method ValidateInput(data: map<string, string>, rules: seq<(string, string)>,
                       isEmail: string -> bool, isNumeric: string -> bool)
    returns (errors: map<string, string>)
    ensures errors == Validation(data, rules, isEmail, isNumeric)
  {
    errors := map[];
    var i := 0;
    while i < |rules|
      invariant 0 <= i <= |rules|
      invariant errors == Validation(data, rules[..i], isEmail, isNumeric)
    {
      assert rules[..i + 1][..i] == rules[..i];
      var (field, rule) := rules[i];
      var e := FieldError(data, field, rule, isEmail, isNumeric);
      if e.Some? {
        errors := errors[field := e.value];
      }
      i := i + 1;
    }
    assert rules[..i] == rules;
  }

  /** The fields named by `rules`. */
  function RuleFields(rules: seq<(string, string)>): set<string> {
    set k | 0 <= k < |rules| :: rules[k].0
  }

  /** PHP arrays have unique keys: no field is named by two rules. */
  predicate DistinctFields(rules: seq<(string, string)>) {
    forall i, j :: 0 <= i < j < |rules| ==> rules[i].0 != rules[j].0
  }

  /** Only fields that have a rule can carry an error. */
  lemma {:induction false} ValidationKeys(data: map<string, string>, rules: seq<(string, string)>,
                                          isEmail: string -> bool, isNumeric: string -> bool)
    ensures Validation(data, rules, isEmail, isNumeric).Keys <= RuleFields(rules)
    decreases |rules|
  {
    if rules != [] {
      var front := rules[..|rules| - 1];
      ValidationKeys(data, front, isEmail, isNumeric);
      assert RuleFields(front) <= RuleFields(rules) by {
        forall f | f in RuleFields(front) ensures f in RuleFields(rules) {
          var k :| 0 <= k < |front| && front[k].0 == f;
          assert rules[k].0 == f;
        }
      }
      assert rules[|rules| - 1].0 in RuleFields(rules);
    }
  }

  /** The error map is empty exactly when every rule passes. */
  lemma {:induction false} ValidationEmptyIff(data: map<string, string>, rules: seq<(string, string)>,
                                              isEmail: string -> bool, isNumeric: string -> bool)
    ensures Validation(data, rules, isEmail, isNumeric) == map[] <==>
            forall k :: 0 <= k < |rules| ==> FieldError(data, rules[k].0, rules[k].1, isEmail, isNumeric).None?
    decreases |rules|
  {
    if rules != [] {
      var front := rules[..|rules| - 1];
      ValidationEmptyIff(data, front, isEmail, isNumeric);
      var last := rules[|rules| - 1];
      if FieldError(data, last.0, last.1, isEmail, isNumeric).Some? {
        assert last.0 in Validation(data, rules, isEmail, isNumeric);
      } else {
        assert Validation(data, rules, isEmail, isNumeric) == Validation(data, front, isEmail, isNumeric);
        assert forall k :: 0 <= k < |front| ==> front[k] == rules[k];
      }
    }
  }

  /**
   * With distinct fields (as in a PHP array), the error for each rule's field is
   * exactly that rule's message: at most one message per field.
   */
  lemma {:induction false} ValidationPerField(data: map<string, string>, rules: seq<(string, string)>, k: nat,
                                              isEmail: string -> bool, isNumeric: string -> bool)
    requires DistinctFields(rules) && k < |rules|
    ensures var errors := Validation(data, rules, isEmail, isNumeric);
            var e := FieldError(data, rules[k].0, rules[k].1, isEmail, isNumeric);
            (rules[k].0 in errors <==> e.Some?) && (e.Some? ==> errors[rules[k].0] == e.value)
    decreases |rules|
  {
    var front := rules[..|rules| - 1];
    var last := rules[|rules| - 1];
    if k < |rules| - 1 {
      ValidationPerField(data, front, k, isEmail, isNumeric);
      assert rules[k] == front[k];
      assert last.0 != rules[k].0;
    } else {
      ValidationKeys(data, front, isEmail, isNumeric);
      assert last.0 !in RuleFields(front);
    }
  }

  /** A missing field yields exactly "Field is required" when its rule says `required`, and nothing otherwise. */
  lemma MissingFieldOnlyRequired(data: map<string, string>, field: string, rule: string,
                                 isEmail: string -> bool, isNumeric: string -> bool)
    requires field !in data
    ensures FieldError(data, field, rule, isEmail, isNumeric) ==
            if Contains(rule, "required") then Some("Field is required") else None
  {
  }

  /** The `min:N` check runs last, so its failure message wins over the email and numeric ones. */
  lemma MinFailureWins(data: map<string, string>, field: string, rule: string, min: string,
                       isEmail: string -> bool, isNumeric: string -> bool)
    requires field in data && MinRule(rule) == Some(min) && |data[field]| < DigitsValue(min)
    ensures FieldError(data, field, rule, isEmail, isNumeric) == Some("Minimum length is " + min + " characters")
  {
  }

  /** A rule `in:...` has no branch in the validator: it never produces an error, whatever the value. */
  lemma InRuleNeverFails(data: map<string, string>, field: string, isEmail: string -> bool, isNumeric: string -> bool)
    ensures FieldError(data, field, "in:On,Off", isEmail, isNumeric) == None
  {
    assert !Contains("in:On,Off", "required");
    assert !Contains("in:On,Off", "email");
    assert !Contains("in:On,Off", "numeric");
    assert MinRule("in:On,Off") == None;
  }
}

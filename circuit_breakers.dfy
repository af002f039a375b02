/**
 * The circuit-breaker endpoint: the `circuit_breakers` and `power_limits`
 * tables plus the shared cache, with each request one atomic transition.
 */
module CircuitBreakers {
  import opened Wrappers
  import opened Strings
  import opened SecureConfig

  datatype HttpMethod = Get | Post | Put | Delete | Options | OtherMethod(name: string)

  /** A row of `circuit_breakers`; `status` defaults to `Off` in the schema. */
  datatype Breaker = Breaker(id: nat, userId: nat, name: string, location: string, powerLimit: real, status: string)

  /** A row of `power_limits`. */
  datatype PowerLimit = PowerLimit(breakerId: nat, maxPower: real, warningThreshold: real)

  /** A row of the GET listing: the breaker LEFT JOINed with its power limit. */
  datatype ListedBreaker = ListedBreaker(breaker: Breaker, maxPower: Option<real>, warningThreshold: Option<real>)

  /** What the cache holds under a user's key: a listing, or the `null` written to invalidate it. */
  datatype CachedListing = NullValue | Listing(rows: seq<ListedBreaker>)

  /**
   * One request: the HTTP method, the client IP, the session's user id, the decoded
   * JSON body (absent key = unset or null), the body's `id` (PUT) and the query `id` (DELETE).
   */
  datatype Request = Request(verb: HttpMethod, ip: string, sessionUser: Option<nat>,
                             body: map<string, string>, bodyId: Option<nat>, queryId: Option<nat>)

  datatype Response =
    | RateLimited                                  // 429
    | PreflightOk                                  // 200, OPTIONS
    | MethodNotAllowed                             // 405
    | Unauthorized                                 // 401
    | Listed(value: CachedListing)                 // 200, GET
    | ValidationFailed(errors: map<string, string>)// 400
    | BadRequest(message: string)                  // 400
    | Created(breakerId: nat)                      // 200, POST
    | Done                                         // 200, PUT / DELETE
    | ServerError(message: string)                 // 500, after rollback

  function StatusCode(r: Response): int {
    match r
    case RateLimited => 429
    case PreflightOk => 200
    case MethodNotAllowed => 405
    case Unauthorized => 401
    case Listed(_) => 200
    case ValidationFailed(_) => 400
    case BadRequest(_) => 400
    case Created(_) => 200
    case Done => 200
    case ServerError(_) => 500
  }

  const WarningRatio: real := 0.9

  /** `circuit_breakers_user_{$user_id}`. */
  function CacheKey(userId: nat): string {
    "circuit_breakers_user_" + NatToString(userId)
  }

  /** Different users never share a cache key. */
  lemma CacheKeyInjective(a: nat, b: nat)
    requires CacheKey(a) == CacheKey(b)
    ensures a == b
  {
    var p := "circuit_breakers_user_";
    assert NatToString(a) == CacheKey(a)[|p|..];
    assert NatToString(b) == CacheKey(b)[|p|..];
    NatToStringInjective(a, b);
  }

  const PostRules: seq<(string, string)> :=
    [("name", "required|min:2"), ("location", "required|min:2"), ("power_limit", "required|numeric")]

  const PutRules: seq<(string, string)> :=
    [("name", "min:2"), ("location", "min:2"), ("power_limit", "numeric"), ("status", "in:On,Off")]

  /**
   * The PUT rule for `status` is an `in:` rule, which the validator has no
   * branch for; an unknown status is only refused later, by the column type
   * (`StatusRejected`).
   */
  lemma PutStatusNeverValidated(body: map<string, string>, isEmail: string -> bool, isNumeric: string -> bool)
    ensures "status" !in Validation(body, PutRules, isEmail, isNumeric)
  {
    assert DistinctFields(PutRules);
    InRuleNeverFails(body, "status", isEmail, isNumeric);
    ValidationPerField(body, PutRules, 3, isEmail, isNumeric);
  }

  // ---------------------------------------------------------------------------
  // The GET listing
  // ---------------------------------------------------------------------------

  /** The breakers owned by `userId`, in table order (`WHERE cb.user_id = ?`). */
  function OwnedBy(bs: seq<Breaker>, userId: nat): (r: seq<Breaker>)
    ensures forall k :: 0 <= k < |r| ==> r[k].userId == userId && r[k] in bs
    ensures forall b :: b in bs && b.userId == userId ==> b in r
  {
    if bs == [] then []
    else (if bs[0].userId == userId then [bs[0]] else []) + OwnedBy(bs[1..], userId)
  }

  /** The `power_limits` rows of breaker `id`. */
  function LimitsOf(limits: seq<PowerLimit>, id: nat): (r: seq<PowerLimit>)
    ensures forall k :: 0 <= k < |r| ==> r[k].breakerId == id && r[k] in limits
    ensures forall l :: l in limits && l.breakerId == id ==> l in r
  {
    if limits == [] then []
    else (if limits[0].breakerId == id then [limits[0]] else []) + LimitsOf(limits[1..], id)
  }

  /**
   * The LEFT JOIN rows of one breaker: one per matching limit row, carrying
   * that row's `max_power` and `warning_threshold`, or a single row with
   * nulls when the breaker has no limit row.
   */
  function JoinOne(b: Breaker, limits: seq<PowerLimit>): (r: seq<ListedBreaker>)
    ensures |r| >= 1
    ensures forall k :: 0 <= k < |r| ==> r[k].breaker == b
    ensures (forall l :: l in limits ==> l.breakerId != b.id) <==> r == [ListedBreaker(b, None, None)]
    ensures (exists l :: l in limits && l.breakerId == b.id) ==>
              |r| == |LimitsOf(limits, b.id)| &&
              forall k :: 0 <= k < |r| ==>
                exists l :: l in limits && l.breakerId == b.id && r[k] == ListedBreaker(b, Some(l.maxPower), Some(l.warningThreshold))
    ensures forall l :: l in limits && l.breakerId == b.id ==> ListedBreaker(b, Some(l.maxPower), Some(l.warningThreshold)) in r
  {
    var m := LimitsOf(limits, b.id);
    if m == [] then [ListedBreaker(b, None, None)]
    else
      var r := seq(|m|, k requires 0 <= k < |m| => ListedBreaker(b, Some(m[k].maxPower), Some(m[k].warningThreshold)));
      assert m[0] in m;
      assert r[0].maxPower.Some?;
      assert forall k :: 0 <= k < |r| ==> m[k] in m;
      forall l | l in limits && l.breakerId == b.id
        ensures ListedBreaker(b, Some(l.maxPower), Some(l.warningThreshold)) in r
      {
        var k :| 0 <= k < |m| && m[k] == l;
        assert r[k] == ListedBreaker(b, Some(l.maxPower), Some(l.warningThreshold));
      }
      r
  }

  /** The LEFT JOIN: each breaker's rows, breaker after breaker. */
  function Join(bs: seq<Breaker>, limits: seq<PowerLimit>): (r: seq<ListedBreaker>)
    ensures forall k :: 0 <= k < |r| ==> r[k].breaker in bs
    ensures forall x :: x in r ==> x in JoinOne(x.breaker, limits)
    ensures forall b, x :: b in bs && x in JoinOne(b, limits) ==> x in r
  {
    if bs == [] then []
    else
      var head := JoinOne(bs[0], limits);
      var tail := Join(bs[1..], limits);
      assert forall x :: x in head + tail <==> x in head || x in tail;
      assert forall b :: b in bs ==> b == bs[0] || b in bs[1..];
      head + tail
  }

  /** Joining two lists of breakers is joining each and concatenating. */
  lemma {:induction false} JoinAppend(xs: seq<Breaker>, ys: seq<Breaker>, limits: seq<PowerLimit>)
    ensures Join(xs + ys, limits) == Join(xs, limits) + Join(ys, limits)
    decreases |xs|
  {
    if xs == [] {
      assert xs + ys == ys;
    } else {
      assert (xs + ys)[0] == xs[0];
      assert (xs + ys)[1..] == xs[1..] + ys;
      JoinAppend(xs[1..], ys, limits);
    }
  }

  /** Adjacent rows are in name order. */
  predicate SortedByName(rows: seq<ListedBreaker>) {
    forall k :: 0 <= k < |rows| - 1 ==> StrLe(rows[k].breaker.name, rows[k + 1].breaker.name)
  }

  function InsertByName(x: ListedBreaker, rows: seq<ListedBreaker>): (r: seq<ListedBreaker>)
    requires SortedByName(rows)
    ensures SortedByName(r)
    ensures multiset(r) == multiset(rows) + multiset{x}
    ensures |r| == |rows| + 1
    ensures r[0] == x || (rows != [] && r[0] == rows[0])
  {
    if rows == [] then [x]
    else if StrLe(x.breaker.name, rows[0].breaker.name) then [x] + rows
    else
      StrLeTotal(x.breaker.name, rows[0].breaker.name);
      var rest := InsertByName(x, rows[1..]);
      assert rows == [rows[0]] + rows[1..];
      [rows[0]] + rest
  }

  /** `ORDER BY cb.name`: a sorted permutation of the joined rows. */
  function SortByName(rows: seq<ListedBreaker>): (r: seq<ListedBreaker>)
    ensures SortedByName(r)
    ensures multiset(r) == multiset(rows)
  {
    if rows == [] then []
    else
      assert rows == [rows[0]] + rows[1..];
      InsertByName(rows[0], SortByName(rows[1..]))
  }

  /** The listing the GET query returns for `userId`. */
  function ListingFor(bs: seq<Breaker>, limits: seq<PowerLimit>, userId: nat): seq<ListedBreaker> {
    SortByName(Join(OwnedBy(bs, userId), limits))
  }

  /**
   * Per-user scoping of the listing: it is in name order, every row is one of
   * the user's breakers, and each of the user's breakers appears.
   */
  lemma ListingScoped(bs: seq<Breaker>, limits: seq<PowerLimit>, userId: nat)
    ensures SortedByName(ListingFor(bs, limits, userId))
    ensures forall r :: r in ListingFor(bs, limits, userId) ==> r.breaker in bs && r.breaker.userId == userId
    ensures forall b :: b in bs && b.userId == userId ==>
              exists r :: r in ListingFor(bs, limits, userId) && r.breaker == b
  {
    var owned := OwnedBy(bs, userId);
    var joined := Join(owned, limits);
    var listing := ListingFor(bs, limits, userId);
    forall r | r in listing ensures r.breaker in bs && r.breaker.userId == userId {
      assert r in multiset(listing);
      assert r in multiset(joined);
      assert r in joined;
    }
    forall b | b in bs && b.userId == userId ensures exists r :: r in listing && r.breaker == b {
      assert b in owned;
      var x := JoinOne(b, limits)[0];
      assert x in joined && x.breaker == b;
      assert x in multiset(joined);
      assert x in multiset(listing);
    }
  }

  // ---------------------------------------------------------------------------
  // Row updates
  // ---------------------------------------------------------------------------

  /** A column the PUT handler may set. */
  datatype Column = NameCol | LocationCol | PowerLimitCol | StatusCol

  function Assign(b: Breaker, col: Column, value: string, toNumber: string -> real): Breaker {
    match col
    case NameCol => b.(name := value)
    case LocationCol => b.(location := value)
    case PowerLimitCol => b.(powerLimit := toNumber(value))
    case StatusCol => b.(status := value)
  }

  /** Appends `col = body[key]` to the SET list when the body supplies `key`. */
  function SetStep(updates: seq<(Column, string)>, body: map<string, string>, key: string, col: Column)
    : seq<(Column, string)>
  {
    if key in body then updates + [(col, body[key])] else updates
  }

  /** The SET list of a PUT: name, location, power_limit, status, each only when supplied. */
  function SetList(body: map<string, string>): seq<(Column, string)> {
    SetStep(SetStep(SetStep(SetStep([], body, "name", NameCol), body, "location", LocationCol),
                    body, "power_limit", PowerLimitCol), body, "status", StatusCol)
  }

  /** The effect of one `SET col = ?, ...` list on a row. */
  function AssignAll(b: Breaker, updates: seq<(Column, string)>, toNumber: string -> real): Breaker
    decreases |updates|
  {
    if updates == [] then b
    else AssignAll(Assign(b, updates[0].0, updates[0].1, toNumber), updates[1..], toNumber)
  }

  /** The partial update PUT promises: each supplied field replaces its column, nothing else changes. */
  function Patched(b: Breaker, body: map<string, string>, toNumber: string -> real): Breaker {
    Breaker(b.id, b.userId,
            if "name" in body then body["name"] else b.name,
            if "location" in body then body["location"] else b.location,
            if "power_limit" in body then toNumber(body["power_limit"]) else b.powerLimit,
            if "status" in body then body["status"] else b.status)
  }

  /** The caller's row with that id patched; every other row as it was. */
  function PatchRows(bs: seq<Breaker>, id: nat, userId: nat, body: map<string, string>,
                     toNumber: string -> real): (r: seq<Breaker>)
    ensures |r| == |bs|
    ensures forall k :: 0 <= k < |bs| ==> r[k].id == bs[k].id && r[k].userId == bs[k].userId
  {
    seq(|bs|, k requires 0 <= k < |bs| =>
      if bs[k].id == id && bs[k].userId == userId then Patched(bs[k], body, toNumber) else bs[k])
  }

  /** `UPDATE circuit_breakers SET ... WHERE id = ? AND user_id = ?`. */
  function UpdateRows(bs: seq<Breaker>, id: nat, userId: nat, updates: seq<(Column, string)>,
                      toNumber: string -> real): (r: seq<Breaker>)
    ensures |r| == |bs|
  {
    seq(|bs|, k requires 0 <= k < |bs| =>
      if bs[k].id == id && bs[k].userId == userId then AssignAll(bs[k], updates, toNumber) else bs[k])
  }

  /** `UPDATE power_limits SET max_power = ?, warning_threshold = ? WHERE breaker_id = ?` (no user check). */
  function SetLimitRows(limits: seq<PowerLimit>, breakerId: nat, p: real): (r: seq<PowerLimit>)
    ensures |r| == |limits|
  {
    seq(|limits|, k requires 0 <= k < |limits| =>
      if limits[k].breakerId == breakerId then PowerLimit(breakerId, p, p * WarningRatio) else limits[k])
  }

  /** `DELETE FROM circuit_breakers WHERE id = ? AND user_id = ?`. */
  function RemoveOwned(bs: seq<Breaker>, id: nat, userId: nat): (r: seq<Breaker>)
    ensures forall b :: b in r <==> b in bs && !(b.id == id && b.userId == userId)
  {
    if bs == [] then []
    else (if bs[0].id == id && bs[0].userId == userId then [] else [bs[0]]) + RemoveOwned(bs[1..], id, userId)
  }

  /** `ON DELETE CASCADE`: drops the limit rows of breaker `id`. */
  function CascadeLimits(limits: seq<PowerLimit>, id: nat): (r: seq<PowerLimit>)
    ensures forall l :: l in r <==> l in limits && l.breakerId != id
  {
    if limits == [] then []
    else (if limits[0].breakerId == id then [] else [limits[0]]) + CascadeLimits(limits[1..], id)
  }

  predicate HasOwned(bs: seq<Breaker>, id: nat, userId: nat) {
    exists b :: b in bs && b.id == id && b.userId == userId
  }

  /**
   * `status` is an `ENUM('On','Off')` column: in strict SQL mode an UPDATE
   * that writes any other text into a matching row throws, and the PUT rolls
   * back with a 500.
   */
  predicate StatusRejected(bs: seq<Breaker>, id: nat, userId: nat, body: map<string, string>) {
    "status" in body && body["status"] != "On" && body["status"] != "Off" && HasOwned(bs, id, userId)
  }

  /** The breaker stored by a successful POST: the caller's, switched off, with the posted fields. */
  function NewBreaker(id: nat, userId: nat, body: map<string, string>, toNumber: string -> real): (b: Breaker)
    requires "name" in body && "location" in body && "power_limit" in body
    ensures b.id == id && b.userId == userId && b.status == "Off"
    ensures b.name == body["name"] && b.location == body["location"] && b.powerLimit == toNumber(body["power_limit"])
  {
    Breaker(id, userId, body["name"], body["location"], toNumber(body["power_limit"]), "Off")
  }

  function IdsOf(bs: seq<Breaker>): set<nat> {
    set b | b in bs :: b.id
  }

  /**
   * Table invariants: ids are unique and below the AUTO_INCREMENT counter,
   * every limit row refers to an existing breaker (foreign key), and every
   * warning threshold is 90% of its maximum.
   */
  ghost predicate IdsBelowAndUnique(bs: seq<Breaker>, nextId: nat) {
    (forall k :: 0 <= k < |bs| ==> bs[k].id < nextId) &&
    (forall i, j :: 0 <= i < j < |bs| ==> bs[i].id != bs[j].id)
  }

  ghost predicate TablesValid(bs: seq<Breaker>, limits: seq<PowerLimit>, nextId: nat) {
    IdsBelowAndUnique(bs, nextId) &&
    (forall l :: l in limits ==> l.breakerId in IdsOf(bs)) &&
    (forall l :: l in limits ==> l.warningThreshold == WarningRatio * l.maxPower)
  }

  /** `setCache($key, null, 0)`: the cached listing is overwritten by `null`, already expired. */
  function Invalidated(enabled: bool, cache: map<string, CacheRow<CachedListing>>, userId: nat, now: int)
    : (r: map<string, CacheRow<CachedListing>>)
    ensures enabled ==> r == cache[CacheKey(userId) := CacheRow(NullValue, now)]
    ensures !enabled ==> r == cache
  {
    if enabled then cache[CacheKey(userId) := CacheRow(NullValue, now)] else cache
  }

  /**
   * A write followed by a read: after Create, Update or Remove invalidate the
   * caller's key, the caller's next GET misses the cache, so `List` answers
   * `ListingFor` the new tables; other users' cached listings read as before.
   */
  lemma WriteThenListMisses(enabled: bool, cache: map<string, CacheRow<CachedListing>>, userId: nat, now: int, later: int)
    requires now <= later
    ensures CacheLookup(enabled, Invalidated(enabled, cache, userId, now), CacheKey(userId), later).None?
    ensures forall other: nat :: other != userId ==>
              CacheLookup(enabled, Invalidated(enabled, cache, userId, now), CacheKey(other), later) ==
              CacheLookup(enabled, cache, CacheKey(other), later)
  {
    forall other: nat | other != userId
      ensures CacheLookup(enabled, Invalidated(enabled, cache, userId, now), CacheKey(other), later) ==
              CacheLookup(enabled, cache, CacheKey(other), later)
    {
      if CacheKey(other) == CacheKey(userId) {
        CacheKeyInjective(other, userId);
      }
    }
  }

  // ---------------------------------------------------------------------------
  // The endpoint
  // ---------------------------------------------------------------------------

  class BreakerService {
    var breakers: seq<Breaker>
    var powerLimits: seq<PowerLimit>
    var nextId: nat   // the AUTO_INCREMENT counter of `circuit_breakers`
    const store: SecureStore<CachedListing>

    /**
     * Table invariants: ids are unique and below the counter, every limit row
     * refers to an existing breaker, and every warning threshold is 90% of its maximum.
     */
    ghost predicate Valid()
      reads this
    {
      TablesValid(breakers, powerLimits, nextId)
    }

    constructor (store: SecureStore<CachedListing>)
      ensures Valid() && this.store == store
      ensures breakers == [] && powerLimits == [] && nextId == 1
    {
      this.store := store;
      breakers := [];
      powerLimits := [];
      nextId := 1;
    }

    method Invalidate(userId: nat, now: int)
      modifies store`cache
      ensures store.cache == Invalidated(store.cacheEnabled, old(store.cache), userId, now)
    {
      var _ := store.SetCache(CacheKey(userId), NullValue, now, 0);
    }

    /** GET: the cached listing on a hit; otherwise the query result, then cached. */
    method List(userId: nat, now: int) returns (resp: Response)
      modifies store`cache
      ensures var hit := CacheLookup(store.cacheEnabled, old(store.cache), CacheKey(userId), now);
              if hit.Some? then
                resp == Listed(hit.value) && store.cache == old(store.cache)
              else
                var rows := ListingFor(breakers, powerLimits, userId);
                resp == Listed(Listing(rows)) &&
                store.cache == if store.cacheEnabled
                               then old(store.cache)[CacheKey(userId) := CacheRow(Listing(rows), now + CacheDuration)]
                               else old(store.cache)
    {
      var cached := store.GetCache(CacheKey(userId), now);
      if cached.Some? {
        return Listed(cached.value);
      }
      var rows := ListingFor(breakers, powerLimits, userId);
      var _ := store.SetCache(CacheKey(userId), Listing(rows), now);
      resp := Listed(Listing(rows));
    }

    /**
     * POST: validate against the script's rule list (`Handle` passes `PostRules`,
     * whose first three rules are `required`), then insert the breaker and its
     * power limit in one transaction.
     */
    method Create(rules: seq<(string, string)>, userId: nat, body: map<string, string>, now: int,
                  isEmail: string -> bool, isNumeric: string -> bool, toNumber: string -> real, fault: bool)
      returns (resp: Response)
      requires Valid()
      requires MarksRequired(rules, 0, "name") && MarksRequired(rules, 1, "location") &&
               MarksRequired(rules, 2, "power_limit")
      modifies this, store`cache
      ensures Valid()
      ensures Validation(body, rules, isEmail, isNumeric) != map[] ==>
                resp == ValidationFailed(Validation(body, rules, isEmail, isNumeric)) &&
                unchanged(this) && store.cache == old(store.cache)
      ensures Validation(body, rules, isEmail, isNumeric) == map[] && fault ==>
                resp == ServerError("Failed to create circuit breaker") && unchanged(this) &&
                store.cache == old(store.cache)
      ensures Validation(body, rules, isEmail, isNumeric) == map[] && !fault ==>
                "name" in body && "location" in body && "power_limit" in body &&
                resp == Created(old(nextId)) && nextId == old(nextId) + 1 &&
                breakers == old(breakers) + [NewBreaker(old(nextId), userId, body, toNumber)] &&
                powerLimits == old(powerLimits) + [PowerLimit(old(nextId), toNumber(body["power_limit"]),
                                                              WarningRatio * toNumber(body["power_limit"]))] &&
                store.cache == Invalidated(store.cacheEnabled, old(store.cache), userId, now)
    {
      var errors := ValidateInput(body, rules, isEmail, isNumeric);
      if errors != map[] {
        return ValidationFailed(errors);
      }
      RequiredPresent(rules, 0, body, isEmail, isNumeric);
      RequiredPresent(rules, 1, body, isEmail, isNumeric);
      RequiredPresent(rules, 2, body, isEmail, isNumeric);
      if fault {
        // the transaction is rolled back: neither insert persists
        return ServerError("Failed to create circuit breaker");
      }
      var id := Insert(NewBreaker(nextId, userId, body, toNumber));
      Invalidate(userId, now);
      resp := Created(id);
    }

    /** The two INSERTs of a committed POST: the breaker, then its limit at 90% warning. */
    method Insert(b: Breaker) returns (id: nat)
      requires Valid() && b.id == nextId
      modifies this
      ensures Valid()
      ensures id == old(nextId) && nextId == old(nextId) + 1
      ensures breakers == old(breakers) + [b]
      ensures powerLimits == old(powerLimits) + [PowerLimit(id, b.powerLimit, WarningRatio * b.powerLimit)]
    {
      id := nextId;
      CreateKeepsValid(breakers, powerLimits, nextId, b, b.powerLimit);
      breakers := breakers + [b];
      powerLimits := powerLimits + [PowerLimit(id, b.powerLimit, WarningRatio * b.powerLimit)];
      nextId := nextId + 1;
    }

    /** PUT: partial update of the caller's breaker, then of the limit rows keyed by breaker id alone. */
    method Update(userId: nat, body: map<string, string>, id: Option<nat>, now: int,
                  isEmail: string -> bool, isNumeric: string -> bool, toNumber: string -> real, fault: bool)
      returns (resp: Response)
      requires Valid()
      modifies this, store`cache
      ensures Valid()
      ensures nextId == old(nextId)
      ensures var errors := Validation(body, PutRules, isEmail, isNumeric);
              if id.None? then
                resp == BadRequest("Breaker ID is required") && unchanged(this) && store.cache == old(store.cache)
              else if errors != map[] then
                resp == ValidationFailed(errors) && unchanged(this) && store.cache == old(store.cache)
              else if fault || StatusRejected(old(breakers), id.value, userId, body) then
                resp == ServerError("Failed to update circuit breaker") && unchanged(this) &&
                store.cache == old(store.cache)
              else
                resp == Done &&
                breakers == PatchRows(old(breakers), id.value, userId, body, toNumber) &&
                powerLimits == (if "power_limit" in body
                                then SetLimitRows(old(powerLimits), id.value, toNumber(body["power_limit"]))
                                else old(powerLimits)) &&
                store.cache == Invalidated(store.cacheEnabled, old(store.cache), userId, now)
    {
      if id.None? {
        return BadRequest("Breaker ID is required");
      }
      var errors := ValidateInput(body, PutRules, isEmail, isNumeric);
      if errors != map[] {
        return ValidationFailed(errors);
      }
      if fault || StatusRejected(breakers, id.value, userId, body) {
        return ServerError("Failed to update circuit breaker");
      }
      var updates: seq<(Column, string)> := [];
      updates := SetStep(updates, body, "name", NameCol);
      updates := SetStep(updates, body, "location", LocationCol);
      updates := SetStep(updates, body, "power_limit", PowerLimitCol);
      updates := SetStep(updates, body, "status", StatusCol);
      ghost var before := breakers;
      if updates != [] {
        breakers := UpdateRows(breakers, id.value, userId, updates, toNumber);
      }
      UpdateRowsArePatch(before, id.value, userId, body, toNumber);
      if "power_limit" in body {
        SetLimitKeepsValid(before, powerLimits, nextId, id.value, toNumber(body["power_limit"]));
        powerLimits := SetLimitRows(powerLimits, id.value, toNumber(body["power_limit"]));
      }
      PatchKeepsValid(before, powerLimits, nextId, id.value, userId, body, toNumber);
      Invalidate(userId, now);
      resp := Done;
    }

    /** DELETE: removes the caller's breaker with that id; the cascade drops its limit rows. */
    method Remove(userId: nat, id: Option<nat>, now: int, fault: bool) returns (resp: Response)
      requires Valid()
      modifies this, store`cache
      ensures Valid()
      ensures nextId == old(nextId)
      ensures if id.None? || id.value == 0 then
                resp == BadRequest("Breaker ID is required") && unchanged(this) && store.cache == old(store.cache)
              else if fault then
                resp == ServerError("Failed to delete circuit breaker") && unchanged(this) &&
                store.cache == old(store.cache)
              else
                resp == Done &&
                breakers == RemoveOwned(old(breakers), id.value, userId) &&
                powerLimits == (if HasOwned(old(breakers), id.value, userId)
                                then CascadeLimits(old(powerLimits), id.value) else old(powerLimits)) &&
                store.cache == Invalidated(store.cacheEnabled, old(store.cache), userId, now)
    {
      if id.None? || id.value == 0 {
        return BadRequest("Breaker ID is required");
      }
      if fault {
        return ServerError("Failed to delete circuit breaker");
      }
      var deleted := HasOwned(breakers, id.value, userId);
      ghost var before := breakers;
      breakers := RemoveOwned(breakers, id.value, userId);
      if deleted {
        powerLimits := CascadeLimits(powerLimits, id.value);
      }
      RemoveKeepsValid(before, old(powerLimits), nextId, id.value, userId);
      Invalidate(userId, now);
      resp := Done;
    }

    /**
     * The whole script: the rate limit runs first (even for OPTIONS), then the
     * method check (405) and the session check (401), then the method's branch.
     */
    method Handle(req: Request, now: int, isEmail: string -> bool, isNumeric: string -> bool, toNumber: string -> real, fault: bool)
      returns (resp: Response)
      requires Valid()
      modifies this, store
      ensures Valid()
      ensures store.requestLog ==
              if resp == RateLimited then old(store.requestLog) else old(store.requestLog) + [LogEntry(req.ip, now)]
      ensures resp == RateLimited <==> RecentCount(old(store.requestLog), req.ip, now) >= RateLimitMaxRequests
      ensures resp in {RateLimited, PreflightOk, MethodNotAllowed, Unauthorized} ==>
                unchanged(this) && store.cache == old(store.cache)
      ensures resp != RateLimited && req.verb == Options ==> resp == PreflightOk
      ensures resp != RateLimited && req.verb.OtherMethod? ==> resp == MethodNotAllowed
      ensures (resp != RateLimited && req.verb != Options && !req.verb.OtherMethod? &&
               (req.sessionUser.None? || req.sessionUser.value == 0)) ==> resp == Unauthorized
    {
      var allowed := store.CheckRateLimit(req.ip, now);
      if !allowed {
        return RateLimited;
      }
      if req.verb == Options {
        return PreflightOk;
      }
      if req.verb.OtherMethod? {
        return MethodNotAllowed;
      }
      if req.sessionUser.None? || req.sessionUser.value == 0 {
        return Unauthorized;
      }
      var userId := req.sessionUser.value;
      match req.verb {
        case Get => resp := List(userId, now);
        case Post =>
          PostRulesRequired();
          resp := Create(PostRules, userId, req.body, now, isEmail, isNumeric, toNumber, fault);
        case Put => resp := Update(userId, req.body, req.bodyId, now, isEmail, isNumeric, toNumber, fault);
        case Delete => resp := Remove(userId, req.queryId, now, fault);
      }
    }
  }

  /** Rule `k` of the list validates `field` and contains `required`. */
  predicate MarksRequired(rules: seq<(string, string)>, k: nat, field: string) {
    k < |rules| && rules[k].0 == field && Contains(rules[k].1, "required")
  }

  /** Each POST field is validated as `required`. */
  lemma PostRulesRequired()
    ensures MarksRequired(PostRules, 0, "name") && MarksRequired(PostRules, 1, "location") &&
            MarksRequired(PostRules, 2, "power_limit")
  {
    assert Contains("required|min:2", "required");
    assert Contains("required|numeric", "required");
  }

  /** A POST whose `power_limit` is not numeric is refused with "Must be a number" for that field. */
  lemma PostNonNumericLimit(body: map<string, string>, isEmail: string -> bool, isNumeric: string -> bool)
    requires "power_limit" in body && !isNumeric(body["power_limit"])
    ensures var errors := Validation(body, PostRules, isEmail, isNumeric);
            "power_limit" in errors && errors["power_limit"] == "Must be a number"
  {
    assert DistinctFields(PostRules);
    NumericRuleFails(body, isEmail, isNumeric);
    ValidationPerField(body, PostRules, 2, isEmail, isNumeric);
  }

  lemma NumericRuleFails(body: map<string, string>, isEmail: string -> bool, isNumeric: string -> bool)
    requires "power_limit" in body && !isNumeric(body["power_limit"])
    ensures FieldError(body, "power_limit", "required|numeric", isEmail, isNumeric) == Some("Must be a number")
  {
    assert OccursAt("required|numeric", "numeric", 9);
    ContainsSpec("required|numeric", "numeric");
    NumericRuleHasNoMin();
  }

  lemma NumericRuleHasNoMin()
    ensures MinRule("required|numeric") == None
  {
  }

  /** A body that passes validation carries every field whose rule is `required`. */
  lemma RequiredPresent(rules: seq<(string, string)>, k: nat, body: map<string, string>,
                        isEmail: string -> bool, isNumeric: string -> bool)
    requires Validation(body, rules, isEmail, isNumeric) == map[]
    requires k < |rules| && Contains(rules[k].1, "required")
    ensures rules[k].0 in body
  {
    ValidationEmptyIff(body, rules, isEmail, isNumeric);
    assert FieldError(body, rules[k].0, rules[k].1, isEmail, isNumeric).None?;
  }

  /** The SET list the PUT handler assembles has exactly the effect of `Patched`. */
  lemma UpdatesArePatch(b: Breaker, body: map<string, string>, toNumber: string -> real)
    ensures AssignAll(b, SetList(body), toNumber) == Patched(b, body, toNumber)
  {
    var u1 := SetStep([], body, "name", NameCol);
    var u2 := SetStep(u1, body, "location", LocationCol);
    var u3 := SetStep(u2, body, "power_limit", PowerLimitCol);
    SetStepEffect(b, [], body, "name", NameCol, toNumber);
    SetStepEffect(b, u1, body, "location", LocationCol, toNumber);
    SetStepEffect(b, u2, body, "power_limit", PowerLimitCol, toNumber);
    SetStepEffect(b, u3, body, "status", StatusCol, toNumber);
  }

  lemma SetStepEffect(b: Breaker, updates: seq<(Column, string)>, body: map<string, string>, key: string, col: Column,
                      toNumber: string -> real)
    ensures AssignAll(b, SetStep(updates, body, key, col), toNumber) ==
            if key in body then Assign(AssignAll(b, updates, toNumber), col, body[key], toNumber)
            else AssignAll(b, updates, toNumber)
  {
    if key in body {
      AssignAllAppend(b, updates, [(col, body[key])], toNumber);
    }
  }

  lemma {:induction false} AssignAllAppend(b: Breaker, xs: seq<(Column, string)>, ys: seq<(Column, string)>,
                                           toNumber: string -> real)
    ensures AssignAll(b, xs + ys, toNumber) == AssignAll(AssignAll(b, xs, toNumber), ys, toNumber)
    decreases |xs|
  {
    if xs != [] {
      assert (xs + ys)[1..] == xs[1..] + ys;
      AssignAllAppend(Assign(b, xs[0].0, xs[0].1, toNumber), xs[1..], ys, toNumber);
    } else {
      assert xs + ys == ys;
    }
  }

  lemma UpdateRowsArePatch(bs: seq<Breaker>, id: nat, userId: nat, body: map<string, string>,
                           toNumber: string -> real)
    ensures (if SetList(body) != [] then UpdateRows(bs, id, userId, SetList(body), toNumber) else bs) ==
            PatchRows(bs, id, userId, body, toNumber)
  {
    var updates := SetList(body);
    forall k | 0 <= k < |bs| ensures AssignAll(bs[k], updates, toNumber) == Patched(bs[k], body, toNumber) {
      UpdatesArePatch(bs[k], body, toNumber);
    }
    if updates == [] {
      forall k | 0 <= k < |bs| ensures Patched(bs[k], body, toNumber) == bs[k] {
        assert "name" !in body && "location" !in body && "power_limit" !in body && "status" !in body;
      }
    }
  }

  /** Inserting a fresh breaker and its limit keeps the table invariants. */
  lemma CreateKeepsValid(bs: seq<Breaker>, limits: seq<PowerLimit>, nextId: nat, b: Breaker, p: real)
    requires TablesValid(bs, limits, nextId)
    requires b.id == nextId
    ensures TablesValid(bs + [b], limits + [PowerLimit(nextId, p, WarningRatio * p)], nextId + 1)
  {
    assert IdsOf(bs + [b]) == IdsOf(bs) + {b.id};
  }

  /** Patching rows never changes an id, so the table invariants hold after it. */
  lemma PatchKeepsValid(bs: seq<Breaker>, limits: seq<PowerLimit>, nextId: nat, id: nat, userId: nat,
                        body: map<string, string>, toNumber: string -> real)
    requires TablesValid(bs, limits, nextId)
    ensures TablesValid(PatchRows(bs, id, userId, body, toNumber), limits, nextId)
  {
    var after := PatchRows(bs, id, userId, body, toNumber);
    forall l | l in limits ensures l.breakerId in IdsOf(after) {
      var b :| b in bs && b.id == l.breakerId;
      var k :| 0 <= k < |bs| && bs[k] == b;
      assert after[k] in after;
    }
  }

  /** Rewriting limit rows with the 90% threshold keeps the table invariants. */
  lemma SetLimitKeepsValid(bs: seq<Breaker>, limits: seq<PowerLimit>, nextId: nat, id: nat, p: real)
    requires TablesValid(bs, limits, nextId)
    ensures TablesValid(bs, SetLimitRows(limits, id, p), nextId)
  {
    var after := SetLimitRows(limits, id, p);
    forall l | l in after ensures l.breakerId in IdsOf(bs) {
      var k :| 0 <= k < |after| && after[k] == l;
      assert limits[k] in limits;
    }
  }

  /** Deleting a breaker together with its cascaded limit rows keeps the table invariants. */
  lemma RemoveKeepsValid(bs: seq<Breaker>, limits: seq<PowerLimit>, nextId: nat, id: nat, userId: nat)
    requires TablesValid(bs, limits, nextId)
    ensures TablesValid(RemoveOwned(bs, id, userId),
                        if HasOwned(bs, id, userId) then CascadeLimits(limits, id) else limits, nextId)
  {
    var after := RemoveOwned(bs, id, userId);
    var limitsAfter := if HasOwned(bs, id, userId) then CascadeLimits(limits, id) else limits;
    RemoveOwnedKeepsIds(bs, id, userId, nextId);
    forall l | l in limitsAfter ensures l.breakerId in IdsOf(after) {
      var b :| b in bs && b.id == l.breakerId;
      if HasOwned(bs, id, userId) {
        assert l.breakerId != id;
      } else {
        assert !(b.id == id && b.userId == userId);
      }
      assert b in after;
    }
  }

  /** Filtering rows keeps ids unique and below the counter. */
  lemma {:induction false} RemoveOwnedKeepsIds(bs: seq<Breaker>, id: nat, userId: nat, nextId: nat)
    requires IdsBelowAndUnique(bs, nextId)
    ensures IdsBelowAndUnique(RemoveOwned(bs, id, userId), nextId)
  {
    if bs != [] {
      TailKeepsIds(bs, nextId);
      RemoveOwnedKeepsIds(bs[1..], id, userId, nextId);
      if !(bs[0].id == id && bs[0].userId == userId) {
        ConsKeepsIds(bs[0], bs[1..], RemoveOwned(bs[1..], id, userId), nextId);
      }
    }
  }

  lemma TailKeepsIds(bs: seq<Breaker>, nextId: nat)
    requires bs != [] && IdsBelowAndUnique(bs, nextId)
    ensures IdsBelowAndUnique(bs[1..], nextId)
    ensures forall b :: b in bs[1..] ==> b.id != bs[0].id
  {
    var tail := bs[1..];
    forall i, j | 0 <= i < j < |tail| ensures tail[i].id != tail[j].id {
      assert tail[i] == bs[i + 1] && tail[j] == bs[j + 1];
    }
    forall b | b in tail ensures b.id != bs[0].id {
      var i :| 0 <= i < |tail| && tail[i] == b;
      assert bs[i + 1] == b;
    }
  }

  /** Putting a row in front of a subset of rows whose ids differ from its own keeps ids unique. */
  lemma ConsKeepsIds(x: Breaker, tail: seq<Breaker>, rt: seq<Breaker>, nextId: nat)
    requires x.id < nextId && IdsBelowAndUnique(rt, nextId)
    requires forall b :: b in rt ==> b in tail
    requires forall b :: b in tail ==> b.id != x.id
    ensures IdsBelowAndUnique([x] + rt, nextId)
  {
    var r := [x] + rt;
    forall i, j | 0 <= i < j < |r| ensures r[i].id != r[j].id {
      assert r[j] == rt[j - 1] && rt[j - 1] in rt;
      if i > 0 {
        assert r[i] == rt[i - 1];
      }
    }
    forall k | 0 <= k < |r| ensures r[k].id < nextId {
      if k > 0 {
        assert r[k] == rt[k - 1];
      }
    }
  }
}

/**
 * The `power_consumption` table and the endpoint that appends one reading to it.
 */
module PowerSamples {
  import opened Wrappers

  /** A row of `power_consumption`; `timestamp` is seconds on the abstract clock. */
  datatype Sample = Sample(userId: nat, breakerId: nat, voltage: real, current: real, power: real, timestamp: int)

  /** The decoded POST body; a field is `None` when unset or null. */
  datatype StoreRequest = StoreRequest(userId: Option<nat>, breakerId: Option<nat>, voltage: Option<real>,
                                       current: Option<real>, power: Option<real>)

  datatype Response =
    | PreflightOk                 // 200, empty body
    | MethodNotAllowed            // 405
    | BadRequest(message: string) // 400
    | Stored(message: string)     // 200
    | ServerError(message: string)// 500

  predicate Complete(req: StoreRequest) {
    req.userId.Some? && req.breakerId.Some? && req.voltage.Some? && req.current.Some? && req.power.Some?
  }

  /** `DELETE FROM power_consumption WHERE user_id = ?`, keeping the order of the other rows. */
  function WithoutUser(rows: seq<Sample>, userId: nat): (r: seq<Sample>)
    ensures forall s :: s in r <==> s in rows && s.userId != userId
    ensures |r| <= |rows|
  {
    if rows == [] then []
    else (if rows[0].userId == userId then [] else [rows[0]]) + WithoutUser(rows[1..], userId)
  }

  /** Deleting from joined tables is deleting from each part: the kept rows keep their order. */
  lemma {:induction false} WithoutUserAppend(xs: seq<Sample>, ys: seq<Sample>, userId: nat)
    ensures WithoutUser(xs + ys, userId) == WithoutUser(xs, userId) + WithoutUser(ys, userId)
    decreases |xs|
  {
    if xs == [] {
      assert xs + ys == ys;
    } else {
      assert (xs + ys)[0] == xs[0];
      assert (xs + ys)[1..] == xs[1..] + ys;
      WithoutUserAppend(xs[1..], ys, userId);
    }
  }

  /** A single row is deleted iff it belongs to the user. */
  lemma WithoutUserSingle(s: Sample, userId: nat)
    ensures WithoutUser([s], userId) == if s.userId == userId then [] else [s]
  {
    assert [s][1..] == [];
  }

  /** Deleting a user's rows twice is deleting them once. */
  lemma {:induction false} WithoutUserIdempotent(rows: seq<Sample>, userId: nat)
    ensures WithoutUser(WithoutUser(rows, userId), userId) == WithoutUser(rows, userId)
    decreases |rows|
  {
    if rows != [] {
      var rest := WithoutUser(rows[1..], userId);
      WithoutUserIdempotent(rows[1..], userId);
      if rows[0].userId != userId {
        var r := [rows[0]] + rest;
        assert r[0] == rows[0] && r[1..] == rest;
      } else {
        assert WithoutUser(rows, userId) == rest;
      }
    }
  }

  class SampleTable {
    var rows: seq<Sample>

    constructor ()
      ensures rows == []
    {
      rows := [];
    }

    /** One INSERT. */
    method Append(s: Sample)
      modifies this
      ensures rows == old(rows) + [s]
    {
      rows := rows + [s];
    }

    method DeleteUser(userId: nat)
      modifies this
      ensures rows == WithoutUser(old(rows), userId)
    {
      rows := WithoutUser(rows, userId);
    }

    /**
     * The store script: a preflight is answered at once, then POST only, all five fields set, then one INSERT stamped
     * with the database's current time `now`; `fault` is a failed INSERT.
     */
    method Store(isOptions: bool, isPost: bool, req: StoreRequest, now: int, fault: bool) returns (resp: Response)
      modifies this
      ensures isOptions ==> resp == PreflightOk && rows == old(rows)
      ensures !isOptions && !isPost ==> resp == MethodNotAllowed && rows == old(rows)
      ensures !isOptions && isPost && !Complete(req) ==> resp == BadRequest("Missing required fields") && rows == old(rows)
      ensures !isOptions && isPost && Complete(req) && fault ==> resp.ServerError? && rows == old(rows)
      ensures !isOptions && isPost && Complete(req) && !fault ==>
                resp == Stored("Power data stored successfully") &&
                rows == old(rows) + [Sample(req.userId.value, req.breakerId.value, req.voltage.value,
                                            req.current.value, req.power.value, now)]
    {
      if isOptions {
        return PreflightOk;
      }
      if !isPost {
        return MethodNotAllowed;
      }
      if req.userId.None? || req.breakerId.None? || req.voltage.None? || req.current.None? || req.power.None? {
        return BadRequest("Missing required fields");
      }
      if fault {
        return ServerError("Failed to store power data: insert failed");
      }
      Append(Sample(req.userId.value, req.breakerId.value, req.voltage.value, req.current.value, req.power.value, now));
      resp := Stored("Power data stored successfully");
    }
  }
}

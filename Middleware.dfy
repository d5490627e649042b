/**
 * The request middleware: a fixed-window rate limiter (100 requests per
 * minute per client address) on `/api/` paths, kept in a map from address to
 * record, and a cookie gate in front of `/admin` pages.
 * The clock reading `now` and the request's address and cookie are inputs.
 */
module Middleware {
  import opened Text
  import opened Common

  datatype RateRecord = RateRecord(count: nat, resetTime: int)

  datatype Response = TooManyRequests | RedirectToLogin | Next

  const Limit: nat := 100
  const WindowMs: nat := 60000

  /** `request.ip || 'unknown'`. */
  function ClientKey(ip: Option<string>): string {
    if ip.Some? && ip.value != "" then ip.value else "unknown"
  }

  /** The cookie value is truthy: present and non-empty. */
  predicate Truthy(cookie: Option<string>) {
    cookie.Some? && cookie.value != ""
  }

  /** Every stored window has admitted between 1 and `Limit` requests. */
  ghost predicate ValidRecords(records: map<string, RateRecord>) {
    forall k :: k in records ==> 1 <= records[k].count <= Limit
  }

  /** The rate-limit step for one `/api/` request from `key`: the new map and whether the request is refused. */
  function RateStep(records: map<string, RateRecord>, key: string, now: int): (map<string, RateRecord>, bool) {
    if key !in records || now > records[key].resetTime then
      (records[key := RateRecord(1, now + WindowMs)], false)
    else if records[key].count >= Limit then
      (records, true)
    else
      (records[key := records[key].(count := records[key].count + 1)], false)
  }

  /** `middleware` on a map of records: the new map and the response. */
  function Step(records: map<string, RateRecord>, path: string, ip: Option<string>, cookie: Option<string>, now: int)
    : (map<string, RateRecord>, Response)
  {
    var (after, refused) :=
      if StartsWith(path, "/api/") then RateStep(records, ClientKey(ip), now) else (records, false);
    if refused then (after, TooManyRequests)
    else if StartsWith(path, "/admin") && !Truthy(cookie) then (after, RedirectToLogin)
    else (after, Next)
  }

  /** The module-level `rateLimit` map and the middleware that updates it in place. */
  class RateLimiter {
    var records: map<string, RateRecord>

    ghost predicate Valid()
      reads this
    {
      ValidRecords(records)
    }

    constructor()
      ensures records == map[] && Valid()
    {
      records := map[];
    }

    /** `middleware(request)`. */
    method Handle(path: string, ip: Option<string>, cookie: Option<string>, now: int) returns (resp: Response)
      requires Valid()
      modifies this
      ensures (records, resp) == Step(old(records), path, ip, cookie, now)
      ensures Valid()
    {
      var key := ClientKey(ip);
      if StartsWith(path, "/api/") {
        if key !in records || now > records[key].resetTime {
          records := records[key := RateRecord(1, now + WindowMs)];
        } else if records[key].count >= Limit {
          return TooManyRequests;
        } else {
          var record := records[key];
          records := records[key := record.(count := record.count + 1)];
        }
      }
      if StartsWith(path, "/admin") && !Truthy(cookie) {
        return RedirectToLogin;
      }
      return Next;
    }
  }

  // ---------------------------------------------------------------------------
  // Properties of one step

  /** Outside `/api/` the map is left exactly as it was. */
  lemma OnlyApiTouchesRecords(records: map<string, RateRecord>, path: string, ip: Option<string>, cookie: Option<string>, now: int)
    requires !StartsWith(path, "/api/")
    ensures Step(records, path, ip, cookie, now).0 == records
    ensures Step(records, path, ip, cookie, now).1 != TooManyRequests
  {
  }

  /** No other address's record is added, removed or changed. */
  lemma OtherClientsUnchanged(records: map<string, RateRecord>, path: string, ip: Option<string>, cookie: Option<string>, now: int, other: string)
    requires other != ClientKey(ip)
    ensures var after := Step(records, path, ip, cookie, now).0;
      (other in after <==> other in records) && (other in records ==> after[other] == records[other])
  {
  }

  /** An unseen address, or one whose window ended strictly before `now`, opens a new window with count 1. */
  lemma NewWindow(records: map<string, RateRecord>, key: string, now: int)
    requires key !in records || now > records[key].resetTime
    ensures RateStep(records, key, now) == (records[key := RateRecord(1, now + 60000)], false)
  {
  }

  /** At `now == resetTime` the window is still open: the count goes from 99 to 100, and at 100 the request is refused. */
  lemma WindowEndIsInside(records: map<string, RateRecord>, key: string, now: int)
    requires key in records && records[key].resetTime == now
    ensures records[key].count < 100 ==>
              RateStep(records, key, now).0[key] == RateRecord(records[key].count + 1, now)
    ensures records[key].count >= 100 ==> RateStep(records, key, now) == (records, true)
  {
  }

  /** Inside the window a refused request leaves the map unchanged; an admitted one adds exactly 1 to the count. */
  lemma InsideWindow(records: map<string, RateRecord>, key: string, now: int)
    requires key in records && now <= records[key].resetTime
    ensures records[key].count >= Limit ==> RateStep(records, key, now) == (records, true)
    ensures records[key].count < Limit ==>
              RateStep(records, key, now)
              == (records[key := RateRecord(records[key].count + 1, records[key].resetTime)], false)
  {
  }

  /** A step keeps every stored count between 1 and 100. */
  lemma StepKeepsValid(records: map<string, RateRecord>, path: string, ip: Option<string>, cookie: Option<string>, now: int)
    requires ValidRecords(records)
    ensures ValidRecords(Step(records, path, ip, cookie, now).0)
  {
  }

  /** An `/admin` page without a truthy cookie redirects to the login page; any non-empty cookie passes. */
  lemma AdminGate(records: map<string, RateRecord>, path: string, ip: Option<string>, cookie: Option<string>, now: int)
    requires StartsWith(path, "/admin")
    ensures !Truthy(cookie) ==> Step(records, path, ip, cookie, now) == (records, RedirectToLogin)
    ensures Truthy(cookie) ==> Step(records, path, ip, cookie, now) == (records, Next)
  {
    assert path[..5] != "/api/" by { assert path[1] == 'a' && path[2] == 'd'; }
  }

  // ---------------------------------------------------------------------------
  // At most `Limit` requests per window

  /** Feeds `/api/` requests from `key` at the given times; returns the final map and how many were admitted. */
  function Run(records: map<string, RateRecord>, key: string, times: seq<int>): (map<string, RateRecord>, nat)
    decreases |times|
  {
    if times == [] then (records, 0)
    else
      var (after, refused) := RateStep(records, key, times[0]);
      var (final, admitted) := Run(after, key, times[1..]);
      (final, admitted + if refused then 0 else 1)
  }

  /**
   * While every request falls at or before the end of the current window,
   * no more requests are admitted than the window has left.
   */
  lemma {:induction false} WindowAdmitsAtMostRemaining(records: map<string, RateRecord>, key: string, times: seq<int>)
    requires key in records && records[key].count <= Limit
    requires forall i :: 0 <= i < |times| ==> times[i] <= records[key].resetTime
    ensures Run(records, key, times).1 <= Limit - records[key].count
    decreases |times|
  {
    if times != [] {
      var (after, refused) := RateStep(records, key, times[0]);
      assert after[key].resetTime == records[key].resetTime;
      WindowAdmitsAtMostRemaining(after, key, times[1..]);
    }
  }

  /** From a window's first request at `t0`, at most 100 requests are admitted up to `t0 + 60000`. */
  lemma AtMostLimitPerWindow(records: map<string, RateRecord>, key: string, t0: int, times: seq<int>)
    requires key !in records || t0 > records[key].resetTime
    requires forall i :: 0 <= i < |times| ==> times[i] <= t0 + WindowMs
    ensures Run(records, key, [t0] + times).1 <= Limit
  {
    var after := RateStep(records, key, t0).0;
    assert ([t0] + times)[1..] == times;
    WindowAdmitsAtMostRemaining(after, key, times);
  }
}

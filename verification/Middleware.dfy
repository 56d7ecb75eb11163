/** The middleware around one request, performed on the key table in place. */
module Middleware {
  import opened Wrappers
  import opened Idempotency

  class KeyTable {
    var rows: Rows

    constructor ()
      ensures rows == map[]
    {
      rows := map[];
    }

    method Claim(scope: Scope, hash: string) returns (claimed: bool)
      modifies this
      ensures claimed <==> scope !in old(rows)
      ensures rows == Claimed(old(rows), scope, hash)
    {
      claimed := scope !in rows;
      if claimed {
        rows := rows[scope := Row(hash, None, None)];
      }
    }

    method Complete(scope: Scope, hash: string, status: int, body: Option<Json>)
      modifies this
      ensures rows == Completed(old(rows), scope, hash, status, body)
    {
      if scope in rows && rows[scope].hash == hash {
        rows := rows[scope := rows[scope].(status := Some(status), body := body)];
      }
    }

    method Release(scope: Scope, hash: string)
      modifies this
      ensures rows == Released(old(rows), scope, hash)
    {
      if scope in rows && rows[scope].hash == hash && rows[scope].status.None? {
        rows := rows - {scope};
      }
    }
  }

  /** Releasing a claim that was won restores the table, whatever else it holds. */
  lemma ReleaseUndoesClaim(rows: Rows, scope: Scope, hash: string)
    requires scope !in rows
    ensures Released(Claimed(rows, scope, hash), scope, hash) == rows
  {
    assert rows[scope := Row(hash, None, None)] - {scope} == rows;
  }

  /** What successive looks at the row find while other requests are at work. */
  type Observations = nat -> Option<Row>

  predicate Undecided(seen: Observations, hash: string, n: nat) {
    forall i :: 0 <= i < n ==> Concluded(seen(i), hash).None?
  }

  /** The first look that decides gives the reply, and no look that decides means still in progress. */
  predicate Replies(seen: Observations, hash: string, polls: nat, r: Reply) {
    if Undecided(seen, hash, polls) then r == InProgress
    else exists k :: 0 <= k < polls && Undecided(seen, hash, k) && Concluded(seen(k), hash) == Some(r)
  }

  /** Poll until a look at the row decides, or the deadline leaves no further poll. */
  method WaitForReplay(seen: Observations, hash: string, polls: nat) returns (r: Reply)
    ensures Replies(seen, hash, polls, r)
  {
    for i := 0 to polls
      invariant Undecided(seen, hash, i)
    {
      var existing := seen(i);
      if existing.None? {
        return InProgress;
      }
      if existing.value.hash != hash || existing.value.status.Some? {
        return ReplayOrConflict(existing.value, hash);
      }
    }
    return InProgress;
  }

  datatype HttpRequest = HttpRequest(verb: string, key: Option<string>, organization: Option<nat>, hash: string)

  datatype Route = Responds(status: int, body: Body) | Raises

  const MUTATING: set<string> := {"POST", "PUT", "PATCH", "DELETE"}

  predicate OptedIn(request: HttpRequest) {
    request.verb in MUTATING && request.key.Some? && request.key.value != ""
  }

  function ScopeOf(request: HttpRequest): Scope
    requires OptedIn(request)
  {
    Scope(request.key.value, if request.organization.Some? then request.organization.value else 0)
  }

  /** The verbs that take part, and nothing but a non-empty key on one of them. */
  lemma OptsInIff(request: HttpRequest)
    ensures OptedIn(request) <==>
            && (request.verb == "POST" || request.verb == "PUT" || request.verb == "PATCH" || request.verb == "DELETE")
            && request.key.Some? && |request.key.value| > 0
  {
  }

  /** Requests share a scope exactly when their keys and organizations agree; no principal counts as organization zero. */
  lemma SameScopeIff(a: HttpRequest, b: HttpRequest)
    requires OptedIn(a) && OptedIn(b)
    ensures ScopeOf(a) == ScopeOf(b) <==>
            && a.key == b.key
            && (a.organization == b.organization
                || (a.organization.None? && b.organization == Some(0)) || (b.organization.None? && a.organization == Some(0)))
  {
  }

  function EndingOf(route: Route): Ending {
    match route
    case Responds(status, body) => Direct(status, body)
    case Raises => Failed
  }

  /** The table after a request has settled its claim. */
  function Settled(rows: Rows, scope: Scope, hash: string, route: Route): Rows {
    match route
    case Raises => Released(rows, scope, hash)
    case Responds(status, body) =>
      if Parse(body).Some? then Completed(rows, scope, hash, status, Parse(body).value) else rows
  }

  /**
   One request among others: they change the table in any way while the route runs (`others`)
   and between the looks of a waiting request (`seen`). The route runs exactly when the
   request opted out or its key is new, and what it leaves is the settled claim.
   */
  method Dispatch(table: KeyTable, request: HttpRequest, route: Route, others: Rows -> Rows, seen: Observations, polls: nat)
    returns (r: Ending, ran: bool)
    modifies table
    ensures ran <==> !OptedIn(request) || ScopeOf(request) !in old(table.rows)
    ensures ran ==> r == if route.Raises? then Failed else Direct(route.status, route.body)
    ensures !ran ==> r.Waited? && Replies(seen, request.hash, polls, r.reply)
    ensures table.rows ==
            if !ran || !OptedIn(request) then old(table.rows)
            else
              var scope := ScopeOf(request);
              Settled(others(Claimed(old(table.rows), scope, request.hash)), scope, request.hash, route)
  {
    if !OptedIn(request) {
      return EndingOf(route), true;
    }
    var scope := ScopeOf(request);
    var claimed := table.Claim(scope, request.hash);
    if !claimed {
      var reply := WaitForReplay(seen, request.hash, polls);
      return Waited(reply), false;
    }
    table.rows := others(table.rows);
    ran := true;
    match route
    case Raises =>
      table.Release(scope, request.hash);
      r := Failed;
    case Responds(status, body) =>
      var parsed := Parse(body);
      if parsed.Some? {
        table.Complete(scope, request.hash, status, parsed.value);
      }
      r := Direct(status, body);
  }

  /** Settling is what the protocol's last step of an execution does to the table. */
  lemma SettlesAsInProtocol(s: Sys, pid: nat, route: Route)
    requires pid in s.requests && s.requests[pid].pc.Running?
    ensures var r := s.requests[pid];
            match route
            case Raises =>
              && DoRaise(s, pid).Some?
              && var raised := DoRaise(s, pid).value;
                 DoRelease(raised, pid).Some?
                 && DoRelease(raised, pid).value.rows == Settled(s.rows, r.scope, r.hash, route)
            case Responds(status, body) =>
              && DoReturn(s, pid, status, body).Some?
              && var returned := DoReturn(s, pid, status, body).value;
                 DoComplete(returned, pid).Some?
                 && DoComplete(returned, pid).value.rows == Settled(s.rows, r.scope, r.hash, route)
  {
  }

  /** With the table to itself an exception leaves no trace, and a decodable response is stored under the key. */
  lemma AloneLeavesOnlyItsRow(rows: Rows, scope: Scope, hash: string, route: Route)
    requires scope !in rows
    ensures Settled(Claimed(rows, scope, hash), scope, hash, route) ==
            match route
            case Raises => rows
            case Responds(status, body) =>
              rows[scope := if Parse(body).Some? then Row(hash, Some(status), Parse(body).value) else Row(hash, None, None)]
  {
    ReleaseUndoesClaim(rows, scope, hash);
  }

  /**
   Requests with another key or organization do not touch each other: when nobody else
   interferes, what the first leaves under the second's scope is what was there, and whether
   it runs does not depend on it.
   */
  lemma ScopesAreIndependent(rows: Rows, a: HttpRequest, b: HttpRequest, route: Route)
    requires OptedIn(a) && OptedIn(b) && a.organization.Some? && b.organization.Some?
    requires a.key != b.key || a.organization != b.organization
    ensures Lookup(Settled(Claimed(rows, ScopeOf(a), a.hash), ScopeOf(a), a.hash, route), ScopeOf(b)) == Lookup(rows, ScopeOf(b))
    ensures ScopeOf(a) in rows <==> ScopeOf(a) in rows - {ScopeOf(b)}
  {
    SameScopeIff(a, b);
  }

  // ----- Request hashing -----

  /** The text that is hashed. The method is not part of it, and nothing separates its parts. */
  function HashedText(endpoint: string, organization: string, body: string): string {
    endpoint + organization + body
  }

  /** The body that makes a request to `shorter` hash like one to `longer` with body `body`. */
  function Shifted(shorter: string, longer: string, organization: string, body: string): string
    requires |shorter| <= |longer|
  {
    (longer + organization)[|shorter + organization|..] + body
  }

  lemma SameTextPrefix(e1: string, b1: string, e2: string, b2: string, organization: string)
    requires |e1| <= |e2|
    ensures HashedText(e1, organization, b1) == HashedText(e2, organization, b2)
            <==> e1 + organization <= e2 + organization && b1 == Shifted(e1, e2, organization, b2)
  {
    var u1, u2 := e1 + organization, e2 + organization;
    var n := |u1|;
    if u1 + b1 == u2 + b2 {
      assert (u1 + b1)[..n] == u1 && (u2 + b2)[..n] == u2[..n];
      assert (u1 + b1)[n..] == b1 && (u2 + b2)[n..] == u2[n..] + b2;
    }
    if u1 <= u2 && b1 == u2[n..] + b2 {
      assert u2 == u1 + u2[n..];
      assert u1 + (u2[n..] + b2) == (u1 + u2[n..]) + b2;
    }
  }

  /**
   Two requests of one organization hash the same text exactly when they are the same request,
   or when one path followed by the organization begins the other one's and its body makes up
   the difference.
   */
  lemma SameTextSameRequest(e1: string, b1: string, e2: string, b2: string, organization: string)
    ensures HashedText(e1, organization, b1) == HashedText(e2, organization, b2) <==>
            || (e1 == e2 && b1 == b2)
            || (|e1| < |e2| && e1 + organization <= e2 + organization && b1 == Shifted(e1, e2, organization, b2))
            || (|e2| < |e1| && e2 + organization <= e1 + organization && b2 == Shifted(e2, e1, organization, b1))
  {
    if |e1| <= |e2| {
      SameTextPrefix(e1, b1, e2, b2, organization);
    }
    if |e2| <= |e1| {
      SameTextPrefix(e2, b2, e1, b1, organization);
    }
    if |e1| == |e2| && e1 + organization <= e2 + organization {
      assert e1 == (e1 + organization)[..|e1|] == (e2 + organization)[..|e1|] == e2;
      assert (e2 + organization)[|e1 + organization|..] + b2 == b2;
    }
  }

  /** Whether two paths can be confused at all is decided before any body is known. */
  lemma EndpointsCollideIff(e1: string, e2: string, organization: string)
    ensures (exists b1, b2 :: (e1 != e2 || b1 != b2) && HashedText(e1, organization, b1) == HashedText(e2, organization, b2))
            <==> e1 != e2 && (e1 + organization <= e2 + organization || e2 + organization <= e1 + organization)
  {
    if b1, b2 :| (e1 != e2 || b1 != b2) && HashedText(e1, organization, b1) == HashedText(e2, organization, b2) {
      SameTextSameRequest(e1, b1, e2, b2, organization);
    }
    if e1 != e2 && e1 + organization <= e2 + organization {
      SameTextPrefix(e1, Shifted(e1, e2, organization, ""), e2, "", organization);
    }
    if e1 != e2 && e2 + organization <= e1 + organization {
      SameTextPrefix(e2, Shifted(e2, e1, organization, ""), e1, "", organization);
    }
  }

  /** One such pair exists for every path: the organization can be moved from the body into the path. */
  lemma TextCanCollide(endpoint: string, organization: string, body: string)
    ensures HashedText(endpoint, organization, organization + body)
         == HashedText(endpoint + organization, organization, body)
  {
    assert endpoint + organization + (organization + body) == endpoint + organization + organization + body;
  }
}

/**
 * The tenant resolver of `src/services/tenant.ts`: a process-wide cached
 * tenant id, an "initializing" flag that keeps a second caller from issuing a
 * second remote lookup, the persisted `tenant_id` entry of local storage, and
 * the default request headers of the backend client.
 *
 * `getTenantId` is split at its one suspension point, the remote lookup:
 * `Begin` is everything up to the lookup (or up to an early return), and
 * `Complete` is what happens when the lookup settles. A caller that finds the
 * flag set sleeps 100 ms and calls again; here it gets `Wait` and calls
 * `Begin` again later.
 */
module TenantResolver {
  import opened Basics
  import opened Text
  import Lists

  const DEMO_TENANT_ID: string := "e97f27c9-8d4e-4e8c-a172-7846995c38b2"
  const TENANT_HEADER: string := "x-tenant-id"

  /** The module state: `currentTenantId`, `isInitializing`, `localStorage['tenant_id']`, `supabase.headers`. */
  datatype State = State(
    current: Option<string>,
    initializing: bool,
    stored: Option<string>,
    headers: map<string, string>)

  /** How the lookup of the demo tenant row settled. */
  datatype Lookup =
    | QueryError          // `error` set in the response
    | NoRow               // no error, but `data` is null
    | Row(id: string)     // the row, with its id
    | Rejected            // the call itself threw

  /** What one call of `getTenantId` does before it suspends or returns. */
  datatype Call =
    | Wait                     // a resolution is in flight: sleep and call again
    | Cached(id: string)       // the in-memory id, returned as is
    | FromStorage(id: string)  // the persisted id, now also cached
    | LookupIssued             // the remote lookup was started

  predicate IsLookup(c: Call) { c.LookupIssued? }

  /** In-memory id and persisted id agree whenever an id is cached. */
  predicate Agreement(s: State)
  {
    s.current.Some? ==> s.stored == s.current
  }

  /** `getTenantId()` up to the remote lookup (tenant.ts lines 17-36). */
  function Begin(s: State): (r: (Call, State))
    ensures r.0.Wait? <==> s.initializing
    ensures r.0.Wait? ==> r.1 == s
    ensures r.0.Cached? ==> !s.initializing && Truthy(s.current) && r.0.id == s.current.value && r.1 == s
    ensures r.0.FromStorage? ==>
              !s.initializing && !Truthy(s.current) && Truthy(s.stored) && r.0.id == s.stored.value
              && r.1.current == s.stored && !r.1.initializing
    ensures r.0.LookupIssued? <==> !s.initializing && !Truthy(s.current) && !Truthy(s.stored)
    ensures r.1.initializing <==> s.initializing || r.0.LookupIssued?
    ensures r.1.stored == s.stored && r.1.headers == s.headers
    ensures Agreement(s) ==> Agreement(r.1)
  {
    if s.initializing then (Wait, s)
    else if Truthy(s.current) then (Cached(s.current.value), s)
    else if Truthy(s.stored) then (FromStorage(s.stored.value), s.(current := s.stored))
    else (LookupIssued, s.(initializing := true))
  }

  /** `handleNoTenant()`: cache and persist the demo id. */
  function NoTenant(s: State): (r: (string, State))
    ensures r.0 == DEMO_TENANT_ID
    ensures r.1.current == Some(DEMO_TENANT_ID) && r.1.stored == Some(DEMO_TENANT_ID)
    ensures r.1.initializing == s.initializing && r.1.headers == s.headers
  {
    (DEMO_TENANT_ID, s.(current := Some(DEMO_TENANT_ID), stored := Some(DEMO_TENANT_ID)))
  }

  /**
   * The rest of `getTenantId()` once the lookup settles (tenant.ts lines
   * 44-68): an error, a missing row or a throw falls back to the demo id; a
   * row is cached and persisted; the `finally` clears the flag on every path.
   */
  function Complete(s: State, l: Lookup): (r: (string, State))
    ensures r.0 == if l.Row? then l.id else DEMO_TENANT_ID
    ensures r.1.current == Some(r.0) && r.1.stored == Some(r.0)
    ensures !r.1.initializing
    ensures r.1.headers == s.headers
  {
    var (id, s') := match l
      case Row(id) => (id, s.(current := Some(id), stored := Some(id)))
      case _ => NoTenant(s);
    (id, s'.(initializing := false))
  }

  /** `setCurrentTenant(x)` (tenant.ts lines 77-85). */
  function SetCurrent(s: State, x: string): (r: State)
    ensures r.current == Some(x) && r.stored == Some(x)
    ensures Agreement(r)
    ensures r.initializing == s.initializing
    ensures r.headers == s.headers[TENANT_HEADER := x]
    ensures forall h :: h in s.headers && h != TENANT_HEADER ==> h in r.headers && r.headers[h] == s.headers[h]
  {
    s.(current := Some(x), stored := Some(x), headers := s.headers[TENANT_HEADER := x])
  }

  /** `setCurrentTenant(x)` then `getTenantId()`, with no resolution in flight, answers `x` from the cache. */
  lemma SetThenGet(s: State, x: string)
    requires !s.initializing && x != ""
    ensures Begin(SetCurrent(s, x)).0 == Cached(x)
  {
  }

  /**
   * The empty id is falsy in JavaScript: after `setCurrentTenant('')` the
   * next call skips both the cache and the persisted copy and goes remote.
   */
  lemma SetEmptyThenGet(s: State)
    requires !s.initializing
    ensures Begin(SetCurrent(s, "")).0 == LookupIssued
  {
  }

  /** Callers that retry after the lookup settled are answered from the cache with the same id. */
  lemma CompleteThenRetry(s: State, l: Lookup)
    requires l.Row? ==> l.id != ""
    ensures Begin(Complete(s, l).1).0 == Cached(Complete(s, l).0)
  {
  }

  /** The id a call answers with, if it answers. */
  function Answer(c: Call): Option<string>
  {
    match c
    case Cached(id) => Some(id)
    case FromStorage(id) => Some(id)
    case _ => None
  }

  /** `n` calls of `getTenantId()` that all arrive before any remote lookup settles. */
  function Burst(s: State, n: nat): (calls: seq<Call>)
    ensures |calls| == n
    decreases n
  {
    if n == 0 then [] else
    var step := Begin(s);
    [step.0] + Burst(step.1, n - 1)
  }

  /** Once the flag is set or an id is cached, no call of a burst goes remote. */
  lemma {:induction false} BurstQuiet(s: State, n: nat)
    requires s.initializing || Truthy(s.current)
    ensures Lists.Count(Burst(s, n), IsLookup) == 0
    ensures forall c :: c in Burst(s, n) && Answer(c).Some? ==> !s.initializing && Answer(c) == s.current
  {
    if n > 0 {
      BurstQuiet(Begin(s).1, n - 1);
    }
  }

  /**
   * At most one remote lookup per burst of overlapping calls, none at all
   * if a resolution is already in flight, and every call that answers
   * answers with the same id.
   */
  lemma {:induction false} BurstIssuesAtMostOneLookup(s: State, n: nat)
    ensures Lists.Count(Burst(s, n), IsLookup) <= 1
    ensures s.initializing ==> Lists.Count(Burst(s, n), IsLookup) == 0
    ensures forall c, d :: c in Burst(s, n) && d in Burst(s, n) && Answer(c).Some? && Answer(d).Some? ==> Answer(c) == Answer(d)
  {
    if n > 0 {
      var (c, s') := Begin(s);
      BurstQuiet(s', n - 1);
      assert Burst(s, n) == [c] + Burst(s', n - 1);
      Lists.FilterAppend([c], Burst(s', n - 1), IsLookup);
    }
  }

  /** The resolver's module state as an object whose fields the operations update in place. */
  class Resolver {
    var currentTenantId: Option<string>
    var isInitializing: bool
    var storedTenantId: Option<string>
    var headers: map<string, string>

    function Snapshot(): State
      reads this
    {
      State(currentTenantId, isInitializing, storedTenantId, headers)
    }

    /** Module load: nothing cached, no resolution in flight; storage and headers are whatever they were. */
    constructor (stored: Option<string>, initialHeaders: map<string, string>)
      ensures Snapshot() == State(None, false, stored, initialHeaders)
    {
      currentTenantId := None;
      isInitializing := false;
      storedTenantId := stored;
      headers := initialHeaders;
    }

    method BeginGetTenantId() returns (c: Call)
      modifies this
      ensures (c, Snapshot()) == Begin(old(Snapshot()))
    {
      if isInitializing {
        return Wait;
      }
      if Truthy(currentTenantId) {
        return Cached(currentTenantId.value);
      }
      isInitializing := true;
      var stored := storedTenantId;
      if Truthy(stored) {
        currentTenantId := stored;
        isInitializing := false;
        return FromStorage(stored.value);
      }
      return LookupIssued;
    }

    method HandleNoTenant() returns (id: string)
      modifies this
      ensures (id, Snapshot()) == NoTenant(old(Snapshot()))
    {
      currentTenantId := Some(DEMO_TENANT_ID);
      storedTenantId := Some(DEMO_TENANT_ID);
      return DEMO_TENANT_ID;
    }

    method CompleteLookup(l: Lookup) returns (id: string)
      modifies this
      ensures (id, Snapshot()) == Complete(old(Snapshot()), l)
    {
      match l {
        case Row(rowId) =>
          currentTenantId := Some(rowId);
          storedTenantId := Some(rowId);
          id := rowId;
        case _ =>
          id := HandleNoTenant();
      }
      isInitializing := false;
    }

    method SetCurrentTenant(tenantId: string)
      modifies this
      ensures Snapshot() == SetCurrent(old(Snapshot()), tenantId)
    {
      currentTenantId := Some(tenantId);
      storedTenantId := Some(tenantId);
      headers := headers[TENANT_HEADER := tenantId];
    }
  }
}

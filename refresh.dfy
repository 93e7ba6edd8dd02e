/**
 * The single-flight refresh coordinator of the HTTP client: the response
 * interceptor with its `isRefreshing` flag, its FIFO queue of waiters and
 * the `_retry` mark on request configurations.
 *
 * The interceptor runs on one thread, so it is a state machine driven by
 * two kinds of event: a request gets its reply, or the one refresh call in
 * flight settles. What the interceptor does to the outside world (a refresh
 * call posted, the credential hook called, a request replayed, re-issued or
 * rejected, the logout hook called) is appended to a log.
 */
module Refresh {
  import opened Options
  import Session

  /** A request configuration object, by identity. */
  type RequestId = nat

  const Unauthorized := 401

  /** Why a request failed: an HTTP status, or no response at all (a network error). */
  datatype Failure = HttpStatus(status: int) | NoResponse

  /** How one request through the client settled. */
  datatype Reply = Delivered | Failed(failure: Failure)

  /** How the refresh call settled. */
  datatype RefreshOutcome = Refreshed | RefreshFailed(error: Failure)

  datatype Action =
    | PassedThrough(id: RequestId)            // `(res) => res`
    | Rejected(id: RequestId, failure: Failure) // `Promise.reject(error)`, the error unchanged
    | RefreshIssued(id: RequestId)            // the refresh call posted on behalf of `id`
    | CredentialSet(token: string)            // `setAccessToken(newAccess)`
    | Replayed(id: RequestId, authorization: string) // a waiter resolved, to be re-sent with this header
    | Reissued(id: RequestId)                 // `api(original)` for the initiator
    | WaiterRejected(id: RequestId, error: Failure)
    | LoggedOut                               // `logout()`
    | InitiatorRejected(id: RequestId, error: Failure)

  datatype Event = Response(id: RequestId, reply: Reply) | RefreshSettled(outcome: RefreshOutcome)

  /**
   * The module-level `isRefreshing` and `queue`, the requests marked
   * `_retry`, the request whose handler is awaiting the refresh, and the log.
   */
  datatype State = State(refreshing: bool, queue: seq<RequestId>, retried: set<RequestId>,
                         initiator: Option<RequestId>, log: seq<Action>)

  const Initial := State(false, [], {}, None, [])

  /** The header a resolved waiter is replayed with: `Bearer ${token}` for the token "cookie". */
  function Authorization(token: string): string {
    "Bearer " + token
  }

  // ---------------------------------------------------------------------
  // Counting actions in a log
  // ---------------------------------------------------------------------

  datatype Kind = RefreshCall | Settlement | Logout

  /** A settlement ends a refresh: the initiator is re-issued or rejected. */
  predicate OfKind(a: Action, k: Kind) {
    match k
    case RefreshCall => a.RefreshIssued?
    case Settlement => a.Reissued? || a.InitiatorRejected?
    case Logout => a.LoggedOut?
  }

  function Count(log: seq<Action>, k: Kind): nat
  {
    if log == [] then 0
    else Count(log[..|log| - 1], k) + (if OfKind(log[|log| - 1], k) then 1 else 0)
  }

  lemma {:induction false} CountAppend(a: seq<Action>, b: seq<Action>, k: Kind)
    ensures Count(a + b, k) == Count(a, k) + Count(b, k)
  {
    if b != [] {
      var c := b[..|b| - 1];
      assert (a + b)[..|a + b| - 1] == a + c;
      assert (a + b)[|a + b| - 1] == b[|b| - 1];
      CountAppend(a, c, k);
      assert Count(a + b, k) == Count(a + c, k) + (if OfKind(b[|b| - 1], k) then 1 else 0);
    } else {
      assert a + b == a;
    }
  }

  // ---------------------------------------------------------------------
  // The waiters' outcomes
  // ---------------------------------------------------------------------

  /** `queue.forEach((p) => p.resolve(newAccess))`: each waiter replayed with the new header. */
  function Replays(q: seq<RequestId>): seq<Action> {
    if q == [] then []
    else Replays(q[..|q| - 1]) + [Replayed(q[|q| - 1], Authorization(Session.CookieMarker))]
  }

  /** `queue.forEach((p) => p.reject(e))`: each waiter rejected with the refresh error. */
  function Rejections(q: seq<RequestId>, e: Failure): seq<Action> {
    if q == [] then [] else Rejections(q[..|q| - 1], e) + [WaiterRejected(q[|q| - 1], e)]
  }

  /** Every waiter is resolved, in the order it was queued, and replayed with the new header. */
  lemma {:induction false} ReplaysInOrder(q: seq<RequestId>)
    ensures |Replays(q)| == |q|
    ensures forall k | 0 <= k < |q| :: Replays(q)[k] == Replayed(q[k], Authorization(Session.CookieMarker))
  {
    if q != [] {
      ReplaysInOrder(q[..|q| - 1]);
    }
  }

  /** Every waiter is rejected, in the order it was queued, with the refresh error. */
  lemma {:induction false} RejectionsInOrder(q: seq<RequestId>, e: Failure)
    ensures |Rejections(q, e)| == |q|
    ensures forall k | 0 <= k < |q| :: Rejections(q, e)[k] == WaiterRejected(q[k], e)
  {
    if q != [] {
      RejectionsInOrder(q[..|q| - 1], e);
    }
  }

  /** Resolving or rejecting waiters issues no refresh, settles no refresh and logs nobody out. */
  lemma {:induction false} WaitersCountNothing(q: seq<RequestId>, e: Failure, k: Kind)
    ensures Count(Replays(q), k) == 0
    ensures Count(Rejections(q, e), k) == 0
  {
    if q != [] {
      var p := q[..|q| - 1];
      WaitersCountNothing(p, e, k);
      CountAppend(Replays(p), [Replayed(q[|q| - 1], Authorization(Session.CookieMarker))], k);
      CountAppend(Rejections(p, e), [WaiterRejected(q[|q| - 1], e)], k);
    }
  }

  // ---------------------------------------------------------------------
  // The transitions
  // ---------------------------------------------------------------------

  /** `error.response?.status === 401 && !original._retry`. */
  predicate FirstUnauthorized(s: State, id: RequestId, reply: Reply) {
    reply == Failed(HttpStatus(Unauthorized)) && id !in s.retried
  }

  /** The interceptor's handling of one request's reply, up to its `await` of the refresh. */
  function OnReply(s: State, id: RequestId, reply: Reply): (r: State)
    ensures !FirstUnauthorized(s, id, reply) ==>
              r == s.(log := s.log + [if reply.Delivered? then PassedThrough(id)
                                      else Rejected(id, reply.failure)])
    ensures FirstUnauthorized(s, id, reply) && s.refreshing ==>
              r == s.(queue := s.queue + [id])
    ensures FirstUnauthorized(s, id, reply) && !s.refreshing ==>
              r.refreshing && r.initiator == Some(id) && r.retried == s.retried + {id}
              && r.queue == s.queue && r.log == s.log + [RefreshIssued(id)]
  {
    if !FirstUnauthorized(s, id, reply) then
      s.(log := s.log + [if reply.Delivered? then PassedThrough(id) else Rejected(id, reply.failure)])
    else if s.refreshing then
      s.(queue := s.queue + [id])
    else
      State(true, s.queue, s.retried + {id}, Some(id), s.log + [RefreshIssued(id)])
  }

  /** What the initiator's handler does once the refresh settles, waiters first. */
  function SettleActions(q: seq<RequestId>, id: RequestId, outcome: RefreshOutcome): seq<Action> {
    match outcome
    case Refreshed => [CredentialSet(Session.CookieMarker)] + Replays(q) + [Reissued(id)]
    case RefreshFailed(e) => Rejections(q, e) + [LoggedOut, InitiatorRejected(id, e)]
  }

  /** Settling ends exactly one refresh, posts none, and logs out exactly on failure. */
  lemma SettleCounts(q: seq<RequestId>, id: RequestId, outcome: RefreshOutcome, k: Kind)
    ensures Count(SettleActions(q, id, outcome), k)
            == (if k == Settlement || (k == Logout && outcome.RefreshFailed?) then 1 else 0)
  {
    match outcome
    case Refreshed =>
      WaitersCountNothing(q, NoResponse, k);
      CountAppend([CredentialSet(Session.CookieMarker)], Replays(q), k);
      CountAppend([CredentialSet(Session.CookieMarker)] + Replays(q), [Reissued(id)], k);
      assert Count([CredentialSet(Session.CookieMarker)], k) == 0;
      assert Count([Reissued(id)], k) == (if k == Settlement then 1 else 0);
    case RefreshFailed(e) =>
      WaitersCountNothing(q, e, k);
      CountAppend(Rejections(q, e), [LoggedOut, InitiatorRejected(id, e)], k);
      assert [LoggedOut, InitiatorRejected(id, e)][..1] == [LoggedOut];
      assert Count([LoggedOut], k) == (if k == Logout then 1 else 0);
  }

  /** The initiator's handler resuming when the refresh settles, through its `finally`. */
  function OnRefreshSettled(s: State, outcome: RefreshOutcome): (r: State)
    requires s.initiator.Some?
    ensures !r.refreshing && r.queue == [] && r.initiator.None? && r.retried == s.retried
    ensures outcome.Refreshed? ==>
              r.log == s.log + [CredentialSet(Session.CookieMarker)] + Replays(s.queue)
                       + [Reissued(s.initiator.value)]
    ensures outcome.RefreshFailed? ==>
              r.log == s.log + Rejections(s.queue, outcome.error)
                       + [LoggedOut, InitiatorRejected(s.initiator.value, outcome.error)]
  {
    State(false, [], s.retried, None, s.log + SettleActions(s.queue, s.initiator.value, outcome))
  }

  /** One event; a refresh can only settle while one is in flight, so a stray settlement is ignored. */
  function Step(s: State, ev: Event): State {
    match ev
    case Response(id, reply) => OnReply(s, id, reply)
    case RefreshSettled(outcome) => if s.initiator.Some? then OnRefreshSettled(s, outcome) else s
  }

  function Run(s: State, evs: seq<Event>): State
    decreases |evs|
  {
    if evs == [] then s else Run(Step(s, evs[0]), evs[1..])
  }

  lemma {:induction false} RunAppend(s: State, a: seq<Event>, b: seq<Event>)
    ensures Run(s, a + b) == Run(Run(s, a), b)
    decreases |a|
  {
    if a != [] {
      assert (a + b)[0] == a[0];
      assert (a + b)[1..] == a[1..] + b;
      RunAppend(Step(s, a[0]), a[1..], b);
    } else {
      assert a + b == b;
    }
  }

  // ---------------------------------------------------------------------
  // The invariant
  // ---------------------------------------------------------------------

  /**
   * The queue is empty whenever no refresh is in flight; a refresh in
   * flight has exactly one initiator, which is marked `_retry`; no waiter is
   * marked; and every refresh call posted has settled except the one in
   * flight, so there is never more than one.
   */
  ghost predicate Inv(s: State) {
    && (!s.refreshing ==> s.queue == [])
    && (s.refreshing <==> s.initiator.Some?)
    && (s.initiator.Some? ==> s.initiator.value in s.retried)
    && (forall k | 0 <= k < |s.queue| :: s.queue[k] !in s.retried)
    && Count(s.log, RefreshCall) == Count(s.log, Settlement) + (if s.refreshing then 1 else 0)
  }

  lemma InitialInv()
    ensures Inv(Initial)
  {
  }

  lemma OnReplyKeepsInv(s: State, id: RequestId, reply: Reply)
    requires Inv(s)
    ensures Inv(OnReply(s, id, reply))
  {
    var r := OnReply(s, id, reply);
    var a := r.log[|s.log|..];
    assert r.log == s.log + a;
    forall k: Kind ensures Count(r.log, k) == Count(s.log, k) + Count(a, k) {
      CountAppend(s.log, a, k);
    }
    assert Count(a, RefreshCall) == (if r.refreshing && !s.refreshing then 1 else 0) by {
      if !FirstUnauthorized(s, id, reply) {
        assert |a| == 1;
      } else if s.refreshing {
        assert a == [];
      } else {
        assert a == [RefreshIssued(id)];
      }
    }
    assert Count(a, Settlement) == 0 by {
      if !FirstUnauthorized(s, id, reply) {
        assert |a| == 1;
      } else if s.refreshing {
        assert a == [];
      } else {
        assert a == [RefreshIssued(id)];
      }
    }
  }

  lemma OnRefreshSettledKeepsInv(s: State, outcome: RefreshOutcome)
    requires Inv(s) && s.initiator.Some?
    ensures Inv(OnRefreshSettled(s, outcome))
  {
    var acts := SettleActions(s.queue, s.initiator.value, outcome);
    CountAppend(s.log, acts, RefreshCall);
    CountAppend(s.log, acts, Settlement);
    SettleCounts(s.queue, s.initiator.value, outcome, RefreshCall);
    SettleCounts(s.queue, s.initiator.value, outcome, Settlement);
  }

  lemma StepKeepsInv(s: State, ev: Event)
    requires Inv(s)
    ensures Inv(Step(s, ev))
  {
    match ev
    case Response(id, reply) => OnReplyKeepsInv(s, id, reply);
    case RefreshSettled(outcome) =>
      if s.initiator.Some? {
        OnRefreshSettledKeepsInv(s, outcome);
      }
  }

  /** Every state the interceptor reaches keeps the invariant; at most one refresh is ever in flight. */
  lemma {:induction false} RunKeepsInv(s: State, evs: seq<Event>)
    requires Inv(s)
    ensures Inv(Run(s, evs))
    ensures Count(Run(s, evs).log, RefreshCall) <= Count(Run(s, evs).log, Settlement) + 1
    decreases |evs|
  {
    if evs != [] {
      StepKeepsInv(s, evs[0]);
      RunKeepsInv(Step(s, evs[0]), evs[1..]);
    }
  }

  // ---------------------------------------------------------------------
  // Bursts of 401 replies
  // ---------------------------------------------------------------------

  /** A 401 reply for each request of `ids`, in order. */
  function Burst(ids: seq<RequestId>): seq<Event> {
    if ids == [] then []
    else [Response(ids[0], Failed(HttpStatus(Unauthorized)))] + Burst(ids[1..])
  }

  predicate Unmarked(s: State, ids: seq<RequestId>) {
    forall id | id in ids :: id !in s.retried
  }

  /** While a refresh is in flight, first-time 401s join the end of the queue and nothing is logged. */
  lemma {:induction false} ParkedBehindRefresh(s: State, ids: seq<RequestId>)
    requires s.refreshing && Unmarked(s, ids)
    ensures Run(s, Burst(ids)) == s.(queue := s.queue + ids)
    decreases |ids|
  {
    if ids == [] {
      assert s.queue + ids == s.queue;
    } else {
      var evs := Burst(ids);
      var t := s.(queue := s.queue + [ids[0]]);
      assert evs[0] == Response(ids[0], Failed(HttpStatus(Unauthorized)));
      assert Step(s, evs[0]) == t;
      assert evs[1..] == Burst(ids[1..]);
      assert Run(s, evs) == Run(t, Burst(ids[1..]));
      ParkedBehindRefresh(t, ids[1..]);
      assert (s.queue + [ids[0]]) + ids[1..] == s.queue + ids;
    }
  }

  /**
   * From an idle client, a burst of first-time 401s posts exactly one
   * refresh call, on behalf of the first request, and queues the rest in
   * arrival order.
   */
  lemma SingleFlight(s: State, ids: seq<RequestId>)
    requires Inv(s) && !s.refreshing
    requires |ids| >= 1 && Unmarked(s, ids) && ids[0] !in ids[1..]
    ensures var r := Run(s, Burst(ids));
            r.refreshing && r.initiator == Some(ids[0]) && r.queue == ids[1..]
            && r.retried == s.retried + {ids[0]} && r.log == s.log + [RefreshIssued(ids[0])]
  {
    var evs := Burst(ids);
    var t := OnReply(s, ids[0], Failed(HttpStatus(Unauthorized)));
    assert evs[0] == Response(ids[0], Failed(HttpStatus(Unauthorized)));
    assert evs[1..] == Burst(ids[1..]);
    assert Run(s, evs) == Run(t, Burst(ids[1..]));
    ParkedBehindRefresh(t, ids[1..]);
  }

  /**
   * A burst followed by a successful refresh: "cookie" handed to the
   * credential hook, every waiter replayed in arrival order with the new
   * header, the initiator re-issued, and the client idle again with none of
   * the waiters marked.
   */
  lemma BurstThenRefreshed(s: State, ids: seq<RequestId>)
    requires Inv(s) && !s.refreshing
    requires |ids| >= 1 && Unmarked(s, ids) && ids[0] !in ids[1..]
    ensures var r := Run(s, Burst(ids) + [RefreshSettled(Refreshed)]);
            !r.refreshing && r.queue == [] && r.retried == s.retried + {ids[0]}
            && r.log == s.log + [RefreshIssued(ids[0]), CredentialSet(Session.CookieMarker)]
                        + Replays(ids[1..]) + [Reissued(ids[0])]
  {
    SingleFlight(s, ids);
    RunAppend(s, Burst(ids), [RefreshSettled(Refreshed)]);
    var t := Run(s, Burst(ids));
    assert Run(t, [RefreshSettled(Refreshed)]) == OnRefreshSettled(t, Refreshed);
    assert s.log + [RefreshIssued(ids[0])] + [CredentialSet(Session.CookieMarker)]
           == s.log + [RefreshIssued(ids[0]), CredentialSet(Session.CookieMarker)];
  }

  /**
   * A burst followed by a failed refresh: every waiter rejected with the
   * refresh error in arrival order, the logout hook called exactly once, and
   * the initiator rejected with that same error.
   */
  lemma BurstThenRefreshFailed(s: State, ids: seq<RequestId>, e: Failure)
    requires Inv(s) && !s.refreshing
    requires |ids| >= 1 && Unmarked(s, ids) && ids[0] !in ids[1..]
    ensures var r := Run(s, Burst(ids) + [RefreshSettled(RefreshFailed(e))]);
            !r.refreshing && r.queue == [] && r.retried == s.retried + {ids[0]}
            && r.log == s.log + [RefreshIssued(ids[0])] + Rejections(ids[1..], e)
                        + [LoggedOut, InitiatorRejected(ids[0], e)]
            && Count(r.log, Logout) == Count(s.log, Logout) + 1
  {
    SingleFlight(s, ids);
    RunAppend(s, Burst(ids), [RefreshSettled(RefreshFailed(e))]);
    var t := Run(s, Burst(ids));
    var acts := SettleActions(ids[1..], ids[0], RefreshFailed(e));
    assert Run(t, [RefreshSettled(RefreshFailed(e))]) == OnRefreshSettled(t, RefreshFailed(e));
    assert OnRefreshSettled(t, RefreshFailed(e)).log == t.log + acts;
    SettleCounts(ids[1..], ids[0], RefreshFailed(e), Logout);
    CountAppend(s.log, [RefreshIssued(ids[0])], Logout);
    CountAppend(t.log, acts, Logout);
    assert Count([RefreshIssued(ids[0])], Logout) == 0;
  }

  /**
   * Only the initiator carries the `_retry` mark: after a successful
   * refresh, a second 401 on the re-issued initiator is rejected as is, while
   * a second 401 on a replayed waiter starts a refresh of its own.
   */
  lemma OnlyInitiatorMarked(s: State, ids: seq<RequestId>)
    requires Inv(s) && !s.refreshing
    requires |ids| >= 2 && Unmarked(s, ids) && ids[0] !in ids[1..]
    ensures var r := Run(s, Burst(ids) + [RefreshSettled(Refreshed)]);
            OnReply(r, ids[0], Failed(HttpStatus(Unauthorized))).log
              == r.log + [Rejected(ids[0], HttpStatus(Unauthorized))]
            && OnReply(r, ids[1], Failed(HttpStatus(Unauthorized))).log
              == r.log + [RefreshIssued(ids[1])]
  {
    BurstThenRefreshed(s, ids);
    assert ids[1] == ids[1..][0];
  }

  // ---------------------------------------------------------------------
  // The interceptor's state, updated in place
  // ---------------------------------------------------------------------

  class Interceptor {
    var refreshing: bool
    var queue: seq<RequestId>
    var retried: set<RequestId>
    var initiator: Option<RequestId>
    var log: seq<Action>

    function Snapshot(): State
      reads this
    {
      State(refreshing, queue, retried, initiator, log)
    }

    ghost predicate Valid()
      reads this
    {
      Inv(Snapshot())
    }

    constructor ()
      ensures Valid() && Snapshot() == Initial
    {
      refreshing, queue, retried, initiator, log := false, [], {}, None, [];
    }

    /** The rejection handler of the response interceptor, up to its `await`; a success passes through. */
    method HandleResponse(id: RequestId, reply: Reply)
      requires Valid()
      modifies this
      ensures Valid()
      ensures Snapshot() == OnReply(old(Snapshot()), id, reply)
    {
      ghost var r := OnReply(Snapshot(), id, reply);
      OnReplyKeepsInv(Snapshot(), id, reply);
      if reply == Failed(HttpStatus(Unauthorized)) && id !in retried {
        if refreshing {
          queue := queue + [id];
          assert Snapshot() == r;
          return;
        }
        retried := retried + {id};
        refreshing := true;
        initiator := Some(id);
        log := log + [RefreshIssued(id)];
        assert Snapshot() == r;
      } else if reply.Delivered? {
        log := log + [PassedThrough(id)];
        assert Snapshot() == r;
      } else {
        log := log + [Rejected(id, reply.failure)];
        assert Snapshot() == r;
      }
    }

    /**
     * The initiator's handler after the `await`: the waiters' outcomes, then
     * the initiator's own, then `finally` clears the flag.
     */
    method HandleRefreshSettled(outcome: RefreshOutcome)
      requires Valid() && refreshing
      modifies this
      ensures Valid() && !refreshing
      ensures Snapshot() == OnRefreshSettled(old(Snapshot()), outcome)
    {
      ghost var r := OnRefreshSettled(Snapshot(), outcome);
      OnRefreshSettledKeepsInv(Snapshot(), outcome);
      var id := initiator.value;
      var acts;
      match outcome {
        case Refreshed =>
          var replays := ResolveAll(queue);
          acts := [CredentialSet(Session.CookieMarker)] + replays + [Reissued(id)];
        case RefreshFailed(e) =>
          var rejections := RejectAll(queue, e);
          acts := rejections + [LoggedOut, InitiatorRejected(id, e)];
      }
      log := log + acts;
      queue := [];
      refreshing := false;
      initiator := None;
      assert Snapshot() == r;
    }
  }

  /** `queue.forEach((p) => p.resolve(newAccess))`. */
  method ResolveAll(waiters: seq<RequestId>) returns (acts: seq<Action>)
    ensures acts == Replays(waiters)
  {
    acts := [];
    var i := 0;
    while i < |waiters|
      invariant 0 <= i <= |waiters|
      invariant acts == Replays(waiters[..i])
    {
      assert waiters[..i + 1][..i] == waiters[..i];
      acts := acts + [Replayed(waiters[i], Authorization(Session.CookieMarker))];
      i := i + 1;
    }
    assert waiters[..i] == waiters;
  }

  /** `queue.forEach((p) => p.reject(e))`. */
  method RejectAll(waiters: seq<RequestId>, e: Failure) returns (acts: seq<Action>)
    ensures acts == Rejections(waiters, e)
  {
    acts := [];
    var i := 0;
    while i < |waiters|
      invariant 0 <= i <= |waiters|
      invariant acts == Rejections(waiters[..i], e)
    {
      assert waiters[..i + 1][..i] == waiters[..i];
      acts := acts + [WaiterRejected(waiters[i], e)];
      i := i + 1;
    }
    assert waiters[..i] == waiters;
  }
}

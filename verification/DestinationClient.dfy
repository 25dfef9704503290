/**
 The client of the destination process: a map of pending requests, one timer each, and a failure flag, driven
 by events that may come in any order.  `DestinationProcess` is the client with its mutable fields; `Step` is
 the same machine on values, and the results about whole runs are proved over `Step`.
 */
module DestinationClient {

  const RESPONSE_TIMEOUT_MS: nat := 15000

  type RequestId = nat

  datatype OptionalId = NoId | WithId(id: RequestId)

  datatype Failure = Unavailable | ResponseTimeout | SendRefused | Remote(message: string)

  datatype Outcome = Resolved(reply: string) | Rejected(failure: Failure)

  /** What the channel does with one `send`: it takes the message, or throws at once. */
  datatype Send = Queued | Throws

  datatype Event =
    | Request(id: RequestId, send: Send)
    | Message(reference: OptionalId, error: string, reply: string)
    | Timeout(id: RequestId)
    | SendFailed(id: RequestId)
    | ChildFailed
    | Disconnected
    | Tick(time: nat)

  /** `pending` and `timers` map a request to the due time of its timer: the first is the client's own map,
      the second the timers that can still fire.  The rest is history: `accepted` are the requests entered in
      the map, with the time of entry; `refused` those rejected without an entry; `thrown` those whose `send`
      threw, so that the promise is rejected while the entry stays.  A promise keeps the first outcome it is
      given (`settled`); `calls` counts every attempt to settle it. */
  datatype State = State(
    pending: map<RequestId, nat>,
    timers: map<RequestId, nat>,
    failed: bool,
    connected: bool,
    now: nat,
    accepted: map<RequestId, nat>,
    refused: set<RequestId>,
    thrown: set<RequestId>,
    settled: map<RequestId, Outcome>,
    calls: map<RequestId, nat>
  )

  const INITIAL: State := State(map[], map[], false, true, 0, map[], {}, {}, map[], map[])

  // ----- settling a promise ---------------------------------------------------------------------

  function CallsOf(calls: map<RequestId, nat>, id: RequestId): nat {
    if id in calls then calls[id] else 0
  }

  function FirstOutcome(settled: map<RequestId, Outcome>, id: RequestId, o: Outcome): map<RequestId, Outcome> {
    if id in settled then settled else settled[id := o]
  }

  function Settle(s: State, id: RequestId, o: Outcome): State {
    s.(settled := FirstOutcome(s.settled, id, o), calls := s.calls[id := CallsOf(s.calls, id) + 1])
  }

  function Drop(s: State, id: RequestId): State {
    s.(pending := s.pending - {id}, timers := s.timers - {id})
  }

  // ----- one event ------------------------------------------------------------------------------

  function Enter(s: State, id: RequestId): State {
    var due := s.now + RESPONSE_TIMEOUT_MS;
    s.(pending := s.pending[id := due], timers := s.timers[id := due], accepted := s.accepted[id := s.now])
  }

  function OnRequest(s: State, id: RequestId, send: Send): State {
    if s.failed || !s.connected then
      Settle(s.(refused := s.refused + {id}), id, Rejected(Unavailable))
    else
      var entered := Enter(s, id);
      if send == Queued then entered
      else Settle(entered.(thrown := s.thrown + {id}), id, Rejected(SendRefused))
  }

  function OnMessage(s: State, reference: OptionalId, error: string, reply: string): State {
    if reference.NoId? || reference.id !in s.pending then s
    else Settle(Drop(s, reference.id), reference.id,
                if error != "" then Rejected(Remote(error)) else Resolved(reply))
  }

  function OnTimeout(s: State, id: RequestId): State {
    Settle(Drop(s, id), id, Rejected(ResponseTimeout))
  }

  function OnSendFailed(s: State, id: RequestId): State {
    if id in s.pending then Settle(Drop(s, id), id, Rejected(Unavailable)) else s
  }

  function RejectAll(settled: map<RequestId, Outcome>, ids: set<RequestId>): map<RequestId, Outcome> {
    map id | id in settled.Keys + ids :: if id in settled then settled[id] else Rejected(Unavailable)
  }

  function CallAll(calls: map<RequestId, nat>, ids: set<RequestId>): map<RequestId, nat> {
    map id | id in calls.Keys + ids :: if id in ids then CallsOf(calls, id) + 1 else calls[id]
  }

  /** Every pending request is rejected and its timer cleared. */
  function OnChildFailed(s: State): State {
    s.(failed := true,
       timers := s.timers - s.pending.Keys,
       pending := map[],
       settled := RejectAll(s.settled, s.pending.Keys),
       calls := CallAll(s.calls, s.pending.Keys))
  }

  function Step(s: State, e: Event): State {
    match e
    case Request(id, send) => OnRequest(s, id, send)
    case Message(reference, error, reply) => OnMessage(s, reference, error, reply)
    case Timeout(id) => OnTimeout(s, id)
    case SendFailed(id) => OnSendFailed(s, id)
    case ChildFailed => OnChildFailed(s)
    case Disconnected => s.(connected := false)
    case Tick(time) => s.(now := time)
  }

  /** The environment: ids are fresh, a timer fires only while it is live and due, and time does not pass a
      live timer that is due.  Everything else may happen at any moment. */
  predicate Enabled(s: State, e: Event) {
    match e
    case Request(id, send) => id !in s.accepted && id !in s.refused
    case Timeout(id) => id in s.timers && s.timers[id] <= s.now
    case Tick(time) => s.now <= time && forall id :: id in s.timers ==> time <= s.timers[id]
    case _ => true
  }

  // ----- the client itself ----------------------------------------------------------------------

  class DestinationProcess {
    var pending: map<RequestId, nat>
    var timers: map<RequestId, nat>
    var failed: bool
    var connected: bool
    var now: nat
    var settled: map<RequestId, Outcome>
    var calls: map<RequestId, nat>
    ghost var accepted: map<RequestId, nat>
    ghost var refused: set<RequestId>
    ghost var thrown: set<RequestId>

    ghost function View(): State
      reads this
    {
      State(pending, timers, failed, connected, now, accepted, refused, thrown, settled, calls)
    }

    constructor ()
      ensures View() == INITIAL
    {
      pending, timers, settled, calls, accepted := map[], map[], map[], map[], map[];
      failed, connected, now := false, true, 0;
      refused, thrown := {}, {};
    }

    method SettlePromise(id: RequestId, o: Outcome)
      modifies `settled, `calls
      ensures settled == FirstOutcome(old(settled), id, o)
      ensures calls == old(calls)[id := CallsOf(old(calls), id) + 1]
    {
      settled := FirstOutcome(settled, id, o);
      calls := calls[id := CallsOf(calls, id) + 1];
    }

    /** The timer is started and the entry made, in this order. */
    method EnterPending(id: RequestId)
      modifies `timers, `pending, `accepted
      ensures timers == old(timers)[id := now + RESPONSE_TIMEOUT_MS]
      ensures pending == old(pending)[id := now + RESPONSE_TIMEOUT_MS]
      ensures accepted == old(accepted)[id := now]
    {
      timers := timers[id := now + RESPONSE_TIMEOUT_MS];
      pending := pending[id := now + RESPONSE_TIMEOUT_MS];
      accepted := accepted[id := now];
    }

    method RefuseAtOnce(id: RequestId)
      modifies `refused, `settled, `calls
      ensures refused == old(refused) + {id}
      ensures settled == FirstOutcome(old(settled), id, Rejected(Unavailable))
      ensures calls == old(calls)[id := CallsOf(old(calls), id) + 1]
    {
      refused := refused + {id};
      SettlePromise(id, Rejected(Unavailable));
    }

    method Request(id: RequestId, send: Send)
      modifies this
      ensures View() == Step(old(View()), Event.Request(id, send))
    {
      if failed || !connected {
        RefuseAtOnce(id);
        return;
      }
      EnterPending(id);
      if send == Throws {
        thrown := thrown + {id};
        SettlePromise(id, Rejected(SendRefused));
      }
    }

    method ReceiveMessage(reference: OptionalId, error: string, reply: string)
      modifies this
      ensures View() == Step(old(View()), Message(reference, error, reply))
    {
      if reference.NoId? {
        return;
      }
      var id := reference.id;
      if id !in pending {
        return;
      }
      pending := pending - {id};
      timers := timers - {id};
      if error != "" {
        SettlePromise(id, Rejected(Remote(error)));
      } else {
        SettlePromise(id, Resolved(reply));
      }
    }

    method TimerFired(id: RequestId)
      modifies this
      ensures View() == Step(old(View()), Timeout(id))
    {
      timers := timers - {id};
      pending := pending - {id};
      SettlePromise(id, Rejected(ResponseTimeout));
    }

    method SendCallbackError(id: RequestId)
      modifies this
      ensures View() == Step(old(View()), SendFailed(id))
    {
      if id in pending {
        timers := timers - {id};
        pending := pending - {id};
        SettlePromise(id, Rejected(Unavailable));
      }
    }

    /** The loop of the failure handler: one pass over the pending entries. */
    method RejectPending()
      modifies `timers, `settled, `calls
      ensures timers == old(timers) - pending.Keys
      ensures settled == RejectAll(old(settled), pending.Keys)
      ensures calls == CallAll(old(calls), pending.Keys)
    {
      var todo := pending.Keys;
      ghost var done: set<RequestId> := {};
      ghost var settled0, calls0, timers0 := settled, calls, timers;
      FailStart(settled, calls, timers);
      while todo != {}
        invariant todo !! done && todo + done == pending.Keys
        invariant timers == timers0 - done
        invariant settled == RejectAll(settled0, done)
        invariant calls == CallAll(calls0, done)
        decreases todo
      {
        var id :| id in todo;
        FailStep(settled0, calls0, timers0, done, id);
        timers := timers - {id};
        SettlePromise(id, Rejected(Unavailable));
        todo, done := todo - {id}, done + {id};
      }
      assert done == pending.Keys;
    }

    /** The shared handler of exit, error and disconnect. */
    method Fail()
      modifies this
      ensures View() == Step(old(View()), ChildFailed)
    {
      failed := true;
      RejectPending();
      pending := map[];
    }
  }

  lemma FailStart(settled: map<RequestId, Outcome>, calls: map<RequestId, nat>, timers: map<RequestId, nat>)
    ensures RejectAll(settled, {}) == settled && CallAll(calls, {}) == calls && timers - {} == timers
  {
  }

  lemma FailStep(settled: map<RequestId, Outcome>, calls: map<RequestId, nat>, timers: map<RequestId, nat>,
                 done: set<RequestId>, id: RequestId)
    requires id !in done
    ensures FirstOutcome(RejectAll(settled, done), id, Rejected(Unavailable)) == RejectAll(settled, done + {id})
    ensures CallAll(calls, done)[id := CallsOf(CallAll(calls, done), id) + 1] == CallAll(calls, done + {id})
    ensures timers - done - {id} == timers - (done + {id})
  {
  }

  // ----- whole runs -----------------------------------------------------------------------------

  function Run(es: seq<Event>): State {
    if es == [] then INITIAL else Step(Run(es[..|es| - 1]), es[|es| - 1])
  }

  /** A run the environment can produce. */
  ghost predicate Possible(es: seq<Event>) {
    es == [] || (Possible(es[..|es| - 1]) && Enabled(Run(es[..|es| - 1]), es[|es| - 1]))
  }

  /** What every reachable state satisfies. */
  ghost predicate Inv(s: State) {
    // one live timer for each pending request, and no other timer
    && s.timers == s.pending
    // an entry is accepted, and is due 15 seconds after it was entered and not before now
    && s.pending.Keys <= s.accepted.Keys
    && (forall id :: id in s.pending ==>
          s.pending[id] == s.accepted[id] + RESPONSE_TIMEOUT_MS && s.accepted[id] <= s.now <= s.pending[id])
    // every request has exactly one fate
    && s.accepted.Keys !! s.refused
    && s.thrown <= s.accepted.Keys
    && s.settled.Keys == s.refused + (s.accepted.Keys - s.pending.Keys) + s.thrown
    // how often a promise was settled
    && s.calls.Keys == s.settled.Keys
    && (forall id :: id in s.calls ==>
          s.calls[id] == if id in s.thrown && id !in s.pending then 2 else 1)
    && (s.failed ==> s.pending == map[])
  }

  lemma RefusalKeepsInv(s: State, id: RequestId)
    requires Inv(s) && id !in s.accepted && id !in s.refused
    ensures Inv(Settle(s.(refused := s.refused + {id}), id, Rejected(Unavailable)))
  {
    assert id !in s.settled && id !in s.calls;
  }

  lemma EntryKeepsInv(s: State, id: RequestId)
    requires Inv(s) && id !in s.accepted && id !in s.refused && !s.failed
    ensures Inv(Enter(s, id))
    ensures id !in s.settled && id !in s.calls && id !in s.thrown
  {
    var t := Enter(s, id);
    assert id !in s.settled;
    assert t.accepted.Keys == s.accepted.Keys + {id} && t.pending.Keys == s.pending.Keys + {id};
    assert t.accepted.Keys - t.pending.Keys == s.accepted.Keys - s.pending.Keys;
  }

  lemma ThrowKeepsInv(s: State, id: RequestId)
    requires Inv(s) && id in s.pending && id !in s.thrown && id !in s.settled
    ensures Inv(Settle(s.(thrown := s.thrown + {id}), id, Rejected(SendRefused)))
  {
  }

  lemma RequestKeepsInv(s: State, id: RequestId, send: Send)
    requires Inv(s) && Enabled(s, Request(id, send))
    ensures Inv(OnRequest(s, id, send))
  {
    if s.failed || !s.connected {
      RefusalKeepsInv(s, id);
    } else {
      EntryKeepsInv(s, id);
      if send == Throws {
        ThrowKeepsInv(Enter(s, id), id);
      }
    }
  }

  lemma RemovalKeepsInv(s: State, id: RequestId, o: Outcome)
    requires Inv(s) && id in s.pending
    ensures Inv(Settle(Drop(s, id), id, o))
  {
    var t := Settle(Drop(s, id), id, o);
    assert t.settled.Keys == s.settled.Keys + {id};
    assert t.pending.Keys == s.pending.Keys - {id};
  }

  lemma FailureKeepsInv(s: State)
    requires Inv(s)
    ensures Inv(OnChildFailed(s))
  {
    var t := OnChildFailed(s);
    assert t.timers == map[];
    assert t.settled.Keys == s.settled.Keys + s.pending.Keys;
  }

  lemma StepKeepsInv(s: State, e: Event)
    requires Inv(s) && Enabled(s, e)
    ensures Inv(Step(s, e))
  {
    match e
    case Request(id, send) => RequestKeepsInv(s, id, send);
    case Message(reference, error, reply) =>
      if reference.WithId? && reference.id in s.pending {
        RemovalKeepsInv(s, reference.id, if error != "" then Rejected(Remote(error)) else Resolved(reply));
      }
    case Timeout(id) => RemovalKeepsInv(s, id, Rejected(ResponseTimeout));
    case SendFailed(id) =>
      if id in s.pending {
        RemovalKeepsInv(s, id, Rejected(Unavailable));
      }
    case ChildFailed => FailureKeepsInv(s);
    case Disconnected =>
    case Tick(time) =>
  }

  /** Main invariant: it holds after every run, whatever the interleaving. */
  lemma {:induction false} RunsKeepInv(es: seq<Event>)
    requires Possible(es)
    ensures Inv(Run(es))
  {
    if es != [] {
      RunsKeepInv(es[..|es| - 1]);
      StepKeepsInv(Run(es[..|es| - 1]), es[|es| - 1]);
    }
  }

  // ----- what the invariant means for a caller --------------------------------------------------

  /** Prefixes of possible runs are possible. */
  lemma {:induction false} PrefixPossible(es: seq<Event>, k: nat)
    requires Possible(es) && k <= |es|
    ensures Possible(es[..k])
    ensures k < |es| ==> Enabled(Run(es[..k]), es[k]) && Run(es[..k + 1]) == Step(Run(es[..k]), es[k])
    decreases |es|
  {
    if k == |es| {
      assert es[..k] == es;
    } else {
      var front := es[..|es| - 1];
      if k == |front| {
        assert es[..k] == front && es[..k + 1] == es;
      } else {
        PrefixPossible(front, k);
        assert front[..k] == es[..k] && front[..k + 1] == es[..k + 1];
      }
    }
  }

  /** After any run each pending request has one live timer and there is no other; an accepted request is
      pending or settled; and it is never both, unless its own `send` threw. */
  lemma {:induction false} PendingOrSettled(es: seq<Event>, id: RequestId)
    requires Possible(es) && id in Run(es).accepted
    ensures var s := Run(es);
            && s.timers == s.pending
            && (id in s.pending || id in s.settled)
            && (id in s.pending && id in s.settled ==> id in s.thrown)
            && (id in s.thrown ==> id in s.settled)
  {
    RunsKeepInv(es);
  }

  /** Pending are exactly the accepted requests without an outcome. */
  predicate PendingIsUnsettled(s: State) {
    s.pending.Keys == s.accepted.Keys - s.settled.Keys
  }

  /** In one state this holds if and only if no request whose `send` threw is still in the map. */
  lemma {:induction false} PendingExactlyUnsettled(es: seq<Event>)
    requires Possible(es)
    ensures var s := Run(es);
            PendingIsUnsettled(s) <==> s.pending.Keys !! s.thrown
  {
    RunsKeepInv(es);
    var s := Run(es);
    if s.pending.Keys !! s.thrown {
      assert forall id :: id in s.accepted && id !in s.settled ==> id in s.pending;
    }
    if PendingIsUnsettled(s) {
      assert forall id :: id in s.pending ==> id !in s.settled;
    }
  }

  /** A request that is let through and whose `send` throws. */
  predicate SendThrows(s: State, e: Event) {
    e.Request? && e.send == Throws && !s.failed && s.connected
  }

  predicate ThrowsAt(es: seq<Event>, k: nat)
    requires k < |es|
  {
    SendThrows(Run(es[..k]), es[k])
  }

  predicate NoneThrows(es: seq<Event>) {
    forall k :: 0 <= k < |es| ==> !ThrowsAt(es, k)
  }

  lemma StepThrows(s: State, e: Event)
    ensures Step(s, e).thrown == if SendThrows(s, e) then s.thrown + {e.id} else s.thrown
  {
  }

  lemma {:induction false} NoThrowUpTo(es: seq<Event>, n: nat)
    requires n <= |es| && NoneThrows(es)
    ensures Run(es[..n]).thrown == {}
  {
    if n > 0 {
      NoThrowUpTo(es, n - 1);
      assert es[..n][..n - 1] == es[..n - 1];
      assert !ThrowsAt(es, n - 1);
      StepThrows(Run(es[..n - 1]), es[n - 1]);
    }
  }

  lemma StepLeavesBoth(s: State, e: Event)
    requires Enabled(s, e) && SendThrows(s, e)
    ensures !PendingIsUnsettled(Step(s, e))
  {
    assert e.id in Step(s, e).pending && e.id in Step(s, e).settled;
  }

  /** Over a whole run: pending are exactly the accepted requests without an outcome, at every moment, if and only if
      no request that was let through had a `send` that threw. */
  lemma PendingExactlyUnsettledThroughout(es: seq<Event>)
    requires Possible(es)
    ensures (forall k :: 0 <= k <= |es| ==> PendingIsUnsettled(Run(es[..k]))) <==> NoneThrows(es)
  {
    if NoneThrows(es) {
      forall k | 0 <= k <= |es| ensures PendingIsUnsettled(Run(es[..k])) {
        PrefixPossible(es, k);
        NoThrowUpTo(es, k);
        PendingExactlyUnsettled(es[..k]);
      }
    } else {
      var k :| 0 <= k < |es| && ThrowsAt(es, k);
      PrefixPossible(es, k);
      StepLeavesBoth(Run(es[..k]), es[k]);
      assert !PendingIsUnsettled(Run(es[..k + 1]));
    }
  }

  /** A caller that only sends messages the channel can encode is never in the exceptional case. */
  lemma NoThrowNoException(es: seq<Event>)
    requires forall k :: 0 <= k < |es| && es[k].Request? ==> es[k].send == Queued
    ensures Run(es).thrown == {}
  {
    assert es[..|es|] == es;
    NoThrowUpTo(es, |es|);
  }

  /** The exceptional case exists: one `send` that throws leaves a settled request in the map. */
  lemma ThrownStaysPending()
    ensures Possible([Request(0, Throws)])
    ensures var s := Run([Request(0, Throws)]); 0 in s.pending && 0 in s.settled
  {
    var es := [Request(0, Throws)];
    assert es[..|es| - 1] == [] && Run([]) == INITIAL && Possible([]);
    assert Run(es) == Step(INITIAL, Request(0, Throws));
  }

  /** No promise is settled twice: a second attempt is made exactly for a request whose `send` threw, once
      its entry has gone, and even then the first outcome stands (see `OutcomeStands`). */
  lemma SettledOnce(es: seq<Event>, id: RequestId)
    requires Possible(es) && id in Run(es).settled
    ensures var s := Run(es);
            && 1 <= CallsOf(s.calls, id) <= 2
            && (CallsOf(s.calls, id) == 2 <==> id in s.thrown && id !in s.pending)
  {
    RunsKeepInv(es);
  }

  lemma StepKeepsOutcome(s: State, e: Event, id: RequestId)
    requires id in s.settled
    ensures id in Step(s, e).settled && Step(s, e).settled[id] == s.settled[id]
  {
  }

  lemma StepResolves(s: State, e: Event, id: RequestId, reply: string)
    requires id !in s.settled && id in Step(s, e).settled && Step(s, e).settled[id] == Resolved(reply)
    ensures e == Message(WithId(id), "", reply) && id in s.pending
  {
    match e
    case Request(i, send) =>
    case Message(reference, error, r) =>
    case _ =>
  }

  lemma StepEnters(s: State, e: Event, id: RequestId)
    ensures s.thrown <= Step(s, e).thrown
    ensures id !in s.accepted && id in Step(s, e).accepted ==>
              e.Request? && e.id == id && (e.send == Queued || id in Step(s, e).thrown)
  {
    match e
    case Request(i, send) =>
    case _ =>
  }

  /** An outcome never changes for the rest of the run. */
  lemma {:induction false} OutcomeStands(es: seq<Event>, k: nat, id: RequestId)
    requires Possible(es) && k <= |es| && id in Run(es[..k]).settled
    ensures id in Run(es).settled && Run(es).settled[id] == Run(es[..k]).settled[id]
    decreases |es| - k
  {
    if k == |es| {
      assert es[..k] == es;
    } else {
      PrefixPossible(es, k);
      StepKeepsOutcome(Run(es[..k]), es[k], id);
      OutcomeStands(es, k + 1, id);
    }
  }

  /** Every event other than the failure of the child leaves all requests but one alone: a reply touches
      only the request whose id it carries, a timer only its own. */
  ghost predicate SameElsewhere(s: State, t: State, id: RequestId) {
    forall other :: other != id ==>
      && (other in s.pending <==> other in t.pending)
      && (other in s.settled <==> other in t.settled)
      && (other in s.settled ==> s.settled[other] == t.settled[other])
      && CallsOf(s.calls, other) == CallsOf(t.calls, other)
  }

  lemma ReplyTouchesOnlyItsRequest(s: State, reference: OptionalId, error: string, reply: string, id: RequestId)
    requires Inv(s)
    ensures reference == WithId(id) ==> SameElsewhere(s, OnMessage(s, reference, error, reply), id)
    ensures reference.NoId? || reference.id !in s.pending ==> OnMessage(s, reference, error, reply) == s
  {
  }

  /** Where a resolved value comes from: the request was sent, and later, while it was pending, a message
      with its own id and no error carried that value. */
  lemma {:induction false} ResolvedByOwnReply(es: seq<Event>, id: RequestId, reply: string) returns (i: nat, k: nat)
    requires Possible(es) && id in Run(es).settled && Run(es).settled[id] == Resolved(reply)
    ensures i < k < |es|
    ensures es[i] == Request(id, Queued)
    ensures es[k] == Message(WithId(id), "", reply) && id in Run(es[..k]).pending
  {
    assert es != [];
    var front, last := es[..|es| - 1], es[|es| - 1];
    var s := Run(front);
    if id in s.settled {
      StepKeepsOutcome(s, last, id);
      i, k := ResolvedByOwnReply(front, id, reply);
      assert front[..k] == es[..k];
    } else {
      k := |es| - 1;
      StepResolves(s, last, id, reply);
      RunsKeepInv(front);
      i := EnteredByRequest(front, id);
    }
  }

  /** Whatever was accepted was entered by a request of the run, and by one the channel took unless it threw. */
  lemma {:induction false} EnteredByRequest(es: seq<Event>, id: RequestId) returns (i: nat)
    requires Possible(es) && id in Run(es).accepted
    ensures i < |es| && es[i].Request? && es[i].id == id
    ensures id in Run(es).thrown || es[i] == Request(id, Queued)
  {
    assert es != [];
    var front, last := es[..|es| - 1], es[|es| - 1];
    StepEnters(Run(front), last, id);
    if id in Run(front).accepted {
      i := EnteredByRequest(front, id);
    } else {
      i := |es| - 1;
    }
  }

  lemma StepKeepsFailed(s: State, e: Event)
    requires s.failed
    ensures Step(s, e).failed
  {
  }

  lemma RequestAfterFailure(s: State, id: RequestId, send: Send)
    requires s.failed && id !in s.settled
    ensures var t := Step(s, Request(id, send));
      id in t.settled && t.settled[id] == Rejected(Unavailable) && t.pending == s.pending && t.accepted == s.accepted
  {
  }

  lemma {:induction false} FailureStays(es: seq<Event>, k: nat)
    requires Possible(es) && k <= |es| && Run(es[..k]).failed
    ensures Run(es).failed
    decreases |es| - k
  {
    if k == |es| {
      assert es[..k] == es;
    } else {
      PrefixPossible(es, k);
      StepKeepsFailed(Run(es[..k]), es[k]);
      FailureStays(es, k + 1);
    }
  }

  /** Once failed, always failed: nothing is pending and a new request is rejected on the spot. */
  lemma FailureIsFinal(es: seq<Event>, k: nat, id: RequestId, send: Send)
    requires Possible(es) && k <= |es| && Run(es[..k]).failed
    ensures Run(es).failed && Run(es).pending == map[] && Run(es).timers == map[]
    ensures Enabled(Run(es), Request(id, send)) ==>
              var t := Step(Run(es), Request(id, send));
              id in t.settled && t.settled[id] == Rejected(Unavailable) && t.pending == map[]
              && t.accepted == Run(es).accepted
  {
    FailureStays(es, k);
    RunsKeepInv(es);
    if Enabled(Run(es), Request(id, send)) {
      RequestAfterFailure(Run(es), id, send);
    }
  }

  /** No request is pending for more than 15 seconds. */
  lemma PendingAtMostFifteenSeconds(es: seq<Event>, id: RequestId)
    requires Possible(es) && id in Run(es).pending
    ensures id in Run(es).accepted && Run(es).now - Run(es).accepted[id] <= RESPONSE_TIMEOUT_MS
  {
    RunsKeepInv(es);
  }

  lemma EarliestDue(m: map<RequestId, nat>, ids: set<RequestId>) returns (id: RequestId)
    requires ids != {} && ids <= m.Keys
    ensures id in ids && forall other :: other in ids ==> m[id] <= m[other]
    decreases ids
  {
    id :| id in ids;
    if ids != {id} {
      var other := EarliestDue(m, ids - {id});
      if m[other] < m[id] {
        id := other;
      }
    }
  }

  lemma OneMoreEvent(es: seq<Event>, e: Event)
    ensures Run(es + [e]) == Step(Run(es), e)
    ensures Possible(es + [e]) <==> Possible(es) && Enabled(Run(es), e)
  {
    assert (es + [e])[..|es + [e]| - 1] == es;
  }

  lemma TickThenTimeout(s: State, id: RequestId)
    requires Inv(s) && id in s.timers && forall other :: other in s.timers ==> s.timers[id] <= s.timers[other]
    ensures Enabled(s, Tick(s.timers[id]))
    ensures var t := Step(s, Tick(s.timers[id]));
      && Enabled(t, Timeout(id)) && id in Step(t, Timeout(id)).settled
      && Step(t, Timeout(id)).pending == s.pending - {id}
  {
  }

  /** The bound is no deadlock: when the clock is held back by a due timer, that timer can be reached and
      fired, and firing it settles its request and removes it. */
  lemma ClockCanAdvance(es: seq<Event>, time: nat) returns (id: RequestId, due: nat)
    requires Possible(es) && Run(es).now <= time && !Enabled(Run(es), Tick(time))
    ensures id in Run(es).pending && due < time
    ensures Possible(es + [Tick(due), Timeout(id)])
    ensures id in Run(es + [Tick(due), Timeout(id)]).settled
    ensures Run(es + [Tick(due), Timeout(id)]).pending == Run(es).pending - {id}
  {
    RunsKeepInv(es);
    var s := Run(es);
    id := EarliestDue(s.timers, s.timers.Keys);
    due := s.timers[id];
    TickThenTimeout(s, id);
    OneMoreEvent(es, Tick(due));
    OneMoreEvent(es + [Tick(due)], Timeout(id));
    assert es + [Tick(due)] + [Timeout(id)] == es + [Tick(due), Timeout(id)];
  }
}

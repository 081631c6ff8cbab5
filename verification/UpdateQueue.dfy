/** The queue of resource-updated notifications (createResourceUpdateQueue in src/client/subscriptionClient.ts).
    `Queue` and its operations say what the queue does; the class does it by updating its fields. A promise is
    known by the number of the waitAfter call that made it, and settling it appends to `settled`. */
module UpdateQueues {
  import opened Common

  const CAPACITY := 100

  datatype Event = Event(sequence: nat, uri: string)

  datatype CloseReason = Local | Graceful | Remote

  datatype Outcome = Delivered(event: Event) | Failed(reason: CloseReason) | TimedOut

  datatype Settlement = Settlement(id: nat, outcome: Outcome)

  datatype Waiter = Waiter(id: nat, after: nat)

  datatype Queue = Queue(
    uri: string,
    events: seq<Event>,
    receivedCount: nat,
    lastUri: string,
    failure: Option<CloseReason>,
    pending: Option<Waiter>,
    timers: set<nat>,          // waits whose timer is armed
    issued: nat,               // number of waitAfter calls
    settled: seq<Settlement>,  // in the order the promises were settled
    abandoned: set<nat>,       // waits dropped by cancel
    listening: bool)           // the notification handler is registered

  datatype Op =
    | Notify(uri: string)
    | Wait(after: nat, timeoutMs: int)
    | TimerFires(id: nat)
    | Fail(reason: CloseReason)
    | Cancel

  function New(uri: string): Queue {
    Queue(uri, [], 0, "", None, None, {}, 0, [], {}, true)
  }

  function FindNext(events: seq<Event>, after: nat): Option<Event> {
    if events == [] then None
    else if events[0].sequence > after then Some(events[0])
    else FindNext(events[1..], after)
  }

  function Settle(q: Queue, id: nat, outcome: Outcome): Queue {
    q.(settled := q.settled + [Settlement(id, outcome)])
  }

  /** Takes the parked wait off the queue, clears its timer and settles it. */
  function Wake(q: Queue, outcome: Outcome): Queue
    requires q.pending.Some?
  {
    var w := q.pending.value;
    Settle(q.(pending := None, timers := q.timers - {w.id}), w.id, outcome)
  }

  function Push(events: seq<Event>, e: Event): seq<Event> {
    if |events| + 1 > CAPACITY then (events + [e])[1..] else events + [e]
  }

  function Step(q: Queue, op: Op): Queue {
    match op
    case Notify(uri) =>
      if !q.listening || uri != q.uri then q else
      var e := Event(q.receivedCount + 1, uri);
      var q := q.(receivedCount := e.sequence, lastUri := uri, events := Push(q.events, e));
      if q.pending.Some? && e.sequence > q.pending.value.after then Wake(q, Delivered(e)) else q
    case Wait(after, timeoutMs) =>
      var id := q.issued;
      var next := FindNext(q.events, after);
      var q := q.(issued := id + 1);
      if next.Some? then Settle(q, id, Delivered(next.value))
      else if q.failure.Some? then Settle(q, id, Failed(q.failure.value))
      else if timeoutMs <= 0 then Settle(q, id, TimedOut)
      else q.(pending := Some(Waiter(id, after)), timers := q.timers + {id})
    case TimerFires(id) =>
      if id !in q.timers then q else
      var q := q.(timers := q.timers - {id});
      var q := if q.pending.Some? && q.pending.value.id == id then q.(pending := None) else q;
      Settle(q, id, TimedOut)
    case Fail(reason) =>
      var q := if q.failure.None? then q.(failure := Some(reason)) else q;
      if q.pending.Some? then Wake(q, Failed(reason)) else q
    case Cancel =>
      if q.pending.None? then q.(listening := false) else
      var id := q.pending.value.id;
      q.(pending := None, timers := q.timers - {id}, abandoned := q.abandoned + {id}, listening := false)
  }

  function Run(q: Queue, ops: seq<Op>): Queue {
    if ops == [] then q else Step(Run(q, ops[..|ops| - 1]), ops[|ops| - 1])
  }

  class ResourceUpdateQueue {
    const uri: string
    var events: seq<Event>
    var receivedCount: nat
    var lastUri: string
    var failure: Option<CloseReason>
    var pending: Option<Waiter>
    var timers: set<nat>
    var issued: nat
    var settled: seq<Settlement>
    var abandoned: set<nat>
    var listening: bool

    ghost function View(): Queue
      reads this
    {
      Queue(uri, events, receivedCount, lastUri, failure, pending, timers, issued, settled, abandoned, listening)
    }

    constructor (uri: string)
      ensures View() == New(uri)
    {
      this.uri := uri;
      events, receivedCount, lastUri, failure, pending := [], 0, "", None, None;
      timers, issued, settled, abandoned, listening := {}, 0, [], {}, true;
    }

    method OnNotification(notifiedUri: string)
      modifies this
      ensures View() == Step(old(View()), Notify(notifiedUri))
    {
      if !listening || notifiedUri != uri {
        return;
      }
      receivedCount := receivedCount + 1;
      lastUri := notifiedUri;
      var event := Event(receivedCount, notifiedUri);
      events := events + [event];
      if |events| > CAPACITY {
        events := events[1..];
      }
      if pending.Some? && event.sequence > pending.value.after {
        var waiter := pending.value;
        pending := None;
        timers := timers - {waiter.id};
        settled := settled + [Settlement(waiter.id, Delivered(event))];
      }
    }

    method WaitAfter(sequence: nat, timeoutMs: int) returns (id: nat)
      modifies this
      ensures id == old(issued)
      ensures View() == Step(old(View()), Wait(sequence, timeoutMs))
    {
      id := issued;
      issued := issued + 1;
      var existing := FindNext(events, sequence);
      if existing.Some? {
        settled := settled + [Settlement(id, Delivered(existing.value))];
        return;
      }
      if failure.Some? {
        settled := settled + [Settlement(id, Failed(failure.value))];
        return;
      }
      if timeoutMs <= 0 {
        settled := settled + [Settlement(id, TimedOut)];
        return;
      }
      timers := timers + {id};
      pending := Some(Waiter(id, sequence));
    }

    method OnTimer(id: nat)
      modifies this
      ensures View() == Step(old(View()), TimerFires(id))
    {
      if id !in timers {
        return;
      }
      timers := timers - {id};
      if pending.Some? && pending.value.id == id {
        pending := None;
      }
      settled := settled + [Settlement(id, TimedOut)];
    }

    method Fail(reason: CloseReason)
      modifies this
      ensures View() == Step(old(View()), Op.Fail(reason))
    {
      if failure.None? {
        failure := Some(reason);
      }
      if pending.Some? {
        var waiter := pending.value;
        pending := None;
        timers := timers - {waiter.id};
        settled := settled + [Settlement(waiter.id, Failed(reason))];
      }
    }

    method Cancel()
      modifies this
      ensures View() == Step(old(View()), Op.Cancel)
    {
      if pending.Some? {
        timers := timers - {pending.value.id};
        abandoned := abandoned + {pending.value.id};
        pending := None;
      }
      listening := false;
    }
  }

  // ---- What every queue keeps ----

  /** The buffer holds the newest min(100, receivedCount) notifications, numbered consecutively. */
  ghost predicate HoldsNewest(q: Queue) {
    && |q.events| == Min(CAPACITY, q.receivedCount)
    && forall i :: 0 <= i < |q.events| ==> q.events[i] == Event(q.receivedCount - |q.events| + 1 + i, q.uri)
  }

  function Ids(settled: seq<Settlement>): set<nat> {
    if settled == [] then {} else Ids(settled[..|settled| - 1]) + {settled[|settled| - 1].id}
  }

  ghost predicate NoneTwice(settled: seq<Settlement>) {
    settled != [] ==>
      var before := settled[..|settled| - 1];
      NoneTwice(before) && settled[|settled| - 1].id !in Ids(before)
  }

  /** Every wait ever made is, exclusively, still armed, settled (once), or abandoned. */
  ghost predicate EachSettlesOnce(q: Queue) {
    && NoneTwice(q.settled)
    && Ids(q.settled) !! q.timers && Ids(q.settled) !! q.abandoned && q.timers !! q.abandoned
    && forall id: nat :: id < q.issued <==> id in Ids(q.settled) || id in q.timers || id in q.abandoned
  }

  ghost predicate Inv(q: Queue) {
    && HoldsNewest(q) && EachSettlesOnce(q)
    && q.lastUri == (if q.receivedCount == 0 then "" else q.uri)
    && (q.pending.Some? ==>
          && q.pending.value.id in q.timers
          && q.pending.value.after >= q.receivedCount
          && q.failure.None?)
  }

  /** Settling a wait that is armed, or one made by this very call. */
  lemma SettleArmed(q: Queue, id: nat, outcome: Outcome)
    requires EachSettlesOnce(q) && id in q.timers
    ensures EachSettlesOnce(Settle(q.(timers := q.timers - {id}), id, outcome))
  {
    assert Settle(q, id, outcome).settled[..|q.settled|] == q.settled;
  }

  lemma SettleAtOnce(q: Queue, outcome: Outcome)
    requires EachSettlesOnce(q)
    ensures EachSettlesOnce(Settle(q.(issued := q.issued + 1), q.issued, outcome))
  {
    assert Settle(q, q.issued, outcome).settled[..|q.settled|] == q.settled;
  }

  lemma ParkOne(q: Queue)
    requires EachSettlesOnce(q)
    ensures EachSettlesOnce(q.(issued := q.issued + 1, timers := q.timers + {q.issued}))
    ensures q.issued !in q.timers
  {
  }

  /** Only these fields matter to EachSettlesOnce. */
  ghost predicate SameWaits(q: Queue, r: Queue) {
    q.settled == r.settled && q.timers == r.timers && q.abandoned == r.abandoned && q.issued == r.issued
  }

  lemma PushKeepsNewest(q: Queue, q': Queue)
    requires HoldsNewest(q) && q'.uri == q.uri && q'.receivedCount == q.receivedCount + 1
    requires q'.events == Push(q.events, Event(q'.receivedCount, q.uri))
    ensures HoldsNewest(q')
  {
  }

  lemma {:induction false} FindNextInRun(events: seq<Event>, first: nat, uri: string, after: nat)
    requires forall i :: 0 <= i < |events| ==> events[i] == Event(first + i, uri)
    ensures FindNext(events, after) ==
            if events == [] || after + 1 >= first + |events| then None else Some(Event(Max(after + 1, first), uri))
  {
    if events == [] || events[0].sequence > after {
    } else {
      FindNextInRun(events[1..], first + 1, uri, after);
    }
  }

  /** The buffer's answer to a wait, for every lag of the reader. */
  lemma BufferAnswers(q: Queue, after: nat)
    requires HoldsNewest(q)
    ensures FindNext(q.events, after) ==
            if after >= q.receivedCount then None
            else Some(Event(Max(after, q.receivedCount - CAPACITY) + 1, q.uri))
  {
    FindNextInRun(q.events, q.receivedCount - |q.events| + 1, q.uri, after);
  }

  lemma NotifyKeepsInv(q: Queue, uri: string)
    requires Inv(q)
    ensures Inv(Step(q, Notify(uri)))
  {
    if q.listening && uri == q.uri {
      var e := Event(q.receivedCount + 1, uri);
      var r := q.(receivedCount := e.sequence, lastUri := uri, events := Push(q.events, e));
      PushKeepsNewest(q, r);
      assert EachSettlesOnce(r) by { assert SameWaits(q, r); }
      if q.pending.Some? { SettleArmed(r.(pending := None), q.pending.value.id, Delivered(e)); }
    }
  }

  predicate Parks(q: Queue, after: nat, timeoutMs: int) {
    FindNext(q.events, after).None? && q.failure.None? && timeoutMs > 0
  }

  lemma WaitSettles(q: Queue, after: nat, timeoutMs: int) returns (outcome: Outcome)
    requires !Parks(q, after, timeoutMs)
    ensures Step(q, Wait(after, timeoutMs)) == Settle(q.(issued := q.issued + 1), q.issued, outcome)
  {
    var next := FindNext(q.events, after);
    outcome := if next.Some? then Delivered(next.value) else if q.failure.Some? then Failed(q.failure.value) else TimedOut;
  }

  lemma SettledWaitKeepsInv(q: Queue, outcome: Outcome)
    requires Inv(q)
    ensures Inv(Settle(q.(issued := q.issued + 1), q.issued, outcome))
  {
    SettleAtOnce(q, outcome);
  }

  lemma ParkedWaitKeepsInv(q: Queue, after: nat, timeoutMs: int)
    requires Inv(q) && Parks(q, after, timeoutMs)
    ensures Inv(Step(q, Wait(after, timeoutMs)))
  {
    BufferAnswers(q, after);
    ParkOne(q);
  }

  lemma WaitKeepsInv(q: Queue, after: nat, timeoutMs: int)
    requires Inv(q)
    ensures Inv(Step(q, Wait(after, timeoutMs)))
  {
    if Parks(q, after, timeoutMs) {
      ParkedWaitKeepsInv(q, after, timeoutMs);
    } else {
      var outcome := WaitSettles(q, after, timeoutMs);
      SettledWaitKeepsInv(q, outcome);
    }
  }

  lemma TimerKeepsInv(q: Queue, id: nat)
    requires Inv(q)
    ensures Inv(Step(q, TimerFires(id)))
  {
    if id in q.timers { SettleArmed(q, id, TimedOut); }
  }

  lemma FailKeepsInv(q: Queue, reason: CloseReason)
    requires Inv(q)
    ensures Inv(Step(q, Op.Fail(reason)))
  {
    if q.pending.Some? {
      SettleArmed(q, q.pending.value.id, Failed(reason));
      assert SameWaits(Step(q, Op.Fail(reason)), Settle(q.(timers := q.timers - {q.pending.value.id}), q.pending.value.id, Failed(reason)));
    }
  }

  lemma CancelKeepsInv(q: Queue)
    requires Inv(q)
    ensures Inv(Step(q, Op.Cancel))
  {
  }

  lemma StepKeepsInv(q: Queue, op: Op)
    requires Inv(q)
    ensures Inv(Step(q, op))
  {
    match op
    case Notify(uri) => NotifyKeepsInv(q, uri);
    case Wait(after, timeoutMs) => WaitKeepsInv(q, after, timeoutMs);
    case TimerFires(id) => TimerKeepsInv(q, id);
    case Fail(reason) => FailKeepsInv(q, reason);
    case Cancel => CancelKeepsInv(q);
  }

  /** After any notifications, waits, timers, failures and cancels: the buffer is the newest part of the log, every
      wait settles exactly once unless cancel dropped it, and no wait is parked while something newer is there. */
  lemma {:induction false} EveryRunKeepsInv(q: Queue, ops: seq<Op>)
    requires Inv(q)
    ensures Inv(Run(q, ops))
    decreases |ops|
  {
    if ops == [] {
    } else {
      EveryRunKeepsInv(q, ops[..|ops| - 1]);
      StepKeepsInv(Run(q, ops[..|ops| - 1]), ops[|ops| - 1]);
    }
  }

  /** A new queue hears notifications, and has received none. */
  lemma NewInv(uri: string)
    ensures Inv(New(uri)) && New(uri).listening && New(uri).receivedCount == 0 && New(uri).pending.None? && New(uri).failure.None?
  {
  }

  /** A notification of the resource is counted, remembered, and wakes the parked wait exactly if it is later than the wait's
      position; any other is ignored. */
  lemma NotificationMeans(q: Queue, uri: string)
    requires Inv(q)
    ensures var q', e := Step(q, Notify(uri)), Event(q.receivedCount + 1, uri);
            if !q.listening || uri != q.uri then q' == q else
              && q'.receivedCount == q.receivedCount + 1 && q'.lastUri == uri && q'.events[|q'.events| - 1] == e
              && q'.failure == q.failure && q'.listening
              && if q.pending.Some? && e.sequence > q.pending.value.after then
                   q'.pending.None? && q'.settled == q.settled + [Settlement(q.pending.value.id, Delivered(e))]
                 else q'.pending == q.pending && q'.settled == q.settled
  {
  }

  /** After cancel the queue hears nothing, and the parked wait never settles. */
  lemma CancelMeans(q: Queue, uri: string)
    requires Inv(q)
    ensures var q' := Step(q, Op.Cancel);
            && !q'.listening && q'.pending.None? && q'.settled == q.settled && q'.receivedCount == q.receivedCount
            && Step(q', Notify(uri)) == q'
            && (q.pending.Some? ==> q.pending.value.id in q'.abandoned && Step(q', TimerFires(q.pending.value.id)) == q')
  {
  }

  // ---- Against an unbounded log ----

  /** What a log that forgets nothing answers: the notification after `after`. */
  function LogAnswer(receivedCount: nat, uri: string, after: nat): Option<Event> {
    if after < receivedCount then Some(Event(after + 1, uri)) else None
  }

  /** The bounded buffer answers as the log does exactly while the reader lags by at most 100. */
  lemma BufferRefinesLog(q: Queue, after: nat)
    requires HoldsNewest(q)
    ensures FindNext(q.events, after) == LogAnswer(q.receivedCount, q.uri, after)
            <==> q.receivedCount - after <= 100
    ensures q.receivedCount - after > 100 ==> FindNext(q.events, after) == Some(q.events[0])
  {
    BufferAnswers(q, after);
  }

  // ---- Failure ----

  /** At most one wait at a time, as both clients await each wait before the next. */
  predicate OneAtATime(q: Queue, op: Op) {
    op.Wait? ==> q.timers == {}
  }

  /** The waits of a run are made one at a time. */
  ghost predicate WaitsInTurn(q: Queue, ops: seq<Op>) {
    ops != [] ==>
      var before := ops[..|ops| - 1];
      WaitsInTurn(q, before) && OneAtATime(Run(q, before), ops[|ops| - 1])
  }

  ghost predicate OnlyThePendingWait(q: Queue) {
    q.timers == if q.pending.Some? then {q.pending.value.id} else {}
  }

  lemma StepLeavesNoOther(q: Queue, op: Op)
    requires Inv(q) && OnlyThePendingWait(q) && OneAtATime(q, op)
    ensures OnlyThePendingWait(Step(q, op))
  {
  }

  lemma {:induction false} OneAtATimeLeavesNoOther(uri: string, ops: seq<Op>)
    requires WaitsInTurn(New(uri), ops)
    ensures OnlyThePendingWait(Run(New(uri), ops))
    decreases |ops|
  {
    if ops == [] {
    } else {
      OneAtATimeLeavesNoOther(uri, ops[..|ops| - 1]);
      NewInv(uri);
      EveryRunKeepsInv(New(uri), ops[..|ops| - 1]);
      StepLeavesNoOther(Run(New(uri), ops[..|ops| - 1]), ops[|ops| - 1]);
    }
  }

  /** What a wait on a failed queue gets: everything received is delivered first, then the first failure; never a timeout. */
  lemma WaitAfterFailure(q: Queue, after: nat, timeoutMs: int)
    requires Inv(q) && q.failure.Some?
    ensures var q' := Step(q, Wait(after, timeoutMs));
            && q'.pending == q.pending == None && q'.timers == q.timers
            && q'.settled == q.settled + [Settlement(q.issued,
                 if after < q.receivedCount then Delivered(Event(Max(after, q.receivedCount - CAPACITY) + 1, q.uri))
                 else Failed(q.failure.value))]
  {
    BufferAnswers(q, after);
  }

  lemma {:induction false} RunsInOrder(q: Queue, first: seq<Op>, rest: seq<Op>)
    ensures Run(q, first + rest) == Run(Run(q, first), rest)
  {
    if rest == [] {
      assert first + rest == first;
    } else {
      RunsInOrder(q, first, rest[..|rest| - 1]);
      assert (first + rest)[..|first + rest| - 1] == first + rest[..|rest| - 1];
    }
  }

  /** Failure is sticky, frees the parked wait, and from then on nothing times out: every settlement
      after it is a delivery or the failure. */
  ghost predicate FailedForGood(failedAt: Queue, q: Queue) {
    && failedAt.failure.Some? && q.failure == failedAt.failure
    && q.pending.None? && q.timers == {}
    && |failedAt.settled| <= |q.settled|
    && forall i :: |failedAt.settled| <= i < |q.settled| ==> !q.settled[i].outcome.TimedOut?
  }

  lemma FailedStep(failedAt: Queue, q: Queue, op: Op)
    requires FailedForGood(failedAt, q) && Inv(q)
    ensures FailedForGood(failedAt, Step(q, op))
  {
    if op.Wait? { WaitAfterFailure(q, op.after, op.timeoutMs); }
  }

  lemma {:induction false} NoTimeoutAfterFailure(q: Queue, ops: seq<Op>)
    requires Inv(q) && OnlyThePendingWait(q) && q.failure.Some?
    ensures FailedForGood(q, Run(q, ops))
    decreases |ops|
  {
    if ops == [] {
    } else {
      NoTimeoutAfterFailure(q, ops[..|ops| - 1]);
      EveryRunKeepsInv(q, ops[..|ops| - 1]);
      FailedStep(q, Run(q, ops[..|ops| - 1]), ops[|ops| - 1]);
    }
  }

  /** Failing settles the parked wait with that failure, and leaves none parked. */
  lemma FailFreesTheWaiter(q: Queue, reason: CloseReason)
    requires Inv(q)
    ensures var q' := Step(q, Op.Fail(reason));
            && q'.failure == (if q.failure.Some? then q.failure else Some(reason)) && q'.pending.None?
            && q'.settled == q.settled + (if q.pending.Some? then [Settlement(q.pending.value.id, Failed(reason))] else [])
  {
  }

  /** Some wait settled after `before` timed out. */
  ghost predicate TimesOutSince(before: Queue, q: Queue) {
    exists i :: |before.settled| <= i < |q.settled| && q.settled[i].outcome.TimedOut?
  }

  /** An armed wait that is not the parked one: a later wait has taken its place. */
  ghost predicate Overlapped(q: Queue) {
    exists id :: id in q.timers && !(q.pending.Some? && q.pending.value.id == id)
  }

  ghost predicate MayTimeOut(q: Queue) {
    exists ops :: TimesOutSince(q, Run(q, ops))
  }

  lemma ArmedTimesOut(q: Queue, id: nat)
    requires id in q.timers
    ensures MayTimeOut(q)
  {
    var ops := [TimerFires(id)];
    assert ops[..|ops| - 1] == [] && Run(q, ops) == Step(q, TimerFires(id));
    assert Run(q, ops).settled[|q.settled|].outcome.TimedOut?;
    assert TimesOutSince(q, Run(q, ops));
  }

  lemma FailedTimers(q: Queue, reason: CloseReason)
    ensures var failed := Step(q, Op.Fail(reason));
            && failed.failure.Some? && failed.pending.None?
            && (failed.timers != {} <==> Overlapped(q))
  {
    var failed := Step(q, Op.Fail(reason));
    assert forall id :: id in failed.timers <==> id in q.timers && !(q.pending.Some? && q.pending.value.id == id);
  }

  lemma DisarmedNeverTimesOut(q: Queue)
    requires Inv(q) && q.failure.Some? && q.timers == {}
    ensures !MayTimeOut(q)
  {
    forall ops ensures !TimesOutSince(q, Run(q, ops)) {
      NoTimeoutAfterFailure(q, ops);
    }
  }

  /** That no wait times out after the failure depends on waits that do not overlap, and on nothing else: in some run from
      the failure on a wait times out exactly if a wait was overlapped when it came. */
  lemma TimesOutAfterFailureExactlyWhen(q: Queue, reason: CloseReason)
    requires Inv(q)
    ensures MayTimeOut(Step(q, Op.Fail(reason))) <==> Overlapped(q)
  {
    var failed := Step(q, Op.Fail(reason));
    FailedTimers(q, reason);
    FailKeepsInv(q, reason);
    if failed.timers == {} {
      DisarmedNeverTimesOut(failed);
    } else {
      var id :| id in failed.timers;
      ArmedTimesOut(failed, id);
    }
  }

  /** Overlapping waits do occur: of two waits made together, the first is forgotten by the failure and times out after it. */
  lemma OverlappingWaitsMissTheFailure(uri: string)
    ensures Overlapped(Step(Step(New(uri), Wait(0, 1)), Wait(0, 1)))
  {
    var one := Step(New(uri), Wait(0, 1));
    assert one == New(uri).(issued := 1, pending := Some(Waiter(0, 0)), timers := {0});
    var two := Step(one, Wait(0, 1));
    assert two == one.(issued := 2, pending := Some(Waiter(1, 0)), timers := {0, 1});
    assert 0 in two.timers;
  }
}

/** The awaits of the two subscription clients. Between one await and the next the program runs alone; while it
    waits, the outside world does whatever it likes. What the world does is a script of events, so a theorem over
    every script is a theorem over every interleaving, and a script that ends while the program waits
    leaves it in a state it can reach. */
module Sessions {
  import opened Common
  import opened UpdateQueues

  /** How an SDK call settles. `Text` carries the version of the resource the server read. */
  datatype Reply = Text(version: nat) | NoText | Uris(uris: seq<string>) | TimesOut | Fails

  datatype Call = Call(reply: Reply, at: int)

  datatype Happening =
    | Elapse(ms: nat)
    | Update(text: string)                    // the server changes the resource
    | Notified(uri: string, version: nat)     // a notification arrives, published with that version
    | Closed(reason: CloseReason)             // the handler on subscription.closed runs
    | TimerDue                                // the timer of the parked wait fires
    | Replied(reply: Reply)                   // the SDK call in progress settles
    | Resume                                  // the continuation of a settled wait runs
    | CloseDone                               // subscription.close() resolves

  /** `contents` are the versions of the resource so far, `notified` the versions whose notifications were received,
      `calls` how the SDK calls of the program settled, and when, in the order it made them. */
  datatype World = World(
    script: seq<Happening>, now: int, contents: seq<string>, notified: seq<nat>, closeReason: Option<CloseReason>, calls: seq<Call>)

  function Current(w: World): int {
    |w.contents| - 1
  }

  /** A version the server can have meant: it updates before it publishes. */
  function Between(low: nat, version: nat, high: nat): nat
    requires low <= high
  {
    if version < low then low else if version > high then high else version
  }

  ghost predicate Fresh(w: World) {
    w.contents != [] && w.notified == [] && w.closeReason.None?
  }

  predicate Died(reason: Option<CloseReason>) {
    reason.Some? && reason.value != Local
  }

  /** Queue and world agree: one recorded version for each notification, none newer than the server,
      and the queue has failed exactly if the stream ended on its own, for that reason. */
  ghost predicate Agree(q: Queue, w: World) {
    && Inv(q) && OnlyThePendingWait(q)
    && w.contents != [] && |w.notified| == q.receivedCount
    && (forall i :: 0 <= i < |w.notified| ==> w.notified[i] < |w.contents|)
    && q.failure == (if Died(w.closeReason) then w.closeReason else None)
  }

  lemma NewQueueAgrees(uri: string, w: World)
    requires Fresh(w)
    ensures Agree(New(uri), w)
  {
  }

  /** After cancel, the queue hears no more notifications. */
  lemma CancelAgrees(q: Queue, w: World)
    requires Agree(q, w) && q.pending.None?
    ensures Agree(Step(q, Cancel), w) && Step(q, Cancel) == q.(listening := false)
  {
  }

  /** Nothing that was published, received or closed is undone. */
  ghost predicate Extends(w: World, w': World) {
    && w.now <= w'.now && |w'.script| <= |w.script|
    && |w.contents| <= |w'.contents| && w'.contents[..|w.contents|] == w.contents
    && |w.notified| <= |w'.notified| && w'.notified[..|w.notified|] == w.notified
    && (w.closeReason.Some? ==> w'.closeReason == w.closeReason) && w.calls <= w'.calls
  }

  lemma ExtendsTwice(w: World, w': World, w'': World)
    requires Extends(w, w') && Extends(w', w'')
    ensures Extends(w, w'')
  {
    assert w''.contents[..|w.contents|] == w''.contents[..|w'.contents|][..|w.contents|];
    assert w''.notified[..|w.notified|] == w''.notified[..|w'.notified|][..|w.notified|];
  }

  /** The clock does not pass a time at which a timer is due. */
  predicate NotPast(now: int, due: Option<int>) {
    due.Some? ==> now <= due.value
  }

  /** How the queue's parked wait, if any, can change while the program waits. */
  ghost predicate MayWake(q: Queue, q': Queue) {
    && q'.uri == q.uri && q'.issued == q.issued && q'.listening == q.listening
    && q.receivedCount <= q'.receivedCount && (!q.listening ==> q'.receivedCount == q.receivedCount)
    && (q.failure.Some? ==> q'.failure == q.failure)
    && if q'.pending == q.pending then q'.settled == q.settled
       else q.pending.Some? && q'.pending.None? && |q'.settled| == |q.settled| + 1 && q'.settled[..|q.settled|] == q.settled
            && q'.settled[|q.settled|].id == q.pending.value.id
  }

  /** What woke it. */
  ghost predicate WokenBy(q: Queue, q': Queue, outcome: Outcome) {
    match outcome
    case Delivered(e) => e == Event(q'.receivedCount, q.uri) && q'.receivedCount == q.receivedCount + 1
    case Failed(r) => q'.failure == Some(r)
    case TimedOut => false
  }

  lemma StepMayWake(q: Queue, op: Op)
    requires Inv(q) && OnlyThePendingWait(q) && (op.Notify? || op.Fail?) && (op.Fail? ==> q.failure.None?)
    ensures MayWake(q, Step(q, op)) && Inv(Step(q, op)) && OnlyThePendingWait(Step(q, op))
    ensures Step(q, op).pending != q.pending ==> WokenBy(q, Step(q, op), Step(q, op).settled[|q.settled|].outcome)
  {
    StepKeepsInv(q, op);
    StepLeavesNoOther(q, op);
  }

  /** What one happening may do to queue and world. */
  ghost predicate Moved(q: Queue, w: World, q': Queue, w': World, due: Option<int>) {
    && Agree(q', w') && Extends(w, w') && NotPast(w'.now, due) && w'.script == w.script && w'.calls == w.calls
    && MayWake(q, q')
    && (q'.pending != q.pending ==> WokenBy(q, q', q'.settled[|q.settled|].outcome))
  }

  method Arrive(queue: ResourceUpdateQueue, w: World, uri: string, version: nat, ghost due: Option<int>) returns (w': World)
    requires Agree(queue.View(), w) && NotPast(w.now, due)
    modifies queue
    ensures Moved(old(queue.View()), w, queue.View(), w', due)
    ensures w'.closeReason == w.closeReason
  {
    w' := w;
    if uri == queue.uri && queue.listening {
      StepMayWake(queue.View(), Notify(uri));
      w' := w.(notified := w.notified + [Between(0, version, |w.contents| - 1)]);
    }
    queue.OnNotification(uri);
  }

  method End(queue: ResourceUpdateQueue, w: World, reason: CloseReason, closing: bool, ghost due: Option<int>) returns (w': World)
    requires Agree(queue.View(), w) && NotPast(w.now, due)
    modifies queue
    ensures Moved(old(queue.View()), w, queue.View(), w', due)
  {
    w' := w;
    if w.closeReason.None? && (closing || reason != Local) {
      w' := w.(closeReason := Some(reason));
      if reason != Local {
        StepMayWake(queue.View(), Op.Fail(reason));
        queue.Fail(reason);
      }
    }
  }

  /** One happening, other than the one the program awaits. */
  method Deliver(queue: ResourceUpdateQueue, w: World, h: Happening, due: Option<int>, closing: bool) returns (w': World)
    requires Agree(queue.View(), w) && NotPast(w.now, due)
    modifies queue
    ensures Moved(old(queue.View()), w, queue.View(), w', due)
    ensures !h.Closed? ==> w'.closeReason == w.closeReason
  {
    match h {
      case Elapse(ms) =>
        w' := w.(now := if due.Some? then Min(w.now + ms, due.value) else w.now + ms);
      case Update(text) =>
        w' := w.(contents := w.contents + [text]);
      case Notified(uri, version) =>
        w' := Arrive(queue, w, uri, version, due);
      case Closed(reason) =>
        w' := End(queue, w, reason, closing, due);
      case _ =>
        w' := w;
    }
  }

  /** With no wait parked, only the count and the failure of the queue can move. */
  ghost predicate Quiet(q: Queue, q': Queue) {
    && q.pending.None? && q'.pending.None? && q'.settled == q.settled
    && q'.uri == q.uri && q'.issued == q.issued && q'.listening == q.listening
    && q.receivedCount <= q'.receivedCount && (!q.listening ==> q'.receivedCount == q.receivedCount)
    && (q.failure.Some? ==> q'.failure == q.failure)
  }

  predicate Settles(reply: Reply, wantsText: bool, now: int, due: Option<int>) {
    match reply
    case Text(_) => wantsText
    case NoText => wantsText
    case Uris(_) => !wantsText
    case TimesOut => due.Some? && now >= due.value
    case Fails => true
  }

  /** What a call issued in w brings in w': a read, a version the server had in between. */
  function Answered(reply: Reply, w: World, w': World): Reply
    requires w.contents != [] && |w.contents| <= |w'.contents|
  {
    if reply.Text? then Text(Between(Current(w), reply.version, Current(w'))) else reply
  }

  /** Replies the program cannot go on from. */
  predicate Breaks(reply: Reply) {
    reply.Fails? || reply.NoText?
  }

  /** Awaits an SDK call; None when the script ends first. With `due`, the SDK gives the call up then. */
  method Await(queue: ResourceUpdateQueue, w: World, due: Option<int>, wantsText: bool) returns (w': World, reply: Option<Reply>)
    requires Agree(queue.View(), w) && queue.pending.None? && NotPast(w.now, due)
    // A read is not issued with no time left for it.
    requires wantsText && due.Some? ==> w.now < due.value
    modifies queue
    ensures Agree(queue.View(), w') && Extends(w, w') && NotPast(w'.now, due) && Quiet(old(queue.View()), queue.View())
    ensures if reply.None? then w'.script == []
            else Settles(reply.value, wantsText, w'.now, due) && |w'.script| < |w.script|
    ensures w'.calls == w.calls + if reply.Some? then [Call(reply.value, w'.now)] else []
    ensures reply.Some? && reply.value.Text? ==> Current(w) <= reply.value.version <= Current(w')
    ensures !wantsText && w.closeReason.None? ==> w'.closeReason.None?
  {
    w' := w;
    while w'.script != []
      invariant Agree(queue.View(), w') && Extends(w, w') && NotPast(w'.now, due) && Quiet(old(queue.View()), queue.View())
      invariant w'.calls == w.calls && (!wantsText && w.closeReason.None? ==> w'.closeReason.None?)
      decreases |w'.script|
    {
      var h := w'.script[0];
      ghost var before := w';
      w' := w'.(script := w'.script[1..]);
      if h.Replied? && Settles(h.reply, wantsText, w'.now, due) {
        reply := Some(Answered(h.reply, w, w'));
        w' := w'.(calls := w'.calls + [Call(reply.value, w'.now)]);
        return;
      }
      // Only an acknowledged stream can close.
      if wantsText || !h.Closed? {
        w' := Deliver(queue, w', h, due, false);
        ExtendsTwice(w, before, w');
      }
    }
    return w', None;
  }

  /** What became of a wait: where it started, how much had been received then, how it settled, and how the stream
      had ended when it settled, if it had. */
  datatype WaitRecord = WaitRecord(after: nat, receivedThen: nat, outcome: Outcome, closedBy: Option<CloseReason>)

  ghost predicate Explains(r: WaitRecord, q: Queue, w: World, q': Queue, w': World, timeoutMs: int) {
    r.receivedThen == q.receivedCount &&
    match r.outcome
    case Delivered(e) => e == Event(Max(r.after, q.receivedCount - CAPACITY) + 1, q.uri) && e.sequence <= q'.receivedCount
    case Failed(reason) => r.closedBy == Some(reason) && reason != Local && w'.closeReason == r.closedBy
    case TimedOut => !Died(r.closedBy) && w'.now == w.now + timeoutMs
  }

  /** The state of a wait begun in (q0, w0): parked with nothing new received, or settled as `Explains` says. */
  ghost predicate Waiting(q0: Queue, w0: World, q: Queue, w: World, after: nat, timeoutMs: int) {
    && Agree(q, w) && Extends(w0, w) && w.now <= w0.now + timeoutMs && w.calls == w0.calls
    && q.uri == q0.uri && q.listening && q.receivedCount >= q0.receivedCount
    && (if q.pending.Some? then q.pending.value == Waiter(q0.issued, after) && q.receivedCount == after == q0.receivedCount
        else q.settled != [] && Explains(Latest(q0, q, w, after), q0, w0, q, w, timeoutMs))
  }

  ghost function Latest(q0: Queue, q: Queue, w: World, after: nat): WaitRecord
    requires q.settled != []
  {
    WaitRecord(after, q0.receivedCount, q.settled[|q.settled| - 1].outcome, w.closeReason)
  }

  /** A parked wait moves only as the queue says. */
  lemma StillWaiting(q0: Queue, w0: World, q: Queue, w: World, rest: seq<Happening>, q': Queue, w': World, after: nat, timeoutMs: int)
    requires Waiting(q0, w0, q, w, after, timeoutMs) && q.pending.Some?
    requires |rest| <= |w.script| && Moved(q, w.(script := rest), q', w', Some(w0.now + timeoutMs))
    ensures Waiting(q0, w0, q', w', after, timeoutMs)
  {
    ExtendsTwice(w0, w, w');
  }

  lemma BeginsWaiting(q: Queue, w: World, after: nat, timeoutMs: nat)
    requires Agree(q, w) && q.pending.None? && q.listening && after <= q.receivedCount
    ensures Waiting(q, w, Step(q, Wait(after, timeoutMs)), w, after, timeoutMs)
  {
    BufferAnswers(q, after);
    StepKeepsInv(q, Wait(after, timeoutMs));
    StepLeavesNoOther(q, Wait(after, timeoutMs));
  }

  lemma TimerEndsWaiting(q0: Queue, w0: World, q: Queue, w: World, rest: seq<Happening>, after: nat, timeoutMs: int)
    requires Waiting(q0, w0, q, w, after, timeoutMs) && q.pending.Some? && w.now >= w0.now + timeoutMs && |rest| <= |w.script|
    ensures Waiting(q0, w0, Step(q, TimerFires(q0.issued)), w.(script := rest), after, timeoutMs)
  {
    StepKeepsInv(q, TimerFires(q0.issued));
    StepLeavesNoOther(q, TimerFires(q0.issued));
  }

  /** The first half of a wait: until its promise settles, or the script ends with it parked. */
  method AwaitSettlement(queue: ResourceUpdateQueue, w: World, after: nat, timeoutMs: nat) returns (w': World)
    requires Agree(queue.View(), w) && queue.pending.None? && queue.listening && after <= queue.receivedCount
    modifies queue
    ensures Waiting(old(queue.View()), w, queue.View(), w', after, timeoutMs)
    ensures queue.pending.Some? ==> w'.script == []
  {
    w' := w;
    var due := Some(w.now + timeoutMs);
    BeginsWaiting(queue.View(), w, after, timeoutMs);
    var id := queue.WaitAfter(after, timeoutMs);
    while queue.pending.Some? && w'.script != []
      invariant Waiting(old(queue.View()), w, queue.View(), w', after, timeoutMs)
      invariant id == old(queue.issued)
      decreases |w'.script|
    {
      var h, rest := w'.script[0], w'.script[1..];
      if h.TimerDue? && w'.now >= due.value {
        TimerEndsWaiting(old(queue.View()), w, queue.View(), w', rest, after, timeoutMs);
        queue.OnTimer(id);
        w' := w'.(script := rest);
      } else {
        ghost var q1, w1 := queue.View(), w';
        w' := Deliver(queue, w'.(script := rest), h, due, false);
        StillWaiting(old(queue.View()), w, q1, w1, rest, queue.View(), w', after, timeoutMs);
      }
    }
  }

  /** The second half: the continuation runs in a microtask, and other handlers may run before it. No time passes. */
  method AwaitResumption(queue: ResourceUpdateQueue, w: World) returns (w': World, resumed: bool)
    requires Agree(queue.View(), w) && queue.pending.None?
    modifies queue
    ensures Agree(queue.View(), w') && Extends(w, w') && w'.now == w.now && Quiet(old(queue.View()), queue.View())
    ensures w'.calls == w.calls && (!resumed ==> w'.script == [])
  {
    w' := w;
    while w'.script != []
      invariant Agree(queue.View(), w') && Extends(w, w') && w'.now == w.now && Quiet(old(queue.View()), queue.View())
      invariant w'.calls == w.calls
      decreases |w'.script|
    {
      var h := w'.script[0];
      ghost var before := w';
      w' := w'.(script := w'.script[1..]);
      if h.Resume? {
        return w', true;
      }
      w' := Deliver(queue, w', h, Some(w.now), false);
      ExtendsTwice(w, before, w');
    }
    return w', false;
  }

  /** Awaits the notification after `after`; None when the script ends first, with the wait parked or settled. */
  method AwaitUpdate(queue: ResourceUpdateQueue, w: World, after: nat, timeoutMs: nat)
    returns (w': World, settled: Option<WaitRecord>)
    requires Agree(queue.View(), w) && queue.pending.None? && queue.listening && after <= queue.receivedCount
    modifies queue
    ensures Agree(queue.View(), w') && Extends(w, w') && w'.now <= w.now + timeoutMs && w'.calls == w.calls
    ensures queue.listening && queue.receivedCount >= old(queue.receivedCount)
    ensures queue.pending.Some? ==> settled.None? && queue.receivedCount == after
    ensures settled.None? ==> w'.script == []
    ensures settled.None? && queue.pending.None? ==>
              queue.receivedCount > after || Died(w'.closeReason) || w'.now >= w.now + timeoutMs
    ensures settled.Some? ==> settled.value.after == after && Explains(settled.value, old(queue.View()), w, queue.View(), w', timeoutMs)
  {
    var receivedThen := queue.receivedCount;
    w' := AwaitSettlement(queue, w, after, timeoutMs);
    if queue.pending.Some? {
      return w', None;
    }
    var record := WaitRecord(after, receivedThen, queue.settled[|queue.settled| - 1].outcome, w'.closeReason);
    ghost var mid := w';
    var resumed: bool;
    w', resumed := AwaitResumption(queue, w');
    ExtendsTwice(w, mid, w');
    settled := if resumed then Some(record) else None;
  }

  /** Awaits subscription.close(); whatever ends the stream meanwhile is recorded. */
  method AwaitClose(queue: ResourceUpdateQueue, w: World) returns (w': World, closed: bool)
    requires Agree(queue.View(), w) && queue.pending.None?
    modifies queue
    ensures !closed ==> w'.script == []
    ensures Agree(queue.View(), w') && Extends(w, w') && Quiet(old(queue.View()), queue.View()) && w'.calls == w.calls
  {
    w' := w;
    while w'.script != []
      invariant Agree(queue.View(), w') && Extends(w, w') && Quiet(old(queue.View()), queue.View()) && w'.calls == w.calls
      decreases |w'.script|
    {
      var h := w'.script[0];
      ghost var before := w';
      w' := w'.(script := w'.script[1..]);
      if h.CloseDone? {
        return w', true;
      }
      w' := Deliver(queue, w', h, None, true);
      ExtendsTwice(w, before, w');
    }
    return w', false;
  }

  /** Awaits an SDK call made before there is a queue: notifications have no handler yet. */
  method AwaitCall(w: World, due: Option<int>, wantsText: bool) returns (w': World, reply: Option<Reply>)
    requires Fresh(w) && NotPast(w.now, due)
    ensures Fresh(w') && Extends(w, w') && NotPast(w'.now, due)
    ensures if reply.None? then w'.script == []
            else Settles(reply.value, wantsText, w'.now, due)
    ensures w'.calls == w.calls + if reply.Some? then [Call(reply.value, w'.now)] else []
    ensures reply.Some? && reply.value.Text? ==> Current(w) <= reply.value.version <= Current(w')
  {
    w' := w;
    while w'.script != []
      invariant Fresh(w') && Extends(w, w') && NotPast(w'.now, due) && w'.calls == w.calls
      decreases |w'.script|
    {
      var h := w'.script[0];
      w' := w'.(script := w'.script[1..]);
      match h {
        case Elapse(ms) => w' := w'.(now := if due.Some? then Min(w'.now + ms, due.value) else w'.now + ms);
        case Update(text) => w' := w'.(contents := w'.contents + [text]);
        case Replied(r) =>
          if Settles(r, wantsText, w'.now, due) {
            reply := Some(Answered(r, w, w'));
            w' := w'.(calls := w'.calls + [Call(reply.value, w'.now)]);
            return;
          }
        case _ =>
      }
    }
    return w', None;
  }

  // ---- What both clients report ----

  datatype ErrorCode =
    | NotificationTimeout | ResourceNotFound | SubscriptionFailed | SubscriptionNotHonored
    | SubscriptionDisconnected | SubscriptionClosed

  /** classifyWaitFailure: a dead stream is told from a quiet one. */
  function Classify(outcome: Outcome): ErrorCode
    requires !outcome.Delivered?
  {
    match outcome
    case Failed(Remote) => SubscriptionDisconnected
    case Failed(_) => SubscriptionClosed
    case TimedOut => NotificationTimeout
  }

  /** A completed read: how many notifications had been received when it was issued, and what it returned. */
  datatype Read = Read(issuedAfter: nat, version: nat, text: string)

  ghost predicate ReadsOf(done: seq<Read>, w: World) {
    forall i :: 0 <= i < |done| ==>
      done[i].version < |w.contents| && done[i].text == w.contents[done[i].version] && done[i].issuedAfter <= |w.notified|
  }

  /** From call `from` on the calls were these reads, and were answered with what they returned. */
  ghost predicate ReadsAnswered(done: seq<Read>, calls: seq<Call>, from: nat) {
    from + |done| <= |calls| && forall i :: 0 <= i < |done| ==> calls[from + i].reply == Text(done[i].version)
  }

  /** How call i settled, if it was made and did. */
  function CallAt(calls: seq<Call>, i: nat): Option<Reply> {
    if i < |calls| then Some(calls[i].reply) else None
  }

  /** The URIs that call i brought. */
  function UrisAt(calls: seq<Call>, i: nat): Option<seq<string>> {
    match CallAt(calls, i)
    case Some(Uris(uris)) => Some(uris)
    case _ => None
  }

  /** A call settled, but brought no URIs. */
  predicate NoUrisAt(calls: seq<Call>, i: nat) {
    CallAt(calls, i).Some? && UrisAt(calls, i).None?
  }

  /** The read shows every notification that had been received when it was issued. */
  ghost predicate Covers(r: Read, w: World) {
    r.issuedAfter <= |w.notified| && forall i :: 0 <= i < r.issuedAfter ==> w.notified[i] <= r.version
  }

  /** No update is lost to a parked run: its last read was issued after every notification received,
      and what it read is at least as new as each of them. */
  ghost predicate NothingLost(done: seq<Read>, w: World) {
    && done != [] && done[|done| - 1].issuedAfter == |w.notified|
    && forall i :: 0 <= i < |w.notified| ==> w.notified[i] <= done[|done| - 1].version
  }

  lemma ReadsExtend(done: seq<Read>, w: World, w': World)
    requires ReadsOf(done, w) && Extends(w, w')
    ensures ReadsOf(done, w')
    ensures forall r :: Covers(r, w) ==> Covers(r, w')
  {
    assert forall k :: 0 <= k < |w.contents| ==> w.contents[k] == w'.contents[..|w.contents|][k] == w'.contents[k];
    assert forall k :: 0 <= k < |w.notified| ==> w.notified[k] == w'.notified[..|w.notified|][k] == w'.notified[k];
  }

  /** A read issued in (q, w) and answered in w' with `version`. */
  lemma NewRead(done: seq<Read>, q: Queue, w: World, w': World, version: nat)
    requires Agree(q, w) && Extends(w, w') && ReadsOf(done, w) && Current(w) <= version <= Current(w')
    ensures var r := Read(q.receivedCount, version, w'.contents[version]);
            ReadsOf(done + [r], w') && Covers(r, w')
  {
    ReadsExtend(done, w, w');
    assert forall k :: 0 <= k < |w.notified| ==> w.notified[k] == w'.notified[..|w.notified|][k] == w'.notified[k];
  }
}

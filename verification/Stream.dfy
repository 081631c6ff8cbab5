/** The streaming client (runResourceStream in src/client/streamClient.ts). */
module Streams {
  import opened Common
  import opened JsonPointer
  import opened UpdateQueues
  import opened Sessions

  datatype Options = Options(
    uri: string, timeoutMs: Option<int>, skipResourceListCheck: bool, until: Until, parse: JsonParse)

  const DEFAULT_TIMEOUT_MS := 15000

  datatype Source = PostListen | FromNotification

  datatype Event =
    | Ack(resourceUri: string, honoredUris: seq<string>)
    | Snapshot(source: Source, notificationUri: Option<string>, text: string, json: Option<Json>, matched: bool)

  datatype Result = Result(
    listenAcknowledged: bool, honoredUris: seq<string>, closeReason: Option<CloseReason>,
    errorCode: Option<ErrorCode>, notificationCount: nat, matched: bool)

  /** How the run stands when the script is used up. */
  datatype Ending = Returned(result: Result) | Threw | Parked | Unfinished

  datatype Run = Run(
    ending: Ending, events: seq<Event>, acked: Option<seq<string>>, done: seq<Read>, decidedAt: int, world: World)

  // ---- The trace a run must have, given its reads ----

  function SnapshotOf(k: nat, r: Read, o: Options): Event
    requires o.until.Condition?
  {
    var e := EvaluateSnapshot(o.until, r.text, o.parse);
    if k == 0 then Snapshot(PostListen, None, r.text, e.json, e.matched)
    else Snapshot(FromNotification, Some(o.uri), r.text, e.json, e.matched)
  }

  function Snapshots(done: seq<Read>, o: Options): seq<Event>
    requires o.until.Condition?
  {
    if done == [] then [] else
    var n := |done| - 1;
    Snapshots(done[..n], o) + [SnapshotOf(n, done[n], o)]
  }

  function Trace(honored: seq<string>, done: seq<Read>, o: Options): seq<Event>
    requires o.until.Condition?
  {
    [Ack(o.uri, honored)] + Snapshots(done, o)
  }

  predicate Matches(r: Read, o: Options)
    requires o.until.Condition?
  {
    EvaluateSnapshot(o.until, r.text, o.parse).matched
  }

  /** Each read follows a notification the one before had not been issued after: notifications that arrive
      together are read once. Only the last read can match. */
  ghost predicate Coalesced(done: seq<Read>, o: Options)
    requires o.until.Condition?
  {
    |done| >= 2 ==>
      var before, last := done[..|done| - 1], done[|done| - 1];
      && Coalesced(before, o)
      && before[|before| - 1].issuedAfter < last.issuedAfter && !Matches(before[|before| - 1], o)
  }

  lemma {:induction false} CoalescedCounts(done: seq<Read>, o: Options)
    requires o.until.Condition? && Coalesced(done, o) && done != []
    ensures |done| - 1 <= done[|done| - 1].issuedAfter
  {
    if |done| <= 1 {
    } else {
      CoalescedCounts(done[..|done| - 1], o);
    }
  }

  /** The grammar of the trace: an ack, one post-listen snapshot, then notification snapshots, of which only
      the last can match. */
  ghost predicate EventInPlace(events: seq<Event>, i: nat, uri: string)
    requires i < |events|
  {
    match events[i]
    case Ack(resourceUri, _) => i == 0 && resourceUri == uri
    case Snapshot(source, notificationUri, _, _, matched) =>
      && (if i == 1 then source == PostListen && notificationUri.None?
          else i > 1 && source == FromNotification && notificationUri == Some(uri))
      && (matched ==> i == |events| - 1)
  }

  lemma {:induction false} TraceIsGrammatical(honored: seq<string>, done: seq<Read>, o: Options, i: nat)
    requires o.until.Condition? && Coalesced(done, o) && i < |Trace(honored, done, o)|
    ensures |Trace(honored, done, o)| == |done| + 1 && Trace(honored, done, o)[0] == Ack(o.uri, honored)
    ensures EventInPlace(Trace(honored, done, o), i, o.uri)
    ensures i > 0 ==>
              var e, text := Trace(honored, done, o)[i], done[i - 1].text;
              e.Snapshot? && e.text == text && e.json == o.parse(text) && (e.matched <==> Shows(text, o.until, o.parse))
  {
    if done == [] {
    } else {
      var n := |done| - 1;
      var before := Trace(honored, done[..n], o);
      SnapshotsCount(done[..n], o);
      assert Trace(honored, done, o) == before + [SnapshotOf(n, done[n], o)];
      if i > 0 { SnapshotShows(o.until, done[i - 1].text, o.parse); }
      if i < |before| {
        TraceIsGrammatical(honored, done[..n], o, i);
        if i > 0 { assert !Matches(done[i - 1], o) by { EarlierDoNotMatch(done, o, i - 1); } }
      }
    }
  }

  lemma {:induction false} SnapshotsCount(done: seq<Read>, o: Options)
    requires o.until.Condition?
    ensures |Snapshots(done, o)| == |done|
  {
    if done == [] {
    } else {
      SnapshotsCount(done[..|done| - 1], o);
    }
  }

  lemma {:induction false} EarlierDoNotMatch(done: seq<Read>, o: Options, i: nat)
    requires o.until.Condition? && Coalesced(done, o) && i < |done| - 1
    ensures !Matches(done[i], o)
  {
    if i < |done| - 2 { EarlierDoNotMatch(done[..|done| - 1], o, i); }
  }

  // ---- The run ----

  /** The calls a run makes: it connects, lists the resources unless told not to, listens, and reads from then on. */
  function ListenCall(o: Options): nat {
    if o.skipResourceListCheck then 1 else 2
  }

  function Listing(o: Options, calls: seq<Call>): Option<seq<string>> {
    if o.skipResourceListCheck then None else UrisAt(calls, 1)
  }

  datatype LoopEnd = Stopped(errorCode: Option<ErrorCode>, matched: bool) | Failed | StillParked | Cut

  /** What a wait that ended a run says about it. */
  ghost predicate Justified(code: ErrorCode, w: World, deadline: int) {
    match code
    case NotificationTimeout => w.now >= deadline
    case SubscriptionDisconnected => w.closeReason == Some(Remote)
    case SubscriptionClosed => w.closeReason == Some(Graceful)
    case _ => false
  }

  /** The loop's calls were its reads, and at most one more, which was cut off or failed. */
  ghost predicate LoopCalls(end: LoopEnd, done: seq<Read>, calls: seq<Call>, first: nat) {
    && ReadsAnswered(done, calls, first)
    && if |calls| == first + |done| then !end.Failed? else
       && |calls| == first + |done| + 1
       && match end
          case Failed => Breaks(calls[|calls| - 1].reply)
          case Stopped(errorCode, _) => errorCode == Some(NotificationTimeout) && calls[|calls| - 1].reply.TimesOut?
          case _ => false
  }

  /** A run that is still in its loop and not parked is reading, or has something to go on with. */
  ghost predicate Busy(done: seq<Read>, w: World, deadline: int) {
    done == [] || done[|done| - 1].issuedAfter < |w.notified| || Died(w.closeReason) || w.now >= deadline
  }

  ghost predicate LoopKeeps(
      end: LoopEnd, honored: seq<string>, events: seq<Event>, done: seq<Read>, q: Queue, w: World, deadline: int, o: Options)
    requires o.until.Condition?
  {
    && Agree(q, w) && q.listening && q.uri == o.uri && w.now <= deadline
    && events == Trace(honored, done, o) && ReadsOf(done, w) && Coalesced(done, o)
    && LoopCalls(end, done, w.calls, ListenCall(o) + 1)
    && (q.pending.Some? <==> end.StillParked?)
    && match end
       case Stopped(errorCode, matched) =>
         && (matched <==> errorCode.None?)
         && (matched <==> done != [] && Matches(done[|done| - 1], o))
         && (errorCode.Some? ==> Justified(errorCode.value, w, deadline))
       case StillParked => NothingLost(done, w) && !Matches(done[|done| - 1], o) && w.script == []
       case Cut => w.script == [] && Busy(done, w, deadline)
       case Failed => Busy(done, w, deadline)
  }

  /** The top of the loop: a read is about to be issued, for notifications the last one did not cover. */
  ghost predicate AtTop(
      honored: seq<string>, events: seq<Event>, done: seq<Read>, q: Queue, w: World,
      sequence: nat, source: Source, notificationUri: Option<string>, deadline: int, o: Options)
    requires o.until.Condition?
  {
    && Agree(q, w) && q.pending.None? && q.listening && q.uri == o.uri && w.now <= deadline
    && events == Trace(honored, done, o) && ReadsOf(done, w) && Coalesced(done, o)
    && sequence == q.receivedCount
    && ReadsAnswered(done, w.calls, ListenCall(o) + 1) && |w.calls| == ListenCall(o) + 1 + |done|
    && (if done == [] then source == PostListen && notificationUri.None?
        else source == FromNotification && notificationUri == Some(o.uri)
             && done[|done| - 1].issuedAfter < sequence && !Matches(done[|done| - 1], o))
  }

  /** A snapshot was written that did not match. */
  ghost predicate Unmatched(
      honored: seq<string>, events: seq<Event>, done: seq<Read>, q: Queue, w: World, sequence: nat, deadline: int, o: Options)
    requires o.until.Condition?
  {
    && Agree(q, w) && q.pending.None? && q.listening && q.uri == o.uri && w.now <= deadline
    && events == Trace(honored, done, o) && ReadsOf(done, w) && Coalesced(done, o)
    && sequence <= q.receivedCount
    && ReadsAnswered(done, w.calls, ListenCall(o) + 1) && |w.calls| == ListenCall(o) + 1 + |done|
    && done != [] && done[|done| - 1].issuedAfter == sequence && Covers(done[|done| - 1], w) && !Matches(done[|done| - 1], o)
  }

  lemma OneMoreRead(honored: seq<string>, done: seq<Read>, r: Read, o: Options)
    requires o.until.Condition? && Coalesced(done, o)
    requires done != [] ==> done[|done| - 1].issuedAfter < r.issuedAfter && !Matches(done[|done| - 1], o)
    ensures Coalesced(done + [r], o)
    ensures Trace(honored, done + [r], o) == Trace(honored, done, o) + [SnapshotOf(|done|, r, o)]
  {
    assert (done + [r])[..|done|] == done;
  }

  lemma SnapshotTaken(
      honored: seq<string>, written: seq<Event>, earlier: seq<Read>, q0: Queue, before: World, q: Queue, w: World,
      sequence: nat, source: Source, notificationUri: Option<string>, version: nat, deadline: int, o: Options)
    requires o.until.Condition?
    requires AtTop(honored, written, earlier, q0, before, sequence, source, notificationUri, deadline, o)
    requires Agree(q, w) && Quiet(q0, q) && Extends(before, w) && w.now <= deadline && Current(before) <= version <= Current(w)
    requires w.calls == before.calls + [Call(Text(version), w.now)]
    ensures var r := Read(sequence, version, w.contents[version]);
            var e := EvaluateSnapshot(o.until, r.text, o.parse);
            var events := written + [Snapshot(source, notificationUri, r.text, e.json, e.matched)];
            if e.matched then LoopKeeps(Stopped(None, true), honored, events, earlier + [r], q, w, deadline, o)
            else Unmatched(honored, events, earlier + [r], q, w, sequence, deadline, o)
  {
    var r := Read(sequence, version, w.contents[version]);
    NewRead(earlier, q0, before, w, version);
    OneMoreRead(honored, earlier, r, o);
  }

  /** The read that was issued there brought no text. */
  lemma SnapshotNotTaken(
      end: LoopEnd, honored: seq<string>, written: seq<Event>, earlier: seq<Read>, q0: Queue, before: World, q: Queue, w: World,
      sequence: nat, source: Source, notificationUri: Option<string>, reply: Option<Reply>, deadline: int, o: Options)
    requires o.until.Condition?
    requires AtTop(honored, written, earlier, q0, before, sequence, source, notificationUri, deadline, o)
    requires Agree(q, w) && Quiet(q0, q) && Extends(before, w) && w.now <= deadline
    requires w.calls == before.calls + if reply.Some? then [Call(reply.value, w.now)] else []
    requires match reply
             case None => end.Cut? && w.script == []
             case Some(TimesOut) => end == Stopped(Some(NotificationTimeout), false) && w.now >= deadline
             case Some(r) => end.Failed? && Breaks(r)
    ensures LoopKeeps(end, honored, written, earlier, q, w, deadline, o)
  {
    ReadsExtend(earlier, before, w);
  }

  /** Reads the resource and writes what it shows. */
  method TakeSnapshot(
      queue: ResourceUpdateQueue, before: World, honored: seq<string>, written: seq<Event>, earlier: seq<Read>,
      sequence: nat, source: Source, notificationUri: Option<string>, deadline: int, o: Options)
    returns (end: Option<LoopEnd>, events: seq<Event>, done: seq<Read>, w: World)
    requires o.until.Condition?
    requires AtTop(honored, written, earlier, queue.View(), before, sequence, source, notificationUri, deadline, o)
    modifies queue
    ensures Extends(before, w)
    ensures end.Some? ==> LoopKeeps(end.value, honored, events, done, queue.View(), w, deadline, o)
    ensures end.None? ==> Unmatched(honored, events, done, queue.View(), w, sequence, deadline, o) && |w.script| < |before.script|
  {
    events, done, w := written, earlier, before;
    if deadline - w.now <= 0 {
      end := Some(Stopped(Some(NotificationTimeout), false));
      return;
    }
    ghost var q := queue.View();
    var reply: Option<Reply>;
    w, reply := Await(queue, w, Some(deadline), true);
    if reply.None? || !reply.value.Text? {
      var ended :=
        if reply.None? then Cut
        else if reply.value.TimesOut? then Stopped(Some(NotificationTimeout), false) else LoopEnd.Failed;
      SnapshotNotTaken(
        ended, honored, written, earlier, q, before, queue.View(), w, sequence, source, notificationUri, reply, deadline, o);
      end := Some(ended);
    } else {
      var r := Read(sequence, reply.value.version, w.contents[reply.value.version]);
      SnapshotTaken(honored, written, earlier, q, before, queue.View(), w, sequence, source, notificationUri, r.version, deadline, o);
      var evaluated := EvaluateSnapshot(o.until, r.text, o.parse);
      events := events + [Snapshot(source, notificationUri, r.text, evaluated.json, evaluated.matched)];
      done := done + [r];
      end := if evaluated.matched then Some(Stopped(None, true)) else None;
    }
  }

  /** Waits for a notification later than `sequence`, which may already be there. */
  method WaitForMore(
      queue: ResourceUpdateQueue, before: World, ghost honored: seq<string>, ghost events: seq<Event>, ghost done: seq<Read>,
      sequence: nat, deadline: int, ghost o: Options)
    returns (end: Option<LoopEnd>, notificationUri: Option<string>, w: World)
    requires o.until.Condition? && Unmatched(honored, events, done, queue.View(), before, sequence, deadline, o)
    modifies queue
    ensures Extends(before, w)
    ensures end.Some? ==> LoopKeeps(end.value, honored, events, done, queue.View(), w, deadline, o)
    ensures end.None? ==> AtTop(honored, events, done, queue.View(), w, queue.receivedCount, FromNotification, notificationUri, deadline, o)
  {
    notificationUri := None;
    var settled: Option<WaitRecord>;
    w, settled := AwaitUpdate(queue, before, sequence, Max(0, deadline - before.now));
    ReadsExtend(done, before, w);
    if settled.None? {
      end := Some(if queue.pending.Some? then StillParked else Cut);
    } else if settled.value.outcome.Delivered? {
      notificationUri := Some(settled.value.outcome.event.uri);
      end := None;
    } else {
      end := Some(Stopped(Some(Classify(settled.value.outcome)), false));
    }
  }

  method ReadUntilMatched(queue: ResourceUpdateQueue, start: World, honored: seq<string>, deadline: int, o: Options)
    returns (end: LoopEnd, events: seq<Event>, done: seq<Read>, w: World)
    requires o.until.Condition? && Agree(queue.View(), start) && queue.pending.None? && queue.listening && queue.uri == o.uri
    requires start.now <= deadline && |start.calls| == ListenCall(o) + 1
    modifies queue
    ensures Extends(start, w) && LoopKeeps(end, honored, events, done, queue.View(), w, deadline, o)
  {
    w, events, done := start, [Ack(o.uri, honored)], [];
    var sequence := queue.receivedCount;
    var source, notificationUri := PostListen, None;
    while true
      invariant Extends(start, w)
      invariant AtTop(honored, events, done, queue.View(), w, sequence, source, notificationUri, deadline, o)
      decreases |w.script|
    {
      var stop: Option<LoopEnd>;
      ghost var w0 := w;
      stop, events, done, w := TakeSnapshot(queue, w, honored, events, done, sequence, source, notificationUri, deadline, o);
      ExtendsTwice(start, w0, w);
      if stop.Some? {
        return stop.value, events, done, w;
      }
      ghost var w1 := w;
      stop, notificationUri, w := WaitForMore(queue, w, honored, events, done, sequence, deadline, o);
      ExtendsTwice(start, w1, w);
      if stop.Some? {
        return stop.value, events, done, w;
      }
      sequence := queue.receivedCount;
      source := FromNotification;
    }
  }

  function Deadline(start: World, o: Options): int {
    start.now + if o.timeoutMs.Some? then o.timeoutMs.value else DEFAULT_TIMEOUT_MS
  }

  /** A result without a snapshot. */
  function Refused(code: ErrorCode, acked: Option<seq<string>>, closeReason: Option<CloseReason>): Result {
    Result(acked.Some?, if acked.Some? then acked.value else [], closeReason, Some(code), 0, false)
  }

  /** What every run promises, whatever the outside world does. */
  ghost predicate Promises(run: Run, start: World, o: Options)
    requires o.until.Condition?
  {
    var due := start.now + match o.timeoutMs case Some(ms) => ms case None => 15000;
    && Extends(start, run.world)
    // What was written is the trace of what was read, and starts with the ack.
    && run.events == (if run.acked.Some? then Trace(run.acked.value, run.done, o) else [])
    && (run.acked.None? ==> run.done == [])
    && ReadsOf(run.done, run.world) && Coalesced(run.done, o)
    // Nothing is decided after the budget is spent, which is 15 seconds unless the caller says otherwise.
    && run.decidedAt <= Max(start.now, due)
    && (due <= start.now ==> run.world.calls == [] && run.ending.Returned?)
    && CallsExplain(run.ending, run.acked, run.done, run.world, o)
    // Unless it returns or throws, it ends only because the outside world is done.
    && (run.ending.Parked? || run.ending.Unfinished? ==> run.world.script == [])
    && (run.ending.Parked? ==> NothingLost(run.done, run.world) && !Matches(run.done[|run.done| - 1], o))
    // One that has nothing left to do but wait is parked.
    && (run.ending.Unfinished? && run.done != [] && !Matches(run.done[|run.done| - 1], o) ==> Busy(run.done, run.world, due))
    && (run.ending.Returned? ==> ResultAgrees(run.ending.result, run, start, o))
  }

  /** What every call settled with decides how the run ends: it throws exactly for a call that broke, other than listen, and
      each refusal has its cause. */
  ghost predicate CallsExplain(ending: Ending, acked: Option<seq<string>>, done: seq<Read>, w: World, o: Options) {
    var k, n := ListenCall(o), |w.calls|;
    && acked == UrisAt(w.calls, k)
    && (if acked.None? then n <= k + 1 else ReadsAnswered(done, w.calls, k + 1) && n <= k + 2 + |done|)
    && match ending
       case Threw => n > 0 && n - 1 != k && Breaks(w.calls[n - 1].reply)
       case Returned(r) =>
         && (forall i :: 0 <= i < n && i != k ==> !Breaks(w.calls[i].reply))
         && (r.errorCode == Some(ResourceNotFound) <==> Listing(o, w.calls).Some? && o.uri !in Listing(o, w.calls).value)
         && (r.errorCode == Some(SubscriptionFailed) <==> NoUrisAt(w.calls, k))
         && (r.errorCode == Some(SubscriptionNotHonored) <==> acked.Some? && o.uri !in acked.value)
         && (r.errorCode == Some(NotificationTimeout) && acked.None? ==> n == 0 || w.calls[n - 1].reply.TimesOut?)
         && r.closeReason == w.closeReason
       case _ => true
  }

  /** The calls before listen succeeded, and the listing, if there was one, names the resource. */
  ghost predicate Connected(o: Options, calls: seq<Call>) {
    && |calls| >= ListenCall(o) && (forall i :: 0 <= i < ListenCall(o) ==> calls[i].reply.Uris?)
    && (Listing(o, calls).Some? ==> o.uri in Listing(o, calls).value)
  }

  ghost predicate ResultAgrees(r: Result, run: Run, start: World, o: Options)
    requires o.until.Condition?
  {
    && (r.matched <==> r.errorCode.None?)
    && (r.matched <==> run.done != [] && Shows(run.done[|run.done| - 1].text, o.until, o.parse))
    && r.listenAcknowledged == run.acked.Some?
    && r.honoredUris == (if run.acked.Some? then run.acked.value else [])
    && r.notificationCount == (if run.acked.Some? && o.uri in run.acked.value then |run.world.notified| else 0)
    && |run.done| - 1 <= r.notificationCount
    && (r.errorCode == Some(NotificationTimeout) ==> run.decidedAt >= Deadline(start, o))
    && (r.errorCode == Some(SubscriptionDisconnected) ==> r.closeReason == Some(Remote))
    && (r.errorCode == Some(ErrorCode.SubscriptionClosed) ==> r.closeReason == Some(Graceful))
  }

  /** A run that ends before the loop: refused, thrown out, or still waiting for a call. */
  lemma EarlyEnd(ending: Ending, acked: Option<seq<string>>, decidedAt: int, w: World, start: World, o: Options)
    requires o.until.Condition? && Extends(start, w) && decidedAt <= Max(start.now, Deadline(start, o))
    requires match ending
             case Returned(r) =>
               && r.errorCode.Some? && r == Refused(r.errorCode.value, acked, r.closeReason)
               && (if acked.Some? then r.errorCode.value == SubscriptionNotHonored && o.uri !in acked.value
                   else r.errorCode.value in {NotificationTimeout, ResourceNotFound, SubscriptionFailed})
               && (r.errorCode.value == NotificationTimeout ==> decidedAt >= Deadline(start, o))
             case Threw => true
             case Unfinished => w.script == []
             case Parked => false
    requires CallsExplain(ending, acked, [], w, o) && (acked.Some? && ending.Returned? ==> o.uri !in acked.value)
    requires Deadline(start, o) <= start.now ==> w.calls == [] && ending.Returned?
    ensures Promises(Run(ending, if acked.Some? then [Ack(o.uri, acked.value)] else [], acked, [], decidedAt, w), start, o)
  {
  }

  lemma NothingBroke(end: LoopEnd, done: seq<Read>, calls: seq<Call>, o: Options)
    requires Connected(o, calls) && UrisAt(calls, ListenCall(o)).Some? && LoopCalls(end, done, calls, ListenCall(o) + 1) && end.Stopped?
    ensures forall i :: 0 <= i < |calls| && i != ListenCall(o) ==> !Breaks(calls[i].reply)
  {
    var first := ListenCall(o) + 1;
    forall i | first <= i < first + |done| ensures !Breaks(calls[i].reply) {
      assert calls[first + (i - first)].reply == Text(done[i - first].version);
    }
  }

  lemma LoopExplains(end: LoopEnd, honored: seq<string>, done: seq<Read>, count: nat, w: World, o: Options)
    requires o.until.Condition? && Connected(o, w.calls) && UrisAt(w.calls, ListenCall(o)) == Some(honored) && o.uri in honored
    requires LoopCalls(end, done, w.calls, ListenCall(o) + 1) && end.Stopped?
    requires end.errorCode.Some? ==> end.errorCode.value in {NotificationTimeout, SubscriptionDisconnected, ErrorCode.SubscriptionClosed}
    ensures CallsExplain(Returned(Result(true, honored, w.closeReason, end.errorCode, count, end.matched)), Some(honored), done, w, o)
  {
    NothingBroke(end, done, w.calls, o);
  }

  /** A run whose loop ended as `end`, and that then closed the subscription. */
  lemma LoopPromises(
      end: LoopEnd, honored: seq<string>, events: seq<Event>, done: seq<Read>, q: Queue, w: World,
      q': Queue, w': World, start: World, o: Options)
    requires o.until.Condition? && Extends(start, w) && LoopKeeps(end, honored, events, done, q, w, Deadline(start, o), o)
    requires Extends(w, w') && Agree(q', w') && q'.receivedCount == q.receivedCount && end.Stopped? && o.uri in honored
    requires start.now < Deadline(start, o)
    requires CallsExplain(Returned(Result(true, honored, w'.closeReason, end.errorCode, q'.receivedCount, end.matched)),
                          Some(honored), done, w', o)
    ensures Promises(Run(Returned(Result(true, honored, w'.closeReason, end.errorCode, q'.receivedCount, end.matched)),
                         events, Some(honored), done, w.now, w'), start, o)
  {
    ExtendsTwice(start, w, w');
    ReadsExtend(done, w, w');
    if done != [] {
      CoalescedCounts(done, o);
      SnapshotShows(o.until, done[|done| - 1].text, o.parse);
    }
  }

  /** A run whose loop did not decide anything. */
  lemma UndecidedPromises(
      ending: Ending, end: LoopEnd, honored: seq<string>, events: seq<Event>, done: seq<Read>, q: Queue, w: World, w': World,
      start: World, o: Options)
    requires o.until.Condition? && Extends(start, w) && LoopKeeps(end, honored, events, done, q, w, Deadline(start, o), o)
    requires Extends(w, w') && w'.calls == w.calls && UrisAt(w.calls, ListenCall(o)) == Some(honored)
    requires start.now < Deadline(start, o)
    requires match ending
             case Parked => end.StillParked? && w' == w
             case Unfinished => w'.script == [] && !end.StillParked?
             case Threw => end.Failed?
             case Returned(_) => false
    ensures Promises(Run(ending, events, Some(honored), done, w.now, w'), start, o)
  {
    ExtendsTwice(start, w, w');
    ReadsExtend(done, w, w');
  }

  /** `listening`: whether the notification handler is still registered in the end. */
  method RunResourceStream(o: Options, start: World) returns (run: Run, listening: bool)
    requires o.until.Condition? && Fresh(start) && start.calls == []
    ensures Promises(run, start, o)
    ensures run.ending.Returned? || run.ending.Threw? ==> !listening
  {
    var deadline := Deadline(start, o);
    var w := start;
    if deadline - w.now <= 0 {
      EarlyEnd(Returned(Refused(NotificationTimeout, None, None)), None, w.now, w, start, o);
      return Run(Returned(Refused(NotificationTimeout, None, None)), [], None, [], w.now, w), false;
    }
    var refusal: Option<Ending>;
    refusal, w := Connect(o, start, deadline);
    if refusal.Some? {
      return Run(refusal.value, [], None, [], w.now, w), false;
    }
    // The handler is registered before listen, so that nothing after the ack is missed.
    var queue := new ResourceUpdateQueue(o.uri);
    NewQueueAgrees(o.uri, w);
    var reply: Option<Reply>;
    ghost var connected := w;
    w, reply := Await(queue, w, Some(deadline), false);
    ExtendsTwice(start, connected, w);
    if reply.None? {
      EarlyEnd(Unfinished, None, w.now, w, start, o);
      return Run(Unfinished, [], None, [], w.now, w), queue.listening;
    }
    if !reply.value.Uris? {
      queue.Cancel();
      EarlyEnd(Returned(Refused(SubscriptionFailed, None, None)), None, w.now, w, start, o);
      return Run(Returned(Refused(SubscriptionFailed, None, None)), [], None, [], w.now, w), queue.listening;
    }
    run := Listen(queue, w, reply.value.uris, deadline, o, start);
    listening := queue.listening;
  }

  /** Connecting and listing; an ending if the run goes no further. */
  method Connect(o: Options, start: World, deadline: int) returns (refusal: Option<Ending>, w: World)
    requires o.until.Condition? && Fresh(start) && start.calls == [] && start.now < deadline == Deadline(start, o)
    ensures Fresh(w) && Extends(start, w) && w.now <= deadline
    ensures refusal.None? ==> Connected(o, w.calls) && |w.calls| == ListenCall(o)
    ensures refusal.Some? ==> Promises(Run(refusal.value, [], None, [], w.now, w), start, o)
  {
    var reply: Option<Reply>;
    w, reply := AwaitCall(start, Some(deadline), false);
    if reply.Some? && reply.value.Uris? && !o.skipResourceListCheck {
      ghost var connected := w;
      w, reply := AwaitCall(w, Some(deadline), false);
      ExtendsTwice(start, connected, w);
      if reply.Some? && reply.value.Uris? && o.uri !in reply.value.uris {
        refusal := Some(Returned(Refused(ResourceNotFound, None, None)));
        EarlyEnd(refusal.value, None, w.now, w, start, o);
        return;
      }
    }
    match reply {
      case None => refusal := Some(Unfinished);
      case Some(TimesOut) => refusal := Some(Returned(Refused(NotificationTimeout, None, None)));
      case Some(Uris(_)) => return None, w;
      case _ => refusal := Some(Threw);
    }
    EarlyEnd(refusal.value, None, w.now, w, start, o);
  }

  /** From the acknowledgement on. */
  method Listen(
      queue: ResourceUpdateQueue, acknowledged: World, honored: seq<string>, deadline: int, o: Options, ghost start: World)
    returns (run: Run)
    requires o.until.Condition? && start.now < deadline == Deadline(start, o) && Extends(start, acknowledged) && acknowledged.now <= deadline
    requires Connected(o, acknowledged.calls) && |acknowledged.calls| == ListenCall(o) + 1
    requires acknowledged.calls[ListenCall(o)].reply == Uris(honored)
    requires Agree(queue.View(), acknowledged) && queue.pending.None? && queue.listening && queue.uri == o.uri
    modifies queue
    ensures Promises(run, start, o)
    ensures run.ending.Returned? || run.ending.Threw? ==> !queue.listening
  {
    var closed: bool;
    var w := acknowledged;
    if o.uri !in honored {
      w, closed := AwaitClose(queue, w);
      queue.Cancel();
      ExtendsTwice(start, acknowledged, w);
      var ending := if closed then Returned(Refused(SubscriptionNotHonored, Some(honored), w.closeReason)) else Unfinished;
      EarlyEnd(ending, Some(honored), acknowledged.now, w, start, o);
      return Run(ending, [Ack(o.uri, honored)], Some(honored), [], acknowledged.now, w);
    }
    var end, events, done;
    end, events, done, w := ReadUntilMatched(queue, w, honored, deadline, o);
    ExtendsTwice(start, acknowledged, w);
    if end.StillParked? || end.Cut? {
      UndecidedPromises(if end.StillParked? then Parked else Unfinished, end, honored, events, done, queue.View(), w, w, start, o);
      return Run(if end.StillParked? then Parked else Unfinished, events, Some(honored), done, w.now, w);
    }
    run := Conclude(queue, w, end, honored, events, done, o, start);
  }

  /** Leaving the try block: cancel, close, and the result. */
  method Conclude(
      queue: ResourceUpdateQueue, decided: World, end: LoopEnd, honored: seq<string>, events: seq<Event>, done: seq<Read>,
      ghost o: Options, ghost start: World)
    returns (run: Run)
    requires o.until.Condition? && start.now < Deadline(start, o) && Extends(start, decided)
    requires (end.Stopped? || end.Failed?) && o.uri in honored
    requires LoopKeeps(end, honored, events, done, queue.View(), decided, Deadline(start, o), o)
    requires Connected(o, decided.calls) && UrisAt(decided.calls, ListenCall(o)) == Some(honored)
    modifies queue
    ensures Promises(run, start, o)
    ensures run.ending.Returned? || run.ending.Threw? ==> !queue.listening
  {
    ghost var q := queue.View();
    CancelAgrees(q, decided);
    queue.Cancel();
    var w, closed := AwaitClose(queue, decided);
    if !closed || end.Failed? {
      UndecidedPromises(if closed then Threw else Unfinished, end, honored, events, done, q, decided, w, start, o);
      return Run(if closed then Threw else Unfinished, events, Some(honored), done, decided.now, w);
    }
    LoopExplains(end, honored, done, queue.receivedCount, w, o);
    LoopPromises(end, honored, events, done, q, decided, queue.View(), w, start, o);
    return Run(Returned(Result(true, honored, w.closeReason, end.errorCode, queue.receivedCount, end.matched)),
               events, Some(honored), done, decided.now, w);
  }
}

/** The single-result client (runResourceSubscription in src/client/subscriptionClient.ts). */
module Subscriptions {
  import opened Common
  import opened UpdateQueues
  import opened Sessions

  /** `shouldWait` is shouldWaitForNextUpdate: whether a text says POLL_AFTER. */
  datatype Options = Options(
    uri: string, timeoutMs: Option<int>, skipResourceListCheck: bool, shouldWait: string -> bool)

  const DEFAULT_TIMEOUT_MS := 15000

  datatype Route = BySubscription | PreCompletion | ByTimeout

  datatype Result = Result(
    resourceFound: bool, initialText: string, notificationUri: string, finalText: string, notificationCount: nat,
    route: Route, listenAcknowledged: bool, honoredUris: seq<string>, closeReason: Option<CloseReason>,
    errorCode: Option<ErrorCode>)

  datatype Ending = Returned(result: Result) | Threw | Parked | Unfinished

  /** What the run has done: its reads after the acknowledgement, its waits, and the variables it reports from. */
  datatype Progress = Progress(
    done: seq<Read>, waits: seq<WaitRecord>, sequence: nat, route: Route, notificationUri: string, finalText: string,
    errorCode: Option<ErrorCode>)

  datatype Run = Run(ending: Ending, initialText: string, progress: Option<Progress>, deadline: int, decidedAt: int, world: World)

  /** The calls a run makes: it connects, lists the resources unless told not to, reads, listens, and reads from then on. */
  function ListenCall(o: Options): nat {
    if o.skipResourceListCheck then 2 else 3
  }

  function Listing(o: Options, calls: seq<Call>): Option<seq<string>> {
    if o.skipResourceListCheck then None else UrisAt(calls, 1)
  }

  // ---- What a run's waits and reads say about its report ----

  /** How far the notifications were taken, starting from `first`. */
  function Position(first: nat, waits: seq<WaitRecord>): nat {
    if waits == [] then first else
    var last := waits[|waits| - 1];
    if last.outcome.Delivered? then last.outcome.event.sequence else Position(first, waits[..|waits| - 1])
  }

  /** Each wait goes on from the notification the one before it took, and takes the next one (the oldest still
      held when more than 100 arrived since); only the last wait can fail. */
  ghost predicate OneByOne(first: nat, waits: seq<WaitRecord>) {
    waits != [] ==>
      var before, last := waits[..|waits| - 1], waits[|waits| - 1];
      && OneByOne(first, before) && ErrorOf(before).None?
      && last.after == Position(first, before) && WellSettled(last)
  }

  ghost predicate WellSettled(r: WaitRecord) {
    match r.outcome
    case Delivered(event) => event.sequence == Max(r.after, r.receivedThen - CAPACITY) + 1
    case TimedOut => !Died(r.closedBy)
    case Failed(reason) => Died(r.closedBy) && r.closedBy == Some(reason)
  }

  lemma OneMore(first: nat, waits: seq<WaitRecord>, r: WaitRecord)
    requires OneByOne(first, waits) && ErrorOf(waits).None? && r.after == Position(first, waits) && WellSettled(r)
    ensures OneByOne(first, waits + [r]) && |waits + [r]| == |waits| + 1
    ensures ErrorOf(waits + [r]) == if r.outcome.Delivered? then None else Some(Classify(r.outcome))
    ensures Position(first, waits + [r]) == if r.outcome.Delivered? then r.outcome.event.sequence else r.after
  {
    assert (waits + [r])[..|waits|] == waits;
  }

  function ErrorOf(waits: seq<WaitRecord>): Option<ErrorCode> {
    if waits == [] || waits[|waits| - 1].outcome.Delivered? then None else Some(Classify(waits[|waits| - 1].outcome))
  }

  /** The text a run reports: the last it read, except that a first read equal to the initial text reports nothing. */
  function FinalText(done: seq<Read>, initialText: string): string
    requires done != []
  {
    if |done| == 1 && done[0].text == initialText then "" else done[|done| - 1].text
  }

  /** Between two steps of the run. */
  ghost predicate Sound(p: Progress, q: Queue, w: World, initialText: string, deadline: int, o: Options) {
    && Agree(q, w) && q.listening && q.uri == o.uri
    && p.done != [] && ReadsOf(p.done, w) && Covers(p.done[|p.done| - 1], w)
    && ReadsAnswered(p.done, w.calls, ListenCall(o) + 1) && |w.calls| == ListenCall(o) + 1 + |p.done|
    && OneByOne(p.done[0].issuedAfter, p.waits) && p.sequence == Position(p.done[0].issuedAfter, p.waits)
    && p.errorCode == ErrorOf(p.waits)
    && p.sequence <= p.done[|p.done| - 1].issuedAfter <= q.receivedCount
    && |p.done| == 1 + |p.waits| - (if p.errorCode.Some? then 1 else 0)
    && p.finalText == FinalText(p.done, initialText)
    // A wait begins as soon as the read before it has settled, and times out when the deadline comes, if it has not yet.
    && (p.errorCode.None? ==> w.now == w.calls[|w.calls| - 1].at)
    && (p.errorCode == Some(NotificationTimeout) ==> w.now == Max(deadline, w.calls[|w.calls| - 1].at))
    && (p.errorCode.Some? && p.errorCode != Some(NotificationTimeout) ==> Died(w.closeReason))
    && match p.route
       case BySubscription => p.notificationUri == o.uri && q.receivedCount > 0
       case PreCompletion =>
         && p.notificationUri == "" && |p.done| == 1 && p.waits == []
         && p.done[0].text != initialText && !o.shouldWait(p.finalText)
       case ByTimeout => p.notificationUri == "" && |p.done| == 1
  }

  /** The run is finished with its notifications. */
  ghost predicate Decided(p: Progress, o: Options) {
    p.errorCode.None? <==> p.route != ByTimeout && !o.shouldWait(p.finalText)
  }

  datatype TryEnd = Done | Broke | StillParked | Cut

  ghost predicate TryKeeps(end: TryEnd, p: Option<Progress>, q: Queue, w: World, initialText: string, deadline: int, o: Options) {
    && Agree(q, w) && q.listening && q.uri == o.uri
    && (q.pending.Some? <==> end.StillParked?)
    && match end
       case Done => p.Some? && Sound(p.value, q, w, initialText, deadline, o) && Decided(p.value, o)
       case Broke => |w.calls| > ListenCall(o) + 1 && Breaks(w.calls[|w.calls| - 1].reply)
       case StillParked => w.script == [] && p.Some? && NothingLost(p.value.done, w)
       case Cut => w.script == [] && (p.Some? ==> Busy(p.value, w, deadline))
  }

  /** The progress once a wait has settled. */
  function AfterWait(p: Progress, r: WaitRecord): Progress {
    match r.outcome
    case Delivered(event) =>
      p.(waits := p.waits + [r], sequence := event.sequence, notificationUri := event.uri, route := BySubscription)
    case _ => p.(waits := p.waits + [r], errorCode := Some(Classify(r.outcome)))
  }

  /** What a settled wait says, whatever the run makes of it. */
  lemma SettledWell(r: WaitRecord, q: Queue, w: World, q': Queue, w': World, deadline: int)
    requires Explains(r, q, w, q', w', Max(0, deadline - w.now))
    ensures WellSettled(r)
    ensures match r.outcome
            case Delivered(event) => event.uri == q.uri && 0 < event.sequence <= q'.receivedCount
            case Failed(reason) => Died(w'.closeReason) && Classify(r.outcome) != NotificationTimeout
            case TimedOut => w'.now == Max(deadline, w.now)
  {
  }

  lemma WaitTakes(p: Progress, q: Queue, w: World, r: WaitRecord, q': Queue, w': World, initialText: string, deadline: int, o: Options)
    requires Sound(p, q, w, initialText, deadline, o) && p.errorCode.None? && p.route != PreCompletion
    requires Agree(q', w') && Extends(w, w') && q'.listening && q'.uri == q.uri && q'.pending.None? && w'.calls == w.calls
    requires q.receivedCount <= q'.receivedCount && r.after == p.sequence && r.outcome.Delivered? && WellSettled(r)
    requires r.outcome.event.uri == q.uri && 0 < r.outcome.event.sequence <= q'.receivedCount
    ensures Taken(AfterWait(p, r), p, q', w', initialText, deadline, o)
  {
    ReadsExtend(p.done, w, w');
    OneMore(p.done[0].issuedAfter, p.waits, r);
  }

  lemma WaitFails(p: Progress, q: Queue, w: World, r: WaitRecord, q': Queue, w': World, initialText: string, deadline: int, o: Options)
    requires Sound(p, q, w, initialText, deadline, o) && p.errorCode.None? && p.route != PreCompletion
    requires Agree(q', w') && Extends(w, w') && q'.listening && q'.uri == q.uri && w'.calls == w.calls
    requires q.receivedCount <= q'.receivedCount && r.after == p.sequence && !r.outcome.Delivered? && WellSettled(r)
    requires if r.outcome.TimedOut? then w'.now == Max(deadline, w.now) else Died(w'.closeReason) && Classify(r.outcome) != NotificationTimeout
    ensures Sound(AfterWait(p, r), q', w', initialText, deadline, o)
  {
    ReadsExtend(p.done, w, w');
    OneMore(p.done[0].issuedAfter, p.waits, r);
    assert AfterWait(p, r) == p.(waits := p.waits + [r], errorCode := Some(Classify(r.outcome)));
  }

  /** Waits for the next notification. */
  method TakeNext(queue: ResourceUpdateQueue, before: World, p0: Progress, ghost initialText: string, deadline: int, ghost o: Options)
    returns (end: Option<TryEnd>, p: Progress, w: World)
    requires Sound(p0, queue.View(), before, initialText, deadline, o) && queue.pending.None? && p0.errorCode.None?
    requires p0.route != PreCompletion
    modifies queue
    ensures Extends(before, w)
    ensures end.Some? ==> end.value != Done && TryKeeps(end.value, Some(p), queue.View(), w, initialText, deadline, o)
    ensures end.None? && p.errorCode.Some? ==>
              queue.pending.None? && Sound(p, queue.View(), w, initialText, deadline, o) && p.route == p0.route && p.finalText == p0.finalText
    ensures end.None? && p.errorCode.None? ==> Taken(p, p0, queue.View(), w, initialText, deadline, o)
  {
    p, end := p0, None;
    var settled: Option<WaitRecord>;
    ghost var q := queue.View();
    w, settled := AwaitUpdate(queue, before, p0.sequence, Max(0, deadline - before.now));
    if settled.None? {
      ReadsExtend(p0.done, before, w);
      end := Some(if queue.pending.Some? then StillParked else Cut);
      return;
    }
    SettledWell(settled.value, q, before, queue.View(), w, deadline);
    if settled.value.outcome.Delivered? {
      WaitTakes(p0, q, before, settled.value, queue.View(), w, initialText, deadline, o);
    } else {
      WaitFails(p0, q, before, settled.value, queue.View(), w, initialText, deadline, o);
    }
    p := AfterWait(p0, settled.value);
  }

  /** A notification was taken, and the resource is to be read again. */
  ghost predicate Taken(p: Progress, p0: Progress, q: Queue, w: World, initialText: string, deadline: int, o: Options) {
    && Agree(q, w) && q.pending.None? && q.listening && q.uri == o.uri
    && p.done == p0.done != [] && ReadsOf(p.done, w)
    && ReadsAnswered(p.done, w.calls, ListenCall(o) + 1) && |w.calls| == ListenCall(o) + 1 + |p.done|
    && OneByOne(p.done[0].issuedAfter, p.waits) && p.sequence == Position(p.done[0].issuedAfter, p.waits) <= q.receivedCount
    && p.waits != [] && ErrorOf(p.waits).None? && p.errorCode.None? && |p.done| == |p.waits|
    && p.route == BySubscription && p.notificationUri == o.uri && q.receivedCount > 0
  }

  lemma ReadAdds(
      p: Progress, p0: Progress, q: Queue, w: World, q': Queue, w': World, version: nat,
      initialText: string, deadline: int, o: Options)
    requires Taken(p, p0, q, w, initialText, deadline, o)
    requires Agree(q', w') && Extends(w, w') && Quiet(q, q') && Current(w) <= version <= Current(w')
    requires w'.calls == w.calls + [Call(Text(version), w'.now)]
    ensures var r := Read(q.receivedCount, version, w'.contents[version]);
            Sound(p.(done := p.done + [r], finalText := r.text), q', w', initialText, deadline, o)
  {
    NewRead(p.done, q, w, w', version);
  }

  /** Reads the resource again. */
  method ReadAgain(
      queue: ResourceUpdateQueue, before: World, p0: Progress, ghost pw: Progress,
      ghost initialText: string, ghost deadline: int, ghost o: Options)
    returns (end: Option<TryEnd>, p: Progress, w: World)
    requires Taken(p0, pw, queue.View(), before, initialText, deadline, o)
    modifies queue
    ensures Extends(before, w) && queue.pending.None?
    ensures end.Some? ==> end.value != Done && TryKeeps(end.value, Some(p), queue.View(), w, initialText, deadline, o)
    ensures end.None? ==> |w.script| < |before.script|
    ensures end.None? ==> Sound(p, queue.View(), w, initialText, deadline, o) && p.errorCode.None? && p.route == BySubscription
  {
    p := p0;
    ghost var q := queue.View();
    var issuedAfter, reply := queue.receivedCount, None;
    w, reply := Await(queue, before, None, true);
    if reply.None? {
      end := Some(Cut);
    } else if !reply.value.Text? {
      end := Some(Broke);
    } else {
      ReadAdds(p0, pw, q, before, queue.View(), w, reply.value.version, initialText, deadline, o);
      var text := w.contents[reply.value.version];
      p := p.(done := p.done + [Read(issuedAfter, reply.value.version, text)], finalText := text);
      end := None;
    }
  }

  /** while (shouldWaitForNextUpdate(finalText) && !errorCode) */
  method WhilePolling(queue: ResourceUpdateQueue, start: World, p0: Progress, ghost initialText: string, deadline: int, o: Options)
    returns (end: TryEnd, p: Progress, w: World)
    requires Sound(p0, queue.View(), start, initialText, deadline, o) && queue.pending.None? && p0.errorCode.None?
    requires p0.route == ByTimeout ==> o.shouldWait(p0.finalText)
    modifies queue
    ensures Extends(start, w) && TryKeeps(end, Some(p), queue.View(), w, initialText, deadline, o)
  {
    p, w := p0, start;
    while o.shouldWait(p.finalText) && p.errorCode.None?
      invariant Extends(start, w) && queue.pending.None? && Sound(p, queue.View(), w, initialText, deadline, o)
      invariant p.route == ByTimeout ==> o.shouldWait(p.finalText)
      invariant p.errorCode.Some? ==> o.shouldWait(p.finalText)
      decreases |w.script|, p.errorCode.None?
    {
      var stop: Option<TryEnd>;
      ghost var p1, w1 := p, w;
      stop, p, w := TakeNext(queue, w, p, initialText, deadline, o);
      ExtendsTwice(start, w1, w);
      if stop.Some? {
        return stop.value, p, w;
      }
      if p.errorCode.Some? {
        break;
      }
      ghost var w2 := w;
      stop, p, w := ReadAgain(queue, w, p, p1, initialText, deadline, o);
      ExtendsTwice(start, w2, w);
      if stop.Some? {
        return stop.value, p, w;
      }
    }
    end := Done;
  }

  /** After the post-listen read, issued when `postSequence` notifications had been received. */
  function AfterPostListenRead(r: Read, initialText: string, receivedCount: nat, lastUri: string, o: Options): Progress {
    var p := Progress([r], [], r.issuedAfter, ByTimeout, "", "", None);
    if r.text == initialText then p
    else if receivedCount > r.issuedAfter then p.(finalText := r.text, route := BySubscription, notificationUri := lastUri)
    else if !o.shouldWait(r.text) then p.(finalText := r.text, route := PreCompletion)
    else p.(finalText := r.text)
  }

  lemma FirstRead(q: Queue, w: World, w': World, version: nat)
    requires Agree(q, w) && Extends(w, w') && Current(w) <= version <= Current(w')
    ensures var r := Read(q.receivedCount, version, w'.contents[version]);
            ReadsOf([r], w') && Covers(r, w')
  {
    NewRead([], q, w, w', version);
    assert [] + [Read(q.receivedCount, version, w'.contents[version])] == [Read(q.receivedCount, version, w'.contents[version])];
  }

  lemma StartsSound(r: Read, q: Queue, w: World, initialText: string, deadline: int, o: Options)
    requires Agree(q, w) && q.listening && q.uri == o.uri && r.issuedAfter <= q.receivedCount
    requires ReadsOf([r], w) && Covers(r, w)
    requires |w.calls| == ListenCall(o) + 2 && w.calls[ListenCall(o) + 1] == Call(Text(r.version), w.now)
    ensures Sound(AfterPostListenRead(r, initialText, q.receivedCount, q.lastUri, o), q, w, initialText, deadline, o)
  {
    var p := AfterPostListenRead(r, initialText, q.receivedCount, q.lastUri, o);
    assert p.done == [r] && p.waits == [] && p.errorCode == None == ErrorOf([]);
    assert Position(r.issuedAfter, []) == r.issuedAfter && OneByOne(r.issuedAfter, []);
  }

  /** The branch for a post-listen text equal to the initial one: only a notification can end the wait. */
  method AwaitFirstUpdate(queue: ResourceUpdateQueue, start: World, p0: Progress, ghost initialText: string, deadline: int, ghost o: Options)
    returns (end: Option<TryEnd>, p: Progress, w: World)
    requires Sound(p0, queue.View(), start, initialText, deadline, o) && queue.pending.None? && p0.errorCode.None?
    requires p0.route == ByTimeout
    modifies queue
    ensures Extends(start, w)
    ensures end.Some? ==> TryKeeps(end.value, Some(p), queue.View(), w, initialText, deadline, o)
    ensures end.None? ==>
              && queue.pending.None? && Sound(p, queue.View(), w, initialText, deadline, o)
              && p.errorCode.None? && p.route == BySubscription
  {
    end, p, w := TakeNext(queue, start, p0, initialText, deadline, o);
    if end.Some? {
      return;
    }
    if p.errorCode.Some? {
      end := Some(Done);
      return;
    }
    ghost var taken := w;
    end, p, w := ReadAgain(queue, w, p, p0, initialText, deadline, o);
    ExtendsTwice(start, taken, w);
  }

  /** The read issued right after the acknowledgement. */
  method ReadPostListen(queue: ResourceUpdateQueue, start: World, initialText: string, ghost deadline: int, o: Options)
    returns (end: TryEnd, progress: Option<Progress>, w: World)
    requires Agree(queue.View(), start) && queue.pending.None? && queue.listening && queue.uri == o.uri
    requires |start.calls| == ListenCall(o) + 1
    modifies queue
    ensures Extends(start, w) && queue.pending.None?
    ensures progress.None? ==> end != Done && TryKeeps(end, None, queue.View(), w, initialText, deadline, o)
    ensures progress.Some? ==> Sound(progress.value, queue.View(), w, initialText, deadline, o) && progress.value.errorCode.None?
    ensures progress.Some? && progress.value.done[0].text == initialText ==> progress.value.route == ByTimeout
    ensures progress.Some? && progress.value.route == ByTimeout ==>
              progress.value.done[0].text == initialText || o.shouldWait(progress.value.finalText)
  {
    var postListenReadAfterSequence, reply := queue.receivedCount, None;
    ghost var q := queue.View();
    w, reply := Await(queue, start, None, true);
    if reply.None? || !reply.value.Text? {
      return (if reply.None? then Cut else Broke), None, w;
    }
    var r := Read(postListenReadAfterSequence, reply.value.version, w.contents[reply.value.version]);
    FirstRead(q, start, w, r.version);
    StartsSound(r, queue.View(), w, initialText, deadline, o);
    return Done, Some(AfterPostListenRead(r, initialText, queue.receivedCount, queue.lastUri, o)), w;
  }

  /** Everything between the acknowledgement and cancel. */
  method Follow(queue: ResourceUpdateQueue, start: World, initialText: string, deadline: int, o: Options)
    returns (end: TryEnd, p: Option<Progress>, w: World)
    requires Agree(queue.View(), start) && queue.pending.None? && queue.listening && queue.uri == o.uri
    requires |start.calls| == ListenCall(o) + 1
    modifies queue
    ensures Extends(start, w) && TryKeeps(end, p, queue.View(), w, initialText, deadline, o)
  {
    end, p, w := ReadPostListen(queue, start, initialText, deadline, o);
    if p.None? {
      return;
    }
    var progress := p.value;
    ghost var read := w;
    if progress.done[0].text == initialText {
      var stop: Option<TryEnd>;
      stop, progress, w := AwaitFirstUpdate(queue, w, progress, initialText, deadline, o);
      ExtendsTwice(start, read, w);
      if stop.Some? {
        return stop.value, Some(progress), w;
      }
    }
    ghost var updated := w;
    end, progress, w := WhilePolling(queue, w, progress, initialText, deadline, o);
    ExtendsTwice(start, updated, w);
    p := Some(progress);
  }

  // ---- The run ----

  /** A result without a read after the acknowledgement. */
  function Refused(code: ErrorCode, found: bool, initialText: string, acked: Option<seq<string>>, closeReason: Option<CloseReason>): Result {
    Result(found, initialText, "", "", 0, ByTimeout, acked.Some?, if acked.Some? then acked.value else [], closeReason, Some(code))
  }

  /** What every run promises, whatever the outside world does. */
  ghost predicate Promises(run: Run, start: World, o: Options) {
    && Extends(start, run.world)
    && CallsExplain(run, o)
    && (run.ending.Parked? || run.ending.Unfinished? ==> run.world.script == [])
    && (run.ending.Parked? ==> run.progress.Some? && NothingLost(run.progress.value.done, run.world))
    // One that has nothing left to do but wait is parked.
    && (run.ending.Unfinished? && run.progress.Some? ==> Busy(run.progress.value, run.world, run.deadline))
    && (run.ending.Returned? ==> ResultAgrees(run.ending.result, run, o))
    && OnBudget(run.deadline, run.world.calls, o)
  }

  /** The budget, 15 seconds unless the caller says otherwise, runs from the first read on, and listening keeps to it. */
  ghost predicate OnBudget(deadline: int, calls: seq<Call>, o: Options) {
    var k := ListenCall(o);
    CallAt(calls, k - 1).Some? && CallAt(calls, k - 1).value.Text? ==>
      var budget := match o.timeoutMs case Some(ms) => ms case None => 15000;
      && deadline == calls[k - 1].at + budget
      && (|calls| > k ==> calls[k].at <= calls[k - 1].at + Max(0, budget))
  }

  /** A run that is following notifications and not parked is reading, or has something to go on with. */
  ghost predicate Busy(p: Progress, w: World, deadline: int) {
    |p.done| < 1 + |p.waits| || p.sequence < |w.notified| || Died(w.closeReason) || w.now >= deadline
  }

  /** What every call settled with decides how the run ends: it throws exactly for a call that broke, other than listen; each
      refusal has its cause; and it reports what was listed, read, acknowledged and closed. */
  ghost predicate CallsExplain(run: Run, o: Options) {
    var w, k, n := run.world, ListenCall(o), |run.world.calls|;
    var acked := UrisAt(w.calls, k);
    match run.ending
    case Threw => n > 0 && n - 1 != k && (Breaks(w.calls[n - 1].reply) || w.calls[n - 1].reply.TimesOut?)
    case Returned(r) =>
      && (forall i :: 0 <= i < n && i != k ==> !Breaks(w.calls[i].reply))
      && (r.errorCode == Some(ResourceNotFound) <==> Listing(o, w.calls).Some? && o.uri !in Listing(o, w.calls).value)
      && (r.errorCode == Some(SubscriptionFailed) <==> NoUrisAt(w.calls, k))
      && (r.errorCode == Some(SubscriptionNotHonored) <==> acked.Some? && o.uri !in acked.value)
      && (run.progress.Some? <==> acked.Some? && o.uri in acked.value)
      && (run.progress.Some? ==> ReadsAnswered(run.progress.value.done, w.calls, k + 1) && n == k + 1 + |run.progress.value.done|)
      && r.resourceFound == (r.errorCode != Some(ResourceNotFound))
      && r.listenAcknowledged == acked.Some? && r.honoredUris == (if acked.Some? then acked.value else [])
      && r.closeReason == w.closeReason
      && r.initialText == (match CallAt(w.calls, k - 1) case Some(Text(version)) => TextAt(w, version) case _ => "")
    case _ => true
  }

  function TextAt(w: World, version: nat): string {
    if version < |w.contents| then w.contents[version] else ""
  }

  /** The calls before listen succeeded: the listing, if there was one, names the resource, and the read gave the initial text. */
  ghost predicate Began(o: Options, w: World, initialText: string) {
    var k := ListenCall(o);
    && |w.calls| >= k && (forall i :: 0 <= i < k - 1 ==> w.calls[i].reply.Uris?)
    && (Listing(o, w.calls).Some? ==> o.uri in Listing(o, w.calls).value)
    && w.calls[k - 1].reply.Text? && w.calls[k - 1].reply.version < |w.contents|
    && initialText == w.contents[w.calls[k - 1].reply.version]
  }

  ghost predicate ResultAgrees(r: Result, run: Run, o: Options) {
    // No error exactly when something final was seen.
    && (r.errorCode.None? <==> r.route != ByTimeout && !o.shouldWait(r.finalText))
    && (r.route.PreCompletion? ==> r.notificationUri == "" && r.finalText != r.initialText && r.errorCode.None?)
    && (r.route.BySubscription? ==> r.notificationUri == o.uri && r.notificationCount > 0)
    && (r.route.ByTimeout? ==> r.notificationUri == "")
    && r.initialText == run.initialText
    && (if run.progress.Some? then
          |run.world.calls| > ListenCall(o) + |run.progress.value.done| && ReportsProgress(r, run.progress.value, run, o)
        else r.errorCode in {Some(ResourceNotFound), Some(SubscriptionFailed), Some(SubscriptionNotHonored)}
             && r.finalText == "" && r.notificationCount == 0)
  }

  /** The report of a run that read after the acknowledgement. */
  ghost predicate ReportsProgress(r: Result, p: Progress, run: Run, o: Options)
    requires |run.world.calls| > ListenCall(o) + |p.done|
  {
    && p.done != [] && ReadsOf(p.done, run.world) && Covers(p.done[|p.done| - 1], run.world)
    && r.finalText == FinalText(p.done, r.initialText)
    && OneByOne(p.done[0].issuedAfter, p.waits) && r.errorCode == ErrorOf(p.waits)
    && Position(p.done[0].issuedAfter, p.waits) <= p.done[|p.done| - 1].issuedAfter
    && |p.done| == 1 + |p.waits| - (if r.errorCode.Some? then 1 else 0)
    && r.notificationCount == |run.world.notified|
    && (r.errorCode == Some(NotificationTimeout) ==>
          run.decidedAt == Max(run.deadline, run.world.calls[ListenCall(o) + |p.done|].at))
  }

  /** A run whose stream had died when its failing wait settled is told as such, never as a timeout. */
  lemma DeadStreamIsNotATimeout(run: Run, start: World, o: Options)
    requires Promises(run, start, o) && run.ending.Returned? && run.progress.Some? && run.ending.result.errorCode.Some?
    ensures var failing := run.progress.value.waits[|run.progress.value.waits| - 1];
            var code := run.ending.result.errorCode.value;
            && (code == NotificationTimeout <==> !Died(failing.closedBy))
            && (code == SubscriptionDisconnected <==> failing.closedBy == Some(Remote))
            && (code == ErrorCode.SubscriptionClosed <==> failing.closedBy == Some(Graceful))
  {
  }

  /** `listening`: whether the notification handler is still registered in the end. */
  method RunResourceSubscription(o: Options, start: World) returns (run: Run, listening: bool)
    requires Fresh(start) && start.calls == []
    ensures Promises(run, start, o)
    ensures run.ending.Returned? || run.ending.Threw? ==> !listening
  {
    var early: Option<Ending>, initialText, w;
    early, initialText, w := ReadInitially(o, start);
    if early.Some? {
      return Run(early.value, initialText, None, w.now, w.now, w), false;
    }
    var queue := new ResourceUpdateQueue(o.uri);
    NewQueueAgrees(o.uri, w);
    var timeoutMs := if o.timeoutMs.Some? then o.timeoutMs.value else DEFAULT_TIMEOUT_MS;
    var deadline := w.now + timeoutMs;
    var reply: Option<Reply>;
    ghost var connected := w;
    w, reply := Await(queue, w, Some(w.now + Max(0, timeoutMs)), false);
    ExtendsTwice(start, connected, w);
    if reply.None? {
      return Run(Unfinished, initialText, None, deadline, w.now, w), queue.listening;
    }
    if !reply.value.Uris? {
      queue.Cancel();
      return Run(Returned(Refused(SubscriptionFailed, true, initialText, None, None)), initialText, None, deadline, w.now, w), queue.listening;
    }
    run := Listen(queue, w, initialText, reply.value.uris, deadline, o, start);
    listening := queue.listening;
  }

  /** Connecting, listing and the first read; none of them has a deadline. */
  method ReadInitially(o: Options, start: World) returns (early: Option<Ending>, initialText: string, w: World)
    requires Fresh(start) && start.calls == []
    ensures Fresh(w) && Extends(start, w)
    ensures early.None? ==> Began(o, w, initialText) && |w.calls| == ListenCall(o) && w.calls[ListenCall(o) - 1].at == w.now
    ensures early.Some? ==> Promises(Run(early.value, initialText, None, w.now, w.now, w), start, o)
  {
    var reply: Option<Reply>;
    initialText := "";
    w, reply := AwaitCall(start, None, false);
    if reply.Some? && reply.value.Uris? && !o.skipResourceListCheck {
      ghost var connected := w;
      w, reply := AwaitCall(w, None, false);
      ExtendsTwice(start, connected, w);
      if reply.Some? && reply.value.Uris? && o.uri !in reply.value.uris {
        return Some(Returned(Refused(ResourceNotFound, false, "", None, None))), "", w;
      }
    }
    if reply.Some? && reply.value.Uris? {
      ghost var listed := w;
      w, reply := AwaitCall(w, None, true);
      ExtendsTwice(start, listed, w);
      if reply.Some? && reply.value.Text? {
        return None, w.contents[reply.value.version], w;
      }
    }
    early := Some(if reply.None? then Unfinished else Threw);
  }

  lemma BeganStays(o: Options, w: World, w': World, initialText: string)
    requires Began(o, w, initialText) && Extends(w, w')
    ensures Began(o, w', initialText)
  {
    var read := w.calls[ListenCall(o) - 1].reply;
    assert w'.contents[read.version] == w'.contents[..|w.contents|][read.version];
  }

  lemma NothingBroke(p: Progress, w: World, initialText: string, o: Options)
    requires Began(o, w, initialText) && ReadsAnswered(p.done, w.calls, ListenCall(o) + 1) && |w.calls| == ListenCall(o) + 1 + |p.done|
    ensures forall i :: 0 <= i < |w.calls| && i != ListenCall(o) ==> !Breaks(w.calls[i].reply)
  {
    var first := ListenCall(o) + 1;
    forall i | first <= i < |w.calls| ensures !Breaks(w.calls[i].reply) {
      assert w.calls[first + (i - first)].reply == Text(p.done[i - first].version);
    }
  }

  function Reported(p: Progress, initialText: string, notificationCount: nat, honored: seq<string>, closeReason: Option<CloseReason>): Result {
    Result(true, initialText, p.notificationUri, p.finalText, notificationCount, p.route, true, honored, closeReason, p.errorCode)
  }

  /** A run that is done with its notifications and has closed the subscription: its calls, ... */
  lemma FollowedExplains(p: Progress, count: nat, w: World, initialText: string, honored: seq<string>, deadline: int, decidedAt: int, o: Options)
    requires Began(o, w, initialText) && UrisAt(w.calls, ListenCall(o)) == Some(honored) && o.uri in honored
    requires ReadsAnswered(p.done, w.calls, ListenCall(o) + 1) && |w.calls| == ListenCall(o) + 1 + |p.done|
    requires p.errorCode.Some? ==> p.errorCode.value in {NotificationTimeout, SubscriptionDisconnected, ErrorCode.SubscriptionClosed}
    ensures CallsExplain(Run(Returned(Reported(p, initialText, count, honored, w.closeReason)), initialText, Some(p), deadline, decidedAt, w), o)
  {
    NothingBroke(p, w, initialText, o);
  }

  lemma ErrorsOfWaits(waits: seq<WaitRecord>)
    ensures ErrorOf(waits).Some? ==> ErrorOf(waits).value in {NotificationTimeout, SubscriptionDisconnected, ErrorCode.SubscriptionClosed}
  {
  }

  /** ... what it reports, ... */
  lemma FollowedAgrees(
      p: Progress, q: Queue, decided: World, q': Queue, w: World, initialText: string, honored: seq<string>, deadline: int, o: Options)
    requires TryKeeps(Done, Some(p), q, decided, initialText, deadline, o)
    requires Extends(decided, w) && w.calls == decided.calls && Agree(q', w) && q'.receivedCount == q.receivedCount
    ensures var r := Reported(p, initialText, q'.receivedCount, honored, w.closeReason);
            ResultAgrees(r, Run(Returned(r), initialText, Some(p), deadline, decided.now, w), o)
  {
    ReadsExtend(p.done, decided, w);
  }

  /** ... and all it promises. */
  lemma FollowedPromises(
      p: Progress, decided: World, count: nat, w: World, initialText: string, honored: seq<string>, deadline: int, o: Options,
      start: World)
    requires OnBudget(deadline, w.calls, o) && Extends(start, decided) && Extends(decided, w)
    requires var run := Run(Returned(Reported(p, initialText, count, honored, w.closeReason)), initialText, Some(p), deadline, decided.now, w);
             CallsExplain(run, o) && ResultAgrees(run.ending.result, run, o)
    ensures Promises(Run(Returned(Reported(p, initialText, count, honored, w.closeReason)), initialText, Some(p),
                         deadline, decided.now, w), start, o)
  {
    ExtendsTwice(start, decided, w);
  }

  /** A run that was acknowledged without its resource, and has closed the subscription. */
  lemma NotHonoredPromises(acknowledged: World, w: World, initialText: string, honored: seq<string>, deadline: int, o: Options, start: World)
    requires Began(o, acknowledged, initialText) && |acknowledged.calls| == ListenCall(o) + 1
    requires OnBudget(deadline, acknowledged.calls, o)
    requires acknowledged.calls[ListenCall(o)].reply == Uris(honored) && o.uri !in honored
    requires Extends(start, acknowledged) && Extends(acknowledged, w) && w.calls == acknowledged.calls
    ensures var refused := Refused(SubscriptionNotHonored, true, initialText, Some(honored), w.closeReason);
            Promises(Run(Returned(refused), initialText, None, deadline, acknowledged.now, w), start, o)
  {
    ExtendsTwice(start, acknowledged, w);
    BeganStays(o, acknowledged, w, initialText);
  }

  method Listen(
      queue: ResourceUpdateQueue, acknowledged: World, initialText: string, honored: seq<string>, deadline: int, o: Options, ghost start: World)
    returns (run: Run)
    requires Extends(start, acknowledged) && Agree(queue.View(), acknowledged)
    requires Began(o, acknowledged, initialText) && |acknowledged.calls| == ListenCall(o) + 1
    requires OnBudget(deadline, acknowledged.calls, o)
    requires acknowledged.calls[ListenCall(o)].reply == Uris(honored)
    requires queue.pending.None? && queue.listening && queue.uri == o.uri
    modifies queue
    ensures Promises(run, start, o)
    ensures run.ending.Returned? || run.ending.Threw? ==> !queue.listening
  {
    var w, closed := acknowledged, false;
    if o.uri !in honored {
      w, closed := AwaitClose(queue, w);
      queue.Cancel();
      ExtendsTwice(start, acknowledged, w);
      NotHonoredPromises(acknowledged, w, initialText, honored, deadline, o, start);
      var refused := Refused(SubscriptionNotHonored, true, initialText, Some(honored), w.closeReason);
      return Run(if closed then Returned(refused) else Unfinished, initialText, None, deadline, acknowledged.now, w);
    }
    var end, p;
    end, p, w := Follow(queue, w, initialText, deadline, o);
    ExtendsTwice(start, acknowledged, w);
    if end.StillParked? || end.Cut? {
      return Run(if end.StillParked? then Parked else Unfinished, initialText, p, deadline, w.now, w);
    }
    BeganStays(o, acknowledged, w, initialText);
    run := Conclude(queue, w, end, p, initialText, honored, deadline, o, start);
  }

  /** Leaving the try block: cancel, close, and the result. */
  method Conclude(
      queue: ResourceUpdateQueue, decided: World, end: TryEnd, p: Option<Progress>, initialText: string, honored: seq<string>,
      deadline: int, ghost o: Options, ghost start: World)
    returns (run: Run)
    requires (end.Done? || end.Broke?) && TryKeeps(end, p, queue.View(), decided, initialText, deadline, o)
    requires Extends(start, decided) && Began(o, decided, initialText) && OnBudget(deadline, decided.calls, o)
    requires UrisAt(decided.calls, ListenCall(o)) == Some(honored) && o.uri in honored
    modifies queue
    ensures Promises(run, start, o)
    ensures run.ending.Returned? || run.ending.Threw? ==> !queue.listening
  {
    ghost var q := queue.View();
    CancelAgrees(q, decided);
    queue.Cancel();
    var w, closed := AwaitClose(queue, decided);
    ExtendsTwice(start, decided, w);
    if !closed || end.Broke? {
      return Run(if closed then Threw else Unfinished, initialText, None, deadline, decided.now, w);
    }
    BeganStays(o, decided, w, initialText);
    ErrorsOfWaits(p.value.waits);
    FollowedExplains(p.value, queue.receivedCount, w, initialText, honored, deadline, decided.now, o);
    FollowedAgrees(p.value, q, decided, queue.View(), w, initialText, honored, deadline, o);
    FollowedPromises(p.value, decided, queue.receivedCount, w, initialText, honored, deadline, o, start);
    return Run(Returned(Reported(p.value, initialText, queue.receivedCount, honored, w.closeReason)), initialText, p, deadline, decided.now, w);
  }
}

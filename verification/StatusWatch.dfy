/** The status watcher's loop (src/client/statusWatch.ts) on a virtual clock: time moves only while
    the program sleeps or reads, and a sleep ends on time. */
module StatusWatch {
  import opened Common
  import opened Digits
  import opened PreciseTimes
  import opened StatusModel
  import opened WatchTransducer

  datatype FileOutcome = Missing | Failed | Contents(raw: Option<Json>)

  /** One call of readFile. `Contents(None)` is a file JSON.parse rejects. */
  datatype Attempt = Hangs | Takes(ms: nat, outcome: FileOutcome)

  /** What attempt a (from 1) of poll k (from 0) meets: every behaviour of the file is some function of this type. */
  type Disk = (nat, nat) -> Attempt

  datatype Bounded = TimedOut | InTime(result: ReadResult)

  datatype ReadEnd = ReadEnd(at: int, attempts: nat, bounded: Bounded)

  const READ_ATTEMPTS := 3
  const READ_RETRY_DELAY_MS := 200

  /** What an attempt's outcome amounts to; None when it is worth reading again. */
  function Verdict(outcome: FileOutcome, o: Options, host: Host): Option<ReadResult> {
    match outcome
    case Missing => Some(Unobservable(NoFile))
    case Failed => None
    case Contents(raw) =>
      match ParseStatusDocument(raw, host)
      case UnsupportedSchema(_) => Some(Unobservable(UnsupportedSchemaVersion))
      case Invalid => None
      case Ok(d) => Some(Readable(ToMs(Parse(Str(d.updatedAt), host).value), Observe(d, o.key, o.after, host)))
  }

  type Judge = FileOutcome -> Option<ReadResult>

  function JudgeFor(o: Options, host: Host): Judge {
    (outcome: FileOutcome) => Verdict(outcome, o, host)
  }

  /** The race of reading (from attempt `attempt` at time `now`) against the deadline. */
  function ReadFrom(disk: Disk, k: nat, attempt: nat, now: int, deadline: int, judge: Judge): ReadEnd
    requires 1 <= attempt <= READ_ATTEMPTS
    decreases READ_ATTEMPTS - attempt
  {
    match disk(k, attempt)
    case Hangs => ReadEnd(deadline, attempt, TimedOut)
    case Takes(ms, outcome) =>
      if now + ms > deadline then ReadEnd(deadline, attempt, TimedOut) else
      match judge(outcome)
      case Some(result) => ReadEnd(now + ms, attempt, InTime(result))
      case None =>
        if attempt == READ_ATTEMPTS then ReadEnd(now + ms, attempt, InTime(Unobservable(Unreadable)))
        else if now + ms + READ_RETRY_DELAY_MS >= deadline then ReadEnd(deadline, attempt, TimedOut)
        else ReadFrom(disk, k, attempt + 1, now + ms + READ_RETRY_DELAY_MS, deadline, judge)
  }

  /** Poll k when it starts at `startedAt`: a result that is there at the deadline is not accepted. */
  function PollOf(disk: Disk, k: nat, startedAt: int, deadline: int, o: Options, host: Host): Poll {
    var e := ReadFrom(disk, k, 1, startedAt, deadline, JudgeFor(o, host));
    Poll(startedAt, e.at, e.attempts, if e.bounded.InTime? && e.at < deadline then Some(e.bounded.result) else None)
  }

  class StatusWatch {
    const options: Options
    const disk: Disk
    const judge: Judge
    const startedAt: int
    const deadline: int
    var now: int
    var lines: seq<Line>
    var lastEmitAt: int
    var previousFingerprint: Option<Observation>
    var unobservableReason: Option<Reason>
    var notReceivedReported: bool
    var lastState: string

    ghost function View(): Output
      reads this
    {
      Output(Memory(lastEmitAt, previousFingerprint, unobservableReason, notReceivedReported, lastState), lines, None)
    }

    constructor (o: Options, startedAt: int, disk: Disk, host: Host)
      ensures View() == Initial(startedAt) && now == this.startedAt == startedAt
      ensures deadline == Deadline(startedAt, o)
      ensures options == o && this.disk == disk && judge == JudgeFor(o, host)
    {
      options, judge, this.disk := o, JudgeFor(o, host), disk;
      this.startedAt, deadline, now, lastEmitAt := startedAt, startedAt + o.timeoutMs, startedAt, startedAt;
      lines, previousFingerprint, unobservableReason := [], None, None;
      notReceivedReported, lastState := false, "none";
    }

    method Emit(body: Body)
      modifies `lines, `lastEmitAt
      ensures View() == WatchTransducer.Emit(old(View()), now, body)
    {
      lines := lines + [Line(now, body)];
      lastEmitAt := now;
    }

    /** Waits for work that would take `ms`; false when the watchdog, due at the deadline, is first. */
    method Wait(ms: nat, watchdogWinsTie: bool) returns (finished: bool)
      requires now <= deadline
      modifies `now
      ensures finished <==> now == old(now) + ms && (old(now) + ms < deadline || (old(now) + ms == deadline && !watchdogWinsTie))
      ensures !finished ==> now == deadline && old(now) + ms >= deadline && (!watchdogWinsTie ==> old(now) + ms > deadline)
    {
      if now + ms > deadline || (watchdogWinsTie && now + ms == deadline) {
        now := deadline;
        return false;
      }
      now := now + ms;
      return true;
    }

    /** One attempt and, if it is worth another, the sleep before it; None when there is another. */
    method ReadOnce(k: nat, attempt: nat) returns (end: Option<Bounded>)
      requires 1 <= attempt <= READ_ATTEMPTS && now < deadline
      modifies `now
      ensures end.Some? ==> ReadEnd(now, attempt, end.value) == ReadFrom(disk, k, attempt, old(now), deadline, judge)
      ensures end.None? ==>
                && attempt < READ_ATTEMPTS && now < deadline
                && ReadFrom(disk, k, attempt + 1, now, deadline, judge) == ReadFrom(disk, k, attempt, old(now), deadline, judge)
    {
      var found := disk(k, attempt);
      if found.Hangs? {
        now := deadline;
        return Some(TimedOut);
      }
      var finished := Wait(found.ms, false);
      if !finished {
        return Some(TimedOut);
      }
      var verdict := judge(found.outcome);
      if verdict.Some? {
        return Some(InTime(verdict.value));
      }
      if attempt == READ_ATTEMPTS {
        return Some(InTime(Unobservable(Unreadable)));
      }
      finished := Wait(Min(READ_RETRY_DELAY_MS, Max(deadline - now, 0)), true);
      end := if finished then None else Some(TimedOut);
    }

    /** withinDeadline(read): reads up to three times, and gives up at the deadline whatever the file does. */
    method Read(k: nat) returns (bounded: Bounded, attempts: nat)
      requires now < deadline
      modifies `now
      ensures ReadEnd(now, attempts, bounded) == ReadFrom(disk, k, 1, old(now), deadline, judge)
    {
      attempts := 1;
      ghost var expected := ReadFrom(disk, k, 1, now, deadline, judge);
      while true
        invariant 1 <= attempts <= READ_ATTEMPTS && now < deadline
        invariant ReadFrom(disk, k, attempts, now, deadline, judge) == expected
        decreases READ_ATTEMPTS - attempts
      {
        var end := ReadOnce(k, attempts);
        if end.Some? {
          return end.value, attempts;
        }
        attempts := attempts + 1;
      }
    }

    method HandleObservation(observation: Observation) returns (exit: Option<int>)
      modifies `lines, `lastEmitAt, `previousFingerprint, `notReceivedReported, `lastState
      ensures View().(exit := exit) == WatchTransducer.HandleObservation(old(View()), now, observation, startedAt, options)
    {
      if observation.NoEntry? {
        var waitedMs := now - startedAt;
        if !notReceivedReported && waitedMs >= options.notReceivedMs {
          Emit(NotReceived(waitedMs, observation.previousRound));
          notReceivedReported := true;
        }
        return None;
      }
      if previousFingerprint == Some(observation) {
        return None;
      }
      previousFingerprint := Some(observation);
      lastState := if observation.Finished? then "finished" else observation.state;
      if observation.Finished? {
        Emit(StateLine(observation));
        return Some(if observation.outcome == Some("completed") && observation.exitCode in {None, Some(0)}
                    then EXIT_COMPLETED else EXIT_FAILED);
      }
      Emit(StateLine(observation));
      if observation.state == "waiting" && observation.holdReason == Some("manual") {
        Emit(ActionRequired);
        return Some(EXIT_ACTION_REQUIRED);
      }
      return None;
    }

    method ReportTimeout() returns (exit: int)
      modifies `lines, `lastEmitAt
      ensures exit == EXIT_TIMEOUT
      ensures View() == WatchTransducer.Emit(old(View()), now, Timeout(now - startedAt))
    {
      Emit(Timeout(now - startedAt));
      return EXIT_TIMEOUT;
    }

    /** Acts on a result; None when the watch goes on. */
    method Process(result: ReadResult) returns (exit: Option<int>)
      modifies `lines, `lastEmitAt, `previousFingerprint, `unobservableReason, `notReceivedReported, `lastState
      ensures View().(exit := exit) == React(old(View()), now, result, startedAt, options)
    {
      var reason: Option<Reason>, ageMs: Option<int> := None, None;
      if result.Unobservable? {
        reason := Some(result.reason);
      } else {
        ageMs := Some(now - result.updatedAtMs);
        if ageMs.value > options.staleMs {
          reason := Some(Stale);
        }
      }
      if reason.Some? {
        if reason != unobservableReason {
          Emit(UnobservableLine(reason.value, ageMs));
          unobservableReason := reason;
        }
      } else {
        if unobservableReason.Some? {
          Emit(Recovered);
          unobservableReason := None;
        }
        exit := HandleObservation(result.observation);
        if exit.Some? {
          return;
        }
      }
      if now - lastEmitAt >= options.heartbeatMs {
        Emit(Heartbeat(if unobservableReason.Some? then "unobservable" else lastState, now - startedAt));
      }
      return None;
    }
  }

  /** Each poll is what the disk makes of a poll that starts when it does. */
  ghost predicate Faithful(polls: seq<Poll>, disk: Disk, startedAt: int, o: Options, host: Host) {
    polls != [] ==>
      var k := |polls| - 1;
      && Faithful(polls[..k], disk, startedAt, o, host)
      && polls[k] == PollOf(disk, k, polls[k].startedAt, Deadline(startedAt, o), o, host)
  }

  lemma {:induction false} FaithfulAt(polls: seq<Poll>, k: nat, disk: Disk, startedAt: int, o: Options, host: Host)
    requires Faithful(polls, disk, startedAt, o, host) && k < |polls|
    ensures polls[k] == PollOf(disk, k, polls[k].startedAt, Deadline(startedAt, o), o, host)
  {
    if k == |polls| - 1 {
    } else {
      FaithfulAt(polls[..|polls| - 1], k, disk, startedAt, o, host);
    }
  }

  /** The state at the top of the loop: `now` is when the next poll is due. */
  ghost predicate Going(r: Output, now: int, polls: seq<Poll>, disk: Disk, startedAt: int, o: Options, host: Host) {
    && r == Transduce(polls, startedAt, o) && r.exit.None?
    && Spaced(polls, startedAt, o) && Faithful(polls, disk, startedAt, o, host)
    && now == (if polls == [] then startedAt else Min(polls[|polls| - 1].endedAt + o.intervalMs, Deadline(startedAt, o)))
    && (polls != [] ==> polls[|polls| - 1].result.Some? && Transduce(polls[..|polls| - 1], startedAt, o).exit.None?)
  }

  lemma PollMade(r: Output, now: int, polls: seq<Poll>, disk: Disk, startedAt: int, o: Options, host: Host)
    requires Accepted(o) && Going(r, now, polls, disk, startedAt, o, host) && now < Deadline(startedAt, o)
    ensures var p := PollOf(disk, |polls|, now, Deadline(startedAt, o), o, host);
            var polls' := polls + [p];
            && Spaced(polls', startedAt, o) && Faithful(polls', disk, startedAt, o, host)
            && Transduce(polls', startedAt, o) == Turn(r, p, startedAt, o)
            && polls'[..|polls|] == polls
            && p.endedAt <= Deadline(startedAt, o) && (p.result.None? ==> p.endedAt == Deadline(startedAt, o))
  {
    var p := PollOf(disk, |polls|, now, Deadline(startedAt, o), o, host);
    ReadEndsInTime(disk, |polls|, 1, now, Deadline(startedAt, o), JudgeFor(o, host));
    SpacedOneMore(polls, p, startedAt, o);
    assert (polls + [p])[..|polls|] == polls;
  }

  /** A complete run: what it wrote is the transducer's report of what it read. */
  ghost predicate Complete(
      exit: int, lines: seq<Line>, polls: seq<Poll>, finishedAt: int, startedAt: int, disk: Disk, o: Options, host: Host)
  {
    && Scheduled(polls, finishedAt, startedAt, o) && Faithful(polls, disk, startedAt, o, host)
    && Report(polls, finishedAt, startedAt, o).lines == lines
    && Report(polls, finishedAt, startedAt, o).exit == Some(exit)
  }

  lemma ExitCompletes(r: Output, polls: seq<Poll>, disk: Disk, startedAt: int, o: Options, host: Host)
    requires polls != [] && r == Transduce(polls, startedAt, o) && r.exit.Some?
    requires Transduce(polls[..|polls| - 1], startedAt, o).exit.None?
    requires Spaced(polls, startedAt, o) && Faithful(polls, disk, startedAt, o, host)
    requires polls[|polls| - 1].endedAt < Deadline(startedAt, o)
    ensures Complete(r.exit.value, r.lines, polls, polls[|polls| - 1].endedAt, startedAt, disk, o, host)
  {
  }

  lemma TimeoutCompletes(r: Output, polls: seq<Poll>, disk: Disk, startedAt: int, o: Options, host: Host)
    requires Accepted(o) && polls != [] && r == Transduce(polls, startedAt, o) && r.exit.None?
    requires Transduce(polls[..|polls| - 1], startedAt, o).exit.None?
    requires Spaced(polls, startedAt, o) && Faithful(polls, disk, startedAt, o, host)
    requires Deadline(startedAt, o) <= polls[|polls| - 1].endedAt + o.intervalMs
    ensures var at := Deadline(startedAt, o);
            Complete(EXIT_TIMEOUT, Emit(r, at, Timeout(at - startedAt)).lines, polls, at, startedAt, disk, o, host)
  {
  }

  /** A poll either ends the run, by timing out or by its observation, or leaves it going. */
  lemma PollEnds(r: Output, now: int, polls: seq<Poll>, disk: Disk, startedAt: int, o: Options, host: Host)
    requires Accepted(o) && Going(r, now, polls, disk, startedAt, o, host) && now < Deadline(startedAt, o)
    ensures var at := Deadline(startedAt, o);
            var p := PollOf(disk, |polls|, now, at, o, host);
            if p.result.None? then
              p.endedAt == at && Complete(EXIT_TIMEOUT, Emit(r, at, Timeout(at - startedAt)).lines, polls + [p], at, startedAt, disk, o, host)
            else
              var r' := React(r, p.endedAt, p.result.value, startedAt, o);
              if r'.exit.Some? then Complete(r'.exit.value, r'.lines, polls + [p], p.endedAt, startedAt, disk, o, host)
              else Going(r', Min(p.endedAt + o.intervalMs, at), polls + [p], disk, startedAt, o, host)
  {
    PollMade(r, now, polls, disk, startedAt, o, host);
    var p := PollOf(disk, |polls|, now, Deadline(startedAt, o), o, host);
    var r' := Turn(r, p, startedAt, o);
    if p.result.None? {
      TimeoutCompletes(r', polls + [p], disk, startedAt, o, host);
    } else if r'.exit.Some? {
      ExitCompletes(r', polls + [p], disk, startedAt, o, host);
    }
  }

  /** One turn of the loop, up to its sleep. */
  method PollOnce(w: StatusWatch, made: seq<Poll>, ghost disk: Disk, o: Options, ghost host: Host)
    returns (exit: Option<int>, polls: seq<Poll>)
    requires Accepted(o) && w.options == o && w.disk == disk && w.judge == JudgeFor(o, host) && w.deadline == Deadline(w.startedAt, o)
    requires Going(w.View(), w.now, made, disk, w.startedAt, o, host) && w.now < w.deadline
    modifies w
    ensures old(w.now) <= w.now <= w.deadline
    ensures exit.Some? ==> Complete(exit.value, w.lines, polls, w.now, w.startedAt, disk, o, host)
    ensures exit.None? ==> Going(w.View(), Min(w.now + o.intervalMs, w.deadline), polls, disk, w.startedAt, o, host)
  {
    PollEnds(w.View(), w.now, made, disk, w.startedAt, o, host);
    ReadEndsInTime(disk, |made|, 1, w.now, w.deadline, w.judge);
    var startsAt := w.now;
    ghost var p := PollOf(disk, |made|, w.now, w.deadline, o, host);
    var bounded, attempts := w.Read(|made|);
    var inTime := bounded.InTime? && w.deadline - w.now > 0;
    var poll := Poll(startsAt, w.now, attempts, if inTime then Some(bounded.result) else None);
    assert poll == p;
    polls := made + [poll];
    if inTime {
      exit := w.Process(bounded.result);
    } else {
      var code := w.ReportTimeout();
      exit := Some(code);
    }
  }

  /** Whatever the file does, the watch ends, in a complete run. */
  method RunStatusWatch(o: Options, startedAt: int, disk: Disk, host: Host)
    returns (exit: int, lines: seq<Line>, polls: seq<Poll>, finishedAt: int)
    requires Accepted(o)
    ensures Complete(exit, lines, polls, finishedAt, startedAt, disk, o, host)
    ensures ExitMeans(exit, lines)
  {
    exit, lines, polls, finishedAt := Watch(o, startedAt, disk, host);
    ReportFixesExit(polls, finishedAt, startedAt, o);
  }

  method Watch(o: Options, startedAt: int, disk: Disk, host: Host)
    returns (exit: int, lines: seq<Line>, polls: seq<Poll>, finishedAt: int)
    requires Accepted(o)
    ensures Complete(exit, lines, polls, finishedAt, startedAt, disk, o, host)
  {
    var w := new StatusWatch(o, startedAt, disk, host);
    polls := [];
    while w.deadline - w.now > 0
      invariant w.now <= w.deadline
      invariant Going(w.View(), w.now, polls, disk, startedAt, o, host)
      decreases w.deadline - w.now
    {
      var verdict: Option<int>;
      verdict, polls := PollOnce(w, polls, disk, o, host);
      if verdict.Some? {
        return verdict.value, w.lines, polls, w.now;
      }
      w.now := w.now + Min(o.intervalMs, Max(w.deadline - w.now, 0));
    }
    TimeoutCompletes(w.View(), polls, disk, startedAt, o, host);
    exit := w.ReportTimeout();
    return exit, w.lines, polls, w.now;
  }

  ghost predicate EndsInTime(e: ReadEnd, attempt: nat, now: int, deadline: int) {
    && now <= e.at <= deadline && attempt <= e.attempts <= READ_ATTEMPTS
    && (e.bounded.TimedOut? ==> e.at == deadline)
  }

  lemma {:induction false} ReadEndsInTime(disk: Disk, k: nat, attempt: nat, now: int, deadline: int, judge: Judge)
    requires 1 <= attempt <= READ_ATTEMPTS && now < deadline
    ensures EndsInTime(ReadFrom(disk, k, attempt, now, deadline, judge), attempt, now, deadline)
    decreases READ_ATTEMPTS - attempt
  {
    var a := disk(k, attempt);
    if a.Hangs? || attempt == READ_ATTEMPTS || now + a.ms + READ_RETRY_DELAY_MS >= deadline {
    } else {
      ReadEndsInTime(disk, k, attempt + 1, now + a.ms + READ_RETRY_DELAY_MS, deadline, judge);
    }
  }

  // ---- What a read amounts to ----

  /** When attempt n begins, attempt `first` having begun at `now`: each takes its time, and 200 ms pass before the next. */
  function StartOf(disk: Disk, k: nat, first: nat, now: int, n: nat): int
    requires first <= n
    decreases n
  {
    if n == first then now else
    StartOf(disk, k, first, now, n - 1) + (if disk(k, n - 1).Takes? then disk(k, n - 1).ms else 0) + 200
  }

  lemma {:induction false} StartShifts(disk: Disk, k: nat, first: nat, now: int, n: nat)
    requires first < n && disk(k, first).Takes?
    ensures StartOf(disk, k, first, now, n) == StartOf(disk, k, first + 1, now + disk(k, first).ms + 200, n)
    decreases n
  {
    if n == first + 1 {
      assert StartOf(disk, k, first, now, first) == now;
    } else {
      StartShifts(disk, k, first, now, n - 1);
    }
  }

  /** An attempt that begins at `start` is read in time, but worth another, for which there is time. */
  ghost predicate TriedAgain(found: Attempt, start: int, deadline: int, judge: Judge) {
    found.Takes? && start + found.ms <= deadline && judge(found.outcome).None? && start + found.ms + 200 < deadline
  }

  /** How the last attempt, which begins at `start`, ends the read. */
  ghost predicate EndedByAttempt(e: ReadEnd, found: Attempt, start: int, deadline: int, judge: Judge) {
    if found.Hangs? || start + found.ms > deadline then e.at == deadline && e.bounded.TimedOut?
    else if judge(found.outcome).Some? then e.at == start + found.ms && e.bounded == InTime(judge(found.outcome).value)
    else if e.attempts == 3 then e.at == start + found.ms && e.bounded == InTime(Unobservable(Unreadable))
    else start + found.ms + 200 >= deadline && e.at == deadline && e.bounded.TimedOut?
  }

  /** A read in full: attempts that are tried again, three at most, and the one that ends it. */
  ghost predicate ReadAsTried(e: ReadEnd, disk: Disk, k: nat, first: nat, now: int, deadline: int, judge: Judge) {
    && first <= e.attempts <= 3
    && (forall i :: first <= i < e.attempts ==> TriedAgain(disk(k, i), StartOf(disk, k, first, now, i), deadline, judge))
    && EndedByAttempt(e, disk(k, e.attempts), StartOf(disk, k, first, now, e.attempts), deadline, judge)
  }

  lemma TriedBefore(e: ReadEnd, disk: Disk, k: nat, first: nat, now: int, deadline: int, judge: Judge)
    requires TriedAgain(disk(k, first), now, deadline, judge)
    requires ReadAsTried(e, disk, k, first + 1, now + disk(k, first).ms + 200, deadline, judge)
    ensures ReadAsTried(e, disk, k, first, now, deadline, judge)
  {
    var next := now + disk(k, first).ms + 200;
    forall i | first <= i < e.attempts ensures TriedAgain(disk(k, i), StartOf(disk, k, first, now, i), deadline, judge) {
      if i > first { StartShifts(disk, k, first, now, i); }
    }
    StartShifts(disk, k, first, now, e.attempts);
  }

  lemma {:induction false} ReadGoesAsTried(disk: Disk, k: nat, attempt: nat, now: int, deadline: int, judge: Judge)
    requires 1 <= attempt <= 3
    ensures ReadAsTried(ReadFrom(disk, k, attempt, now, deadline, judge), disk, k, attempt, now, deadline, judge)
    decreases 3 - attempt
  {
    var found, e := disk(k, attempt), ReadFrom(disk, k, attempt, now, deadline, judge);
    if attempt == 3 || !TriedAgain(found, now, deadline, judge) {
    } else {
      ReadGoesAsTried(disk, k, attempt + 1, now + found.ms + 200, deadline, judge);
      TriedBefore(e, disk, k, attempt, now, deadline, judge);
    }
  }

  /** A document of the contract: a schema version, and an update time, which is a UTC timestamp. */
  ghost predicate IsContract(raw: Option<Json>, version: int, updatedAt: string, host: Host) {
    && raw.Some? && raw.value.Obj?
    && IsNumber(raw.value.fields, "schemaVersion", Some(version))
    && IsString(raw.value.fields, "updatedAt", Some(updatedAt)) && IsTime(updatedAt, host)
  }

  /** An entry whose auto-pause details are not what they must be. */
  ghost predicate HasBadDetails(raw: Json, host: Host)
    requires raw.Obj?
  {
    exists items, v :: (Holds(raw.fields, "items", items) || Holds(raw.fields, "recent", items))
      && v in items && IsPaused(v) && forall d :: !DetailsOf(d, v.fields["autoPause"], host)
  }

  lemma BadDetailsAreBroken(values: seq<Json>, host: Host)
    ensures HasBrokenDetails(values, host) <==> exists v :: v in values && IsPaused(v) && forall d :: !DetailsOf(d, v.fields["autoPause"], host)
  {
    forall v | v in values && CarriesDetails(v)
      ensures ParseAutoPause(v.fields["autoPause"], host).None? <==> forall d :: !DetailsOf(d, v.fields["autoPause"], host)
    {
      forall d ensures ParseAutoPause(v.fields["autoPause"], host) == Some(d) <==> DetailsOf(d, v.fields["autoPause"], host) {
        DetailsAreTheFields(v.fields["autoPause"], host, d);
      }
      var p := ParseAutoPause(v.fields["autoPause"], host);
      if p.Some? { assert DetailsOf(p.value, v.fields["autoPause"], host); }
    }
    assert forall v :: IsPaused(v) <==> CarriesDetails(v);
  }

  /** What the outcome of a read amounts to: a missing file is no file; one that cannot be read, is not of the contract, or has
      broken details is worth reading again; another schema version is unsupported; anything else is observed. */
  lemma VerdictMeans(outcome: FileOutcome, version: int, updatedAt: string, o: Options, host: Host)
    ensures outcome.Missing? ==> Verdict(outcome, o, host) == Some(Unobservable(NoFile))
    ensures outcome.Failed? ==> Verdict(outcome, o, host) == None
    ensures outcome.Contents? && IsContract(outcome.raw, version, updatedAt, host) ==>
              if version != 1 then Verdict(outcome, o, host) == Some(Unobservable(UnsupportedSchemaVersion))
              else if HasBadDetails(outcome.raw.value, host) then Verdict(outcome, o, host) == None
              else
                && Verdict(outcome, o, host).Some? && Verdict(outcome, o, host).value.Readable?
                && Verdict(outcome, o, host).value.updatedAtMs == Denotes(updatedAt, host).value / 1000000
    ensures outcome.Contents? && (forall v, t :: !IsContract(outcome.raw, v, t, host)) ==> Verdict(outcome, o, host) == None
  {
    if outcome.Contents? && outcome.raw.Some? && outcome.raw.value.Obj? {
      ContractMeans(outcome.raw, host);
      ParseDenotes(updatedAt, host);
      DetailsMean(outcome.raw.value, host);
      if Parse(Str(updatedAt), host).Some? {
        MsIsFloor(Parse(Str(updatedAt), host).value);
        MillionIsPow10();
      }
    }
  }

  lemma MillionIsPow10()
    ensures Pow10(6) == 1000000
  {
    assert Pow10(1) == 10 && Pow10(2) == 100 && Pow10(3) == 1000 && Pow10(4) == 10000 && Pow10(5) == 100000;
  }

  lemma DetailsMean(raw: Json, host: Host)
    requires raw.Obj?
    ensures HasBadDetails(raw, host) <==>
              HasBrokenDetails(ArrayField(raw.fields, "items"), host) || HasBrokenDetails(ArrayField(raw.fields, "recent"), host)
  {
    var items, recent := ArrayField(raw.fields, "items"), ArrayField(raw.fields, "recent");
    assert Holds(raw.fields, "items", items) && Holds(raw.fields, "recent", recent);
    BadDetailsAreBroken(items, host);
    BadDetailsAreBroken(recent, host);
  }

  lemma ContractMeans(raw: Option<Json>, host: Host)
    requires raw.Some? && raw.value.Obj?
    ensures (exists v, t :: IsContract(raw, v, t, host)) <==>
              && NumberField(raw.value.fields, "schemaVersion").Some?
              && Field(raw.value.fields, "updatedAt").Some? && Parse(Field(raw.value.fields, "updatedAt").value, host).Some?
  {
    var f := raw.value.fields;
    var version, updatedAt := NumberField(f, "schemaVersion"), Field(f, "updatedAt");
    if version.Some? && updatedAt.Some? && Parse(updatedAt.value, host).Some? {
      ParseDenotes(updatedAt.value.s, host);
      assert IsContract(raw, version.value, updatedAt.value.s, host);
    }
    if exists v, t :: IsContract(raw, v, t, host) {
      var v, t :| IsContract(raw, v, t, host);
      ParseDenotes(t, host);
    }
  }

  // ---- Consequences for whole runs ----

  ghost predicate ReadsTakeAtMost(disk: Disk, d: int) {
    forall k: nat, a: nat :: disk(k, a).Takes? && disk(k, a).ms <= d
  }

  /** The longest that attempts from `attempt` on can take, when each takes at most d. */
  function LongestFrom(attempt: nat, d: int): int {
    if attempt == 1 then 3 * d + 400
    else if attempt == 2 then 2 * d + READ_RETRY_DELAY_MS
    else d
  }

  lemma {:induction false} ReadIsShort(disk: Disk, k: nat, attempt: nat, now: int, deadline: int, d: int, judge: Judge)
    requires 1 <= attempt <= READ_ATTEMPTS && now < deadline && ReadsTakeAtMost(disk, d)
    ensures ReadFrom(disk, k, attempt, now, deadline, judge).at - now <= LongestFrom(attempt, d)
    decreases READ_ATTEMPTS - attempt
  {
    var a := disk(k, attempt);
    assert a.Takes? && a.ms <= d;
    var again := now + a.ms + READ_RETRY_DELAY_MS;
    if attempt == READ_ATTEMPTS || again >= deadline {
    } else {
      ReadIsShort(disk, k, attempt + 1, again, deadline, d, judge);
    }
  }

  lemma {:induction false} PollsAreShort(o: Options, startedAt: int, disk: Disk, host: Host, polls: seq<Poll>, d: int)
    requires Spaced(polls, startedAt, o) && Faithful(polls, disk, startedAt, o, host) && ReadsTakeAtMost(disk, d)
    ensures PollsTakeAtMost(polls, 3 * d + 400)
  {
    if polls == [] {
    } else {
      var k := |polls| - 1;
      PollsAreShort(o, startedAt, disk, host, polls[..k], d);
      ReadIsShort(disk, k, 1, polls[k].startedAt, Deadline(startedAt, o), d, JudgeFor(o, host));
    }
  }

  lemma ScheduledPollsAreShort(o: Options, startedAt: int, disk: Disk, host: Host, polls: seq<Poll>, finishedAt: int, d: int)
    requires Scheduled(polls, finishedAt, startedAt, o)
    requires Faithful(polls, disk, startedAt, o, host) && ReadsTakeAtMost(disk, d)
    ensures PollsTakeAtMost(polls, 3 * d + 400)
  {
    PollsAreShort(o, startedAt, disk, host, polls, d);
  }

  /** When one file read takes at most d, lines are less than heartbeatMs + intervalMs + 3d + 400 apart. */
  lemma NoLongSilence(o: Options, startedAt: int, disk: Disk, host: Host, polls: seq<Poll>, finishedAt: int, d: int)
    requires Accepted(o) && Scheduled(polls, finishedAt, startedAt, o)
    requires Faithful(polls, disk, startedAt, o, host) && ReadsTakeAtMost(disk, d)
    ensures ReportsOnTime(polls, finishedAt, startedAt, 3 * d + 400, o)
  {
    ScheduledPollsAreShort(o, startedAt, disk, host, polls, finishedAt, d);
    RunIsPaced(polls, finishedAt, startedAt, 3 * d + 400, o);
  }

  /** Attempt a of poll k read a well-formed file, and `obs` is what it shows. */
  ghost predicate ShownBy(disk: Disk, k: nat, a: nat, obs: Observation, o: Options, host: Host) {
    && disk(k, a).Takes? && disk(k, a).outcome.Contents?
    && var parsed := ParseStatusDocument(disk(k, a).outcome.raw, host);
       parsed.Ok? && obs == Observe(parsed.document, o.key, o.after, host)
  }

  /** A readable result is the judgement on what the last attempt found. */
  lemma {:induction false} ReadableIsJudged(disk: Disk, k: nat, attempt: nat, now: int, deadline: int, judge: Judge)
    requires 1 <= attempt <= READ_ATTEMPTS
    ensures var e := ReadFrom(disk, k, attempt, now, deadline, judge);
            e.bounded.InTime? && e.bounded.result.Readable? ==>
              && attempt <= e.attempts
              && disk(k, e.attempts).Takes? && judge(disk(k, e.attempts).outcome) == Some(e.bounded.result)
    decreases READ_ATTEMPTS - attempt
  {
    if attempt == READ_ATTEMPTS || disk(k, attempt).Hangs? {
    } else {
      ReadableIsJudged(disk, k, attempt + 1, now + disk(k, attempt).ms + READ_RETRY_DELAY_MS, deadline, judge);
    }
  }

  lemma ReadableIsShown(disk: Disk, k: nat, now: int, deadline: int, o: Options, host: Host)
    ensures var e := ReadFrom(disk, k, 1, now, deadline, JudgeFor(o, host));
            e.bounded.InTime? && e.bounded.result.Readable? ==>
              1 <= e.attempts && ShownBy(disk, k, e.attempts, e.bounded.result.observation, o, host)
  {
    ReadableIsJudged(disk, k, 1, now, deadline, JudgeFor(o, host));
  }

  /** The values of an array member; an absent one holds none. */
  ghost predicate Holds(f: map<string, Json>, name: string, values: seq<Json>) {
    if name in f && f[name].Arr? then values == f[name].items else values == []
  }

  /** `obs` is what an entry says, member by member: of the entries for the key received strictly after the time the watch
      was given, the first of the newest. Items come first; a finished one, from `recent`, is reported only if the items hold
      no such entry. */
  ghost predicate TellsAnEntry(items: seq<Json>, recent: seq<Json>, obs: Observation, o: Options, host: Host)
    requires Valid(o.after)
  {
    if obs.Active? then
      && FirstShown(items, obs, ActiveOf, o, host)
      && exists v :: Newest(v, items, o.key, o.after, host) && TellsActive(obs, v, host)
    else
      && obs.Finished? && !SomeReceivedAfter(items, o.key, o.after, host) && FirstShown(recent, obs, FinishedOf, o, host)
      && exists v :: Newest(v, recent, o.key, o.after, host) && TellsFinished(obs, v)
  }

  /** ... of the file that attempt a of poll k read. */
  ghost predicate EntryBehind(disk: Disk, k: nat, a: nat, obs: Observation, o: Options, host: Host)
    requires Valid(o.after)
  {
    && ShownBy(disk, k, a, obs, o, host)
    && var f := disk(k, a).outcome.raw.value.fields;
       exists items, recent :: Holds(f, "items", items) && Holds(f, "recent", recent) && TellsAnEntry(items, recent, obs, o, host)
  }

  ghost predicate FirstShown(values: seq<Json>, obs: Observation, show: Entry -> Observation, o: Options, host: Host) {
    var entries := ToEntries(values, host);
    exists i: nat :: FirstMaximal(Stamps(entries, host.lower(o.key), o.after, host), i) && obs == show(entries[i])
  }

  lemma FirstActiveTells(values: seq<Json>, obs: Observation, o: Options, host: Host)
    requires Valid(o.after) && FirstShown(values, obs, ActiveOf, o, host)
    ensures exists v :: Newest(v, values, o.key, o.after, host) && TellsActive(obs, v, host)
  {
    var entries := ToEntries(values, host);
    var i: nat :| FirstMaximal(Stamps(entries, host.lower(o.key), o.after, host), i) && obs == ActiveOf(entries[i]);
    var v := FirstMaximalIsNewest(values, i, o.key, o.after, host);
    ObservationsTellTheFields(v, host);
  }

  lemma FirstFinishedTells(values: seq<Json>, obs: Observation, o: Options, host: Host)
    requires Valid(o.after) && FirstShown(values, obs, FinishedOf, o, host)
    ensures exists v :: Newest(v, values, o.key, o.after, host) && TellsFinished(obs, v)
  {
    var entries := ToEntries(values, host);
    var i: nat :| FirstMaximal(Stamps(entries, host.lower(o.key), o.after, host), i) && obs == FinishedOf(entries[i]);
    var v := FirstMaximalIsNewest(values, i, o.key, o.after, host);
    ObservationsTellTheFields(v, host);
  }

  lemma ObservedTellsAnEntry(raw: Option<Json>, o: Options, host: Host)
    requires Valid(o.after) && ParseStatusDocument(raw, host).Ok?
    ensures var obs, f := Observe(ParseStatusDocument(raw, host).document, o.key, o.after, host), raw.value.fields;
            !obs.NoEntry? ==> TellsAnEntry(ArrayField(f, "items"), ArrayField(f, "recent"), obs, o, host)
  {
    var items, recent := ArrayField(raw.value.fields, "items"), ArrayField(raw.value.fields, "recent");
    var obs := Observe(ParseStatusDocument(raw, host).document, o.key, o.after, host);
    ObservationOfFile(raw, o.key, o.after, host);
    ObserveDecides(ParseStatusDocument(raw, host).document, o.key, o.after, host);
    if obs.Active? {
      assert FirstShown(items, obs, ActiveOf, o, host);
      FirstActiveTells(items, obs, o, host);
    } else if obs.Finished? {
      assert FirstShown(recent, obs, FinishedOf, o, host);
      FirstFinishedTells(recent, obs, o, host);
    }
  }

  lemma ShownHasEntry(disk: Disk, k: nat, a: nat, obs: Observation, o: Options, host: Host)
    requires Valid(o.after) && ShownBy(disk, k, a, obs, o, host) && !obs.NoEntry?
    ensures EntryBehind(disk, k, a, obs, o, host)
  {
    var f := disk(k, a).outcome.raw.value.fields;
    ObservedTellsAnEntry(disk(k, a).outcome.raw, o, host);
    assert Holds(f, "items", ArrayField(f, "items")) && Holds(f, "recent", ArrayField(f, "recent"));
  }

  /** Every state the watcher reports is what such an entry says, in the file that the last attempt of one of the polls read. */
  lemma StatesComeFromEntries(o: Options, startedAt: int, disk: Disk, host: Host, polls: seq<Poll>, obs: Observation)
    requires Accepted(o)
    requires Faithful(polls, disk, startedAt, o, host)
    requires obs in StatesOf(Transduce(polls, startedAt, o).lines)
    ensures exists k: nat :: k < |polls| && 1 <= polls[k].attempts && EntryBehind(disk, k, polls[k].attempts, obs, o, host)
  {
    StateLinesAreSightings(polls, startedAt, o);
    var sightings := Sightings(polls, o);
    UntilTerminalElements(Stutterless(sightings));
    StutterlessElements(sightings);
    SightingsElements(polls, o);
    var k: nat :| k < |polls| && Reportable(polls[k], o) && polls[k].result.value.observation == obs;
    FaithfulAt(polls, k, disk, startedAt, o, host);
    ReadableIsShown(disk, k, polls[k].startedAt, Deadline(startedAt, o), o, host);
    ShownHasEntry(disk, k, polls[k].attempts, obs, o, host);
  }

  // ---- A run with one tuple and two state lines ----

  /** An instant as review-status.json writes it, and its seconds. */
  const INSTANT := "2026-01-01T00:00:00Z"
  const INSTANT_SECONDS := 1767225600

  /** A running review, whose event is `eventId`, and a file with it. */
  function RunningReview(eventId: string): Json {
    Obj(map["key" := Str("k"), "state" := Str("running"), "receivedAt" := Str(INSTANT), "eventId" := Str(eventId)])
  }

  function RunningFile(eventId: string): Json {
    Obj(map["schemaVersion" := Num(1), "updatedAt" := Str(INSTANT), "items" := Arr([RunningReview(eventId)])])
  }

  function RunningEntry(eventId: string, host: Host): Entry {
    Entry(host.lower("k"), "running", INSTANT, None, Some(eventId), None, None, None, None, None)
  }

  lemma InstantParses(host: Host)
    requires host.dateSeconds(INSTANT) == Some(INSTANT_SECONDS)
    ensures var t := Parse(Str(INSTANT), host);
            t.Some? && t.value.seconds == INSTANT_SECONDS && ToMs(t.value) == INSTANT_SECONDS * 1000
  {
    assert IsHead(INSTANT[..19]);
    assert INSTANT[19..19] == "" && INSTANT[..19] + "Z" == INSTANT;
    ValueZeros(9);
    ValueZeros(3);
    assert ("" + Zeros(9))[..9][..3] == Zeros(3);
  }

  lemma RunningReviewIsRead(eventId: string, host: Host)
    ensures ToEntries([RunningReview(eventId)], host) == [RunningEntry(eventId, host)]
    ensures !HasBrokenDetails([RunningReview(eventId)], host)
  {
    var f := RunningReview(eventId).fields;
    assert StringField(f, "key") == Some("k") && StringField(f, "state") == Some("running");
    assert StringField(f, "receivedAt") == Some(INSTANT) && StringField(f, "eventId") == Some(eventId);
    assert ToEntry(RunningReview(eventId), host) == Some(RunningEntry(eventId, host));
    OneValue(RunningReview(eventId), EntryReader(host));
  }

  lemma OneValue<S, T>(v: S, f: S -> Option<T>)
    ensures Collected([v], f) == if f(v).Some? then [f(v).value] else []
  {
    assert [v][..|[v]| - 1] == [];
  }

  lemma AcceptedWith(f: map<string, Json>, items: seq<Json>, host: Host)
    requires NumberField(f, "schemaVersion") == Some(SUPPORTED_SCHEMA)
    requires Field(f, "updatedAt") == Some(Str(INSTANT)) && Parse(Str(INSTANT), host).Some?
    requires ArrayField(f, "items") == items && ArrayField(f, "recent") == [] && !HasBrokenDetails(items, host)
    ensures ParseStatusDocument(Some(Obj(f)), host) == Parsed.Ok(Document(INSTANT, ToEntries(items, host), []))
  {
    assert !HasBrokenDetails([], host) && ToEntries([], host) == [];
  }

  lemma RunningFileIsAccepted(eventId: string, host: Host)
    requires host.dateSeconds(INSTANT) == Some(INSTANT_SECONDS)
    ensures ParseStatusDocument(Some(RunningFile(eventId)), host) == Parsed.Ok(Document(INSTANT, [RunningEntry(eventId, host)], []))
  {
    InstantParses(host);
    RunningReviewIsRead(eventId, host);
    var f := RunningFile(eventId).fields;
    assert NumberField(f, "schemaVersion") == Some(1) && Field(f, "updatedAt") == Some(Str(INSTANT));
    assert ArrayField(f, "items") == [RunningReview(eventId)] && ArrayField(f, "recent") == [];
    AcceptedWith(f, [RunningReview(eventId)], host);
  }

  /** The first poll reads one event, later polls another. */
  function TwoEvents(): Disk {
    (k: nat, a: nat) => Takes(0, Contents(Some(RunningFile(if k == 0 then "first" else "second"))))
  }

  function Seen(eventId: string): Observation {
    Active("running", None, None, Some(eventId), None, None)
  }

  /** Two polls, 10 ms apart. */
  const TWO_POLLS := Options("k", PreciseTime(0, "000000000"), 10, 1000, 1000, 1000, 15)

  lemma RunningFileShows(eventId: string, host: Host)
    requires host.dateSeconds(INSTANT) == Some(INSTANT_SECONDS)
    ensures Verdict(Contents(Some(RunningFile(eventId))), TWO_POLLS, host) == Some(Readable(INSTANT_SECONDS * 1000, Seen(eventId)))
  {
    InstantParses(host);
    RunningFileIsAccepted(eventId, host);
    var e := RunningEntry(eventId, host);
    assert Qualifies(e, host.lower("k"), TWO_POLLS.after, host);
    assert [e][..0] == [] && Latest([e], host.lower("k"), TWO_POLLS.after, host) == Some(e);
  }

  lemma EachPollSees(k: nat, at: int, deadline: int, host: Host)
    requires host.dateSeconds(INSTANT) == Some(INSTANT_SECONDS) && at < deadline
    ensures PollOf(TwoEvents(), k, at, deadline, TWO_POLLS, host)
            == Poll(at, at, 1, Some(Readable(INSTANT_SECONDS * 1000, Seen(if k == 0 then "first" else "second"))))
  {
    RunningFileShows(if k == 0 then "first" else "second", host);
  }

  /** One or two polls of those files, and what they see. */
  lemma PollsSee(host: Host, polls: seq<Poll>, startedAt: int)
    requires host.dateSeconds(INSTANT) == Some(INSTANT_SECONDS) && startedAt == INSTANT_SECONDS * 1000 && 1 <= |polls| <= 2
    requires Spaced(polls, startedAt, TWO_POLLS) && Faithful(polls, TwoEvents(), startedAt, TWO_POLLS, host)
    ensures polls[|polls| - 1].endedAt == startedAt + 10 * (|polls| - 1)
    ensures Sightings(polls, TWO_POLLS) == [Seen("first"), Seen("second")][..|polls|]
  {
    var deadline, k := Deadline(startedAt, TWO_POLLS), |polls| - 1;
    EachPollSees(0, startedAt, deadline, host);
    if k == 0 {
      assert polls[..0] == [];
    } else {
      EachPollSees(1, startedAt + 10, deadline, host);
      assert polls[..1][..0] == [] && polls[..1][0] == polls[0];
      PollsSee(host, polls[..1], startedAt);
    }
  }

  lemma TwoStatesAreWritten(host: Host, polls: seq<Poll>, r: Output, startedAt: int)
    requires host.dateSeconds(INSTANT) == Some(INSTANT_SECONDS) && startedAt == INSTANT_SECONDS * 1000 && 1 <= |polls| <= 2
    requires Spaced(polls, startedAt, TWO_POLLS) && Faithful(polls, TwoEvents(), startedAt, TWO_POLLS, host)
    requires Reports(Sightings(polls, TWO_POLLS), r)
    requires r.exit.None? ==> Deadline(startedAt, TWO_POLLS) <= polls[|polls| - 1].endedAt + TWO_POLLS.intervalMs
    ensures StatesOf(r.lines) == [Seen("first"), Seen("second")]
  {
    PollsSee(host, polls, startedAt);
    TwoSightings(Sightings(polls, TWO_POLLS), r, Seen("first"), Seen("second"));
  }

  /** Every run of the watcher on those files writes two state lines with one tuple. */
  lemma TupleAloneDoesNotDecide(host: Host, exit: int, lines: seq<Line>, polls: seq<Poll>, finishedAt: int, startedAt: int)
    requires host.dateSeconds(INSTANT) == Some(INSTANT_SECONDS) && startedAt == INSTANT_SECONDS * 1000
    requires Complete(exit, lines, polls, finishedAt, startedAt, TwoEvents(), TWO_POLLS, host)
    ensures Accepted(TWO_POLLS) && SameTuple(Seen("first"), Seen("second"))
    ensures StatesOf(lines) == [Seen("first"), Seen("second")]
  {
    PollsAreBounded(polls, finishedAt, startedAt, TWO_POLLS);
    StateLinesAreSightings(polls, startedAt, TWO_POLLS);
    TwoStatesAreWritten(host, polls, Transduce(polls, startedAt, TWO_POLLS), startedAt);
    ReportStates(polls, finishedAt, startedAt, TWO_POLLS);
  }
}

/** What the status watcher writes, as a function of what its polls read (src/client/statusWatch.ts),
    and the properties of every such output. The loop that produces it is in StatusWatch.dfy. */
module WatchTransducer {
  import opened Common
  import opened PreciseTimes
  import opened StatusModel

  datatype Options = Options(
    key: string, after: PreciseTime, intervalMs: int, heartbeatMs: int, staleMs: int,
    notReceivedMs: int, timeoutMs: int)

  /** What parseStatusWatchArgs accepts. */
  predicate Accepted(o: Options) {
    && Valid(o.after)
    && o.intervalMs > 0 && o.heartbeatMs > 0 && o.staleMs > 0 && o.notReceivedMs > 0 && o.timeoutMs > 0
  }

  datatype Reason = NoFile | Unreadable | UnsupportedSchemaVersion | Stale

  datatype ReadResult =
    | Readable(updatedAtMs: int, observation: Observation)
    | Unobservable(reason: Reason)

  /** One poll: when it began and ended, how often it read the file, and the result the loop
      accepted (None when the deadline had come). */
  datatype Poll = Poll(startedAt: int, endedAt: int, attempts: nat, result: Option<ReadResult>)

  datatype Body =
    | StateLine(observation: Observation)
    | ActionRequired
    | NotReceived(waitedMs: int, previousRound: Option<PreviousRound>)
    | UnobservableLine(why: Reason, ageMs: Option<int>)
    | Recovered
    | Heartbeat(state: string, elapsedMs: int)
    | Timeout(elapsedMs: int)

  datatype Line = Line(at: int, body: Body)

  const EXIT_COMPLETED := 0
  const EXIT_FAILED := 1
  const EXIT_ACTION_REQUIRED := 3
  const EXIT_TIMEOUT := 4

  /** The variables the loop carries from poll to poll. */
  datatype Memory = Memory(
    lastEmitAt: int, previous: Option<Observation>, blind: Option<Reason>,
    notReceivedReported: bool, lastState: string)

  datatype Output = Output(memory: Memory, lines: seq<Line>, exit: Option<int>)

  function Initial(startedAt: int): Output {
    Output(Memory(startedAt, None, None, false, "none"), [], None)
  }

  function Emit(r: Output, at: int, body: Body): Output {
    r.(lines := r.lines + [Line(at, body)], memory := r.memory.(lastEmitAt := at))
  }

  function StateName(o: Observation): string
    requires !o.NoEntry?
  {
    if o.Finished? then "finished" else o.state
  }

  predicate AwaitsUser(o: Observation) {
    o.Active? && o.state == "waiting" && o.holdReason == Some("manual")
  }

  predicate IsTerminalObservation(o: Observation) {
    o.Finished? || AwaitsUser(o)
  }

  function ExitOf(o: Observation): int
    requires o.Finished?
  {
    if o.outcome == Some("completed") && (o.exitCode.None? || o.exitCode.value == 0) then EXIT_COMPLETED else EXIT_FAILED
  }

  function HandleObservation(r: Output, at: int, obs: Observation, startedAt: int, o: Options): Output {
    if obs.NoEntry? then
      if !r.memory.notReceivedReported && at - startedAt >= o.notReceivedMs then
        var r := Emit(r, at, NotReceived(at - startedAt, obs.previousRound));
        r.(memory := r.memory.(notReceivedReported := true))
      else r
    else if r.memory.previous == Some(obs) then r
    else
      var r := r.(memory := r.memory.(previous := Some(obs), lastState := StateName(obs)));
      var r := Emit(r, at, StateLine(obs));
      if obs.Finished? then r.(exit := Some(ExitOf(obs)))
      else if AwaitsUser(obs) then Emit(r, at, ActionRequired).(exit := Some(EXIT_ACTION_REQUIRED))
      else r
  }

  function AgeMs(at: int, result: ReadResult): Option<int> {
    if result.Readable? then Some(at - result.updatedAtMs) else None
  }

  /** Why a poll's result shows nothing of the review, if it does not. */
  function Blindness(at: int, result: ReadResult, o: Options): Option<Reason> {
    if result.Unobservable? then Some(result.reason)
    else if at - result.updatedAtMs > o.staleMs then Some(Stale)
    else None
  }

  function ReportBlindness(r: Output, at: int, why: Reason, ageMs: Option<int>): Output {
    if r.memory.blind == Some(why) then r else
    var r := Emit(r, at, UnobservableLine(why, ageMs));
    r.(memory := r.memory.(blind := Some(why)))
  }

  function ReportRecovery(r: Output, at: int): Output {
    if r.memory.blind.None? then r else
    var r := Emit(r, at, Recovered);
    r.(memory := r.memory.(blind := None))
  }

  function Beat(r: Output, at: int, startedAt: int, o: Options): Output {
    if at - r.memory.lastEmitAt >= o.heartbeatMs then
      Emit(r, at, Heartbeat(if r.memory.blind.Some? then "unobservable" else r.memory.lastState, at - startedAt))
    else r
  }

  function Observed(r: Output, at: int, result: ReadResult, startedAt: int, o: Options): Output {
    match Blindness(at, result, o)
    case Some(why) => ReportBlindness(r, at, why, AgeMs(at, result))
    case None => HandleObservation(ReportRecovery(r, at), at, result.observation, startedAt, o)
  }

  /** One turn of the loop, after a result was accepted. */
  function React(r: Output, at: int, result: ReadResult, startedAt: int, o: Options): Output {
    var r := Observed(r, at, result, startedAt, o);
    if r.exit.Some? then r else Beat(r, at, startedAt, o)
  }

  /** A poll whose result was not accepted changes nothing, nor does one after the exit. */
  function Turn(r: Output, p: Poll, startedAt: int, o: Options): Output {
    if r.exit.Some? || p.result.None? then r else React(r, p.endedAt, p.result.value, startedAt, o)
  }

  function Transduce(polls: seq<Poll>, startedAt: int, o: Options): Output {
    if polls == [] then Initial(startedAt) else
    Turn(Transduce(polls[..|polls| - 1], startedAt, o), polls[|polls| - 1], startedAt, o)
  }

  /** The whole output of a run that ends at `finishedAt`: a run that found no reason to exit times out. */
  function Report(polls: seq<Poll>, finishedAt: int, startedAt: int, o: Options): Output {
    var r := Transduce(polls, startedAt, o);
    if r.exit.Some? then r else Emit(r, finishedAt, Timeout(finishedAt - startedAt)).(exit := Some(EXIT_TIMEOUT))
  }

  // ---- The state lines: a stutter-free report of what could be seen ----

  function StatesOf(lines: seq<Line>): seq<Observation> {
    if lines == [] then [] else
    var rest, body := StatesOf(lines[..|lines| - 1]), lines[|lines| - 1].body;
    if body.StateLine? then rest + [body.observation] else rest
  }

  predicate Reportable(p: Poll, o: Options) {
    p.result.Some? && Blindness(p.endedAt, p.result.value, o).None? && !p.result.value.observation.NoEntry?
  }

  /** The observations of the readable, non-stale polls that saw an entry. */
  function Sightings(polls: seq<Poll>, o: Options): seq<Observation> {
    if polls == [] then [] else
    var rest, p := Sightings(polls[..|polls| - 1], o), polls[|polls| - 1];
    if Reportable(p, o) then rest + [p.result.value.observation] else rest
  }

  /** Without the elements equal to their predecessor. */
  function Stutterless<T(==)>(s: seq<T>): (r: seq<T>)
    ensures s != [] ==> r != [] && r[|r| - 1] == s[|s| - 1]
  {
    if |s| <= 1 then s else
    var rest := Stutterless(s[..|s| - 1]);
    if s[|s| - 1] == s[|s| - 2] then rest else rest + [s[|s| - 1]]
  }

  /** The prefix that ends with the first terminal observation, or everything. */
  function UntilTerminal(s: seq<Observation>): seq<Observation> {
    if s == [] then [] else
    var rest := UntilTerminal(s[..|s| - 1]);
    if |rest| < |s| - 1 || (rest != [] && IsTerminalObservation(rest[|rest| - 1])) then rest else rest + [s[|s| - 1]]
  }

  /** The state lines of `r` report `sightings`. */
  ghost predicate Reports(sightings: seq<Observation>, r: Output) {
    var seen := Stutterless(sightings);
    && StatesOf(r.lines) == UntilTerminal(seen)
    && (r.exit.None? ==> UntilTerminal(seen) == seen && (seen == [] || !IsTerminalObservation(seen[|seen| - 1])))
    && (r.exit.None? ==> r.memory.previous == if sightings == [] then None else Some(sightings[|sightings| - 1]))
    && (r.exit.Some? ==> StatesOf(r.lines) != [] && IsTerminalObservation(StatesOf(r.lines)[|StatesOf(r.lines)| - 1]))
  }

  lemma StatesOfEmit(r: Output, at: int, body: Body)
    ensures StatesOf(Emit(r, at, body).lines) == StatesOf(r.lines) + if body.StateLine? then [body.observation] else []
  {
    assert Emit(r, at, body).lines[..|r.lines|] == r.lines;
  }

  lemma HandleStates(r: Output, at: int, obs: Observation, startedAt: int, o: Options)
    requires r.exit.None?
    ensures var r', isNew := HandleObservation(r, at, obs, startedAt, o), !obs.NoEntry? && r.memory.previous != Some(obs);
            && StatesOf(r'.lines) == StatesOf(r.lines) + (if isNew then [obs] else [])
            && r'.memory.previous == (if isNew then Some(obs) else r.memory.previous)
            && (r'.exit.Some? <==> isNew && IsTerminalObservation(obs))
  {
    if obs.NoEntry? {
      StatesOfEmit(r, at, NotReceived(at - startedAt, obs.previousRound));
    } else {
      var s := r.(memory := r.memory.(previous := Some(obs), lastState := StateName(obs)));
      StatesOfEmit(s, at, StateLine(obs));
      StatesOfEmit(Emit(s, at, StateLine(obs)), at, ActionRequired);
    }
  }

  ghost predicate AddsSighting(r: Output, r': Output, isNew: bool, obs: Observation) {
    && StatesOf(r'.lines) == StatesOf(r.lines) + (if isNew then [obs] else [])
    && r'.memory.previous == (if isNew then Some(obs) else r.memory.previous)
    && (r'.exit.Some? <==> isNew && IsTerminalObservation(obs))
  }

  /** A result is news when it is a sighting that differs from the last one reported. */
  ghost predicate IsNews(r: Output, at: int, result: ReadResult, o: Options) {
    && Blindness(at, result, o).None? && !result.observation.NoEntry?
    && r.memory.previous != Some(result.observation)
  }

  function SightingOf(result: ReadResult): Observation {
    if result.Readable? then result.observation else NoEntry(None)
  }

  lemma ObservedStates(r: Output, at: int, result: ReadResult, startedAt: int, o: Options)
    requires r.exit.None?
    ensures AddsSighting(r, Observed(r, at, result, startedAt, o), IsNews(r, at, result, o), SightingOf(result))
  {
    match Blindness(at, result, o) {
      case Some(why) => StatesOfEmit(r, at, UnobservableLine(why, AgeMs(at, result)));
      case None =>
        StatesOfEmit(r, at, Recovered);
        HandleStates(ReportRecovery(r, at), at, result.observation, startedAt, o);
    }
  }

  lemma BeatStates(q: Output, at: int, startedAt: int, o: Options)
    ensures var q' := Beat(q, at, startedAt, o);
            StatesOf(q'.lines) == StatesOf(q.lines) && q'.memory.previous == q.memory.previous && q'.exit == q.exit
  {
    StatesOfEmit(q, at, Heartbeat(if q.memory.blind.Some? then "unobservable" else q.memory.lastState, at - startedAt));
  }

  lemma ReactStates(r: Output, at: int, result: ReadResult, startedAt: int, o: Options)
    requires r.exit.None?
    ensures AddsSighting(r, React(r, at, result, startedAt, o), IsNews(r, at, result, o), SightingOf(result))
  {
    ObservedStates(r, at, result, startedAt, o);
    BeatStates(Observed(r, at, result, startedAt, o), at, startedAt, o);
  }

  lemma {:induction false} UntilTerminalIsPrefix(s: seq<Observation>)
    ensures |UntilTerminal(s)| <= |s|
  {
    if s == [] {
    } else {
      UntilTerminalIsPrefix(s[..|s| - 1]);
    }
  }

  lemma StutterlessOneMore<T>(s: seq<T>, x: T)
    ensures Stutterless(s + [x]) == if s != [] && s[|s| - 1] == x then Stutterless(s) else Stutterless(s) + [x]
  {
    assert (s + [x])[..|s|] == s;
  }

  lemma UntilTerminalOneMore(s: seq<Observation>, x: Observation)
    requires UntilTerminal(s) == s && (s == [] || !IsTerminalObservation(s[|s| - 1]))
    ensures UntilTerminal(s + [x]) == s + [x]
  {
    assert (s + [x])[..|s|] == s;
  }

  lemma UntilTerminalIsFinal(s: seq<Observation>, x: Observation)
    requires var t := UntilTerminal(s); t != [] && IsTerminalObservation(t[|t| - 1])
    ensures UntilTerminal(s + [x]) == UntilTerminal(s)
  {
    assert (s + [x])[..|s|] == s;
  }

  lemma ReportsOneMore(sightings: seq<Observation>, r: Output, r': Output, obs: Observation)
    requires Reports(sightings, r) && r.exit.None?
    requires AddsSighting(r, r', r.memory.previous != Some(obs), obs)
    ensures Reports(sightings + [obs], r')
  {
    StutterlessOneMore(sightings, obs);
    UntilTerminalOneMore(Stutterless(sightings), obs);
  }

  lemma ReportIsFinal(sightings: seq<Observation>, r: Output, obs: Observation)
    requires Reports(sightings, r) && r.exit.Some?
    ensures Reports(sightings + [obs], r)
  {
    StutterlessOneMore(sightings, obs);
    UntilTerminalIsFinal(Stutterless(sightings), obs);
  }

  /** Over any polls at all: the observations behind the state lines are the stutter-free sequence of
      sightings up to the first terminal one. Polls that saw nothing do not reset the comparison. */
  lemma {:induction false} StateLinesAreSightings(polls: seq<Poll>, startedAt: int, o: Options)
    ensures Reports(Sightings(polls, o), Transduce(polls, startedAt, o))
  {
    if polls == [] {
    } else {
      var before, p := polls[..|polls| - 1], polls[|polls| - 1];
      StateLinesAreSightings(before, startedAt, o);
      var r, r' := Transduce(before, startedAt, o), Transduce(polls, startedAt, o);
      if r.exit.None? && p.result.Some? { ReactStates(r, p.endedAt, p.result.value, startedAt, o); }
      if Reportable(p, o) && r.exit.None? { ReportsOneMore(Sightings(before, o), r, r', p.result.value.observation); }
      if Reportable(p, o) && r.exit.Some? { ReportIsFinal(Sightings(before, o), r, p.result.value.observation); }
    }
  }

  lemma {:induction false} StutterlessElements<T>(s: seq<T>)
    ensures forall x :: x in Stutterless(s) ==> x in s
  {
    if |s| <= 1 {
    } else {
      StutterlessElements(s[..|s| - 1]);
    }
  }

  lemma {:induction false} UntilTerminalElements(s: seq<Observation>)
    ensures forall x :: x in UntilTerminal(s) ==> x in s
  {
    if s == [] {
    } else {
      UntilTerminalElements(s[..|s| - 1]);
    }
  }

  lemma {:induction false} SightingsElements(polls: seq<Poll>, o: Options)
    ensures forall x :: x in Sightings(polls, o) ==>
              exists k :: 0 <= k < |polls| && Reportable(polls[k], o) && polls[k].result.value.observation == x
  {
    if polls == [] {
    } else {
      var before, p := polls[..|polls| - 1], polls[|polls| - 1];
      SightingsElements(before, o);
      forall x | x in Sightings(polls, o)
        ensures exists k :: 0 <= k < |polls| && Reportable(polls[k], o) && polls[k].result.value.observation == x
      {
        if x in Sightings(before, o) {
          var k :| 0 <= k < |before| && Reportable(before[k], o) && before[k].result.value.observation == x;
          assert Reportable(polls[k], o) && polls[k].result.value.observation == x;
        }
      }
    }
  }

  // ---- The documented tuple ----

  /** The fields README.md names as the ones whose change makes a new state line. */
  function DocumentedTuple(o: Observation): (string, Option<string>, Option<int>, Option<int>)
    requires o.Active?
  {
    (o.state, o.holdReason, o.round, o.queuePosition)
  }

  predicate SameTuple(a: Observation, b: Observation) {
    a.Active? && b.Active? && DocumentedTuple(a) == DocumentedTuple(b)
  }

  /** The program compares more than the tuple. */
  predicate DetailsChange(a: Observation, b: Observation)
    requires a.Active? && b.Active?
  {
    a.eventId != b.eventId || a.autoPause != b.autoPause
  }

  lemma {:induction false} StutterlessSteps<T>(s: seq<T>, i: nat)
    requires 0 < i < |Stutterless(s)|
    ensures Stutterless(s)[i - 1] != Stutterless(s)[i]
  {
    var init := s[..|s| - 1];
    if i < |Stutterless(init)| {
      StutterlessSteps(init, i);
    } else {
      assert Stutterless(init)[|Stutterless(init)| - 1] == init[|init| - 1];
    }
  }

  lemma {:induction false} UntilTerminalKeepsOrder(s: seq<Observation>)
    ensures UntilTerminal(s) <= s
  {
    if s == [] {
    } else {
      UntilTerminalKeepsOrder(s[..|s| - 1]);
    }
  }

  /** Over any polls: of two state lines in a row with one tuple, the second has another event id or other auto-pause details. */
  lemma RepeatedTupleHasNewDetails(polls: seq<Poll>, startedAt: int, o: Options, i: nat)
    requires 0 < i < |StatesOf(Transduce(polls, startedAt, o).lines)|
    ensures var states := StatesOf(Transduce(polls, startedAt, o).lines);
            SameTuple(states[i - 1], states[i]) ==> DetailsChange(states[i - 1], states[i])
  {
    StateLinesAreSightings(polls, startedAt, o);
    var seen := Stutterless(Sightings(polls, o));
    UntilTerminalKeepsOrder(seen);
    StutterlessSteps(Sightings(polls, o), i);
  }

  /** The documentation says a state line follows a change of the tuple. What the program does with a sighting whose tuple
      is that of the last state line: it writes one exactly when the event id or the auto-pause details have changed. */
  lemma RepeatedTupleIsReportedWhen(polls: seq<Poll>, p: Poll, startedAt: int, o: Options)
    requires Transduce(polls, startedAt, o).exit.None? && Reportable(p, o)
    requires var states := StatesOf(Transduce(polls, startedAt, o).lines);
             states != [] && SameTuple(states[|states| - 1], p.result.value.observation)
    ensures var states := StatesOf(Transduce(polls, startedAt, o).lines);
            var last, next := states[|states| - 1], p.result.value.observation;
            StatesOf(Transduce(polls + [p], startedAt, o).lines) == states + (if DetailsChange(last, next) then [next] else [])
  {
    var r := Transduce(polls, startedAt, o);
    assert (polls + [p])[..|polls|] == polls;
    StateLinesAreSightings(polls, startedAt, o);
    ReactStates(r, p.endedAt, p.result.value, startedAt, o);
    assert r.memory.previous == Some(StatesOf(r.lines)[|StatesOf(r.lines)| - 1]);
  }

  lemma SeenOnce(a: Observation)
    ensures Stutterless([a]) == [a] && UntilTerminal([a]) == [a]
  {
    UntilTerminalOneMore([], a);
    assert [] + [a] == [a];
  }

  lemma SeenTwice(a: Observation, b: Observation)
    requires !IsTerminalObservation(a) && a != b
    ensures Stutterless([a, b]) == [a, b] && UntilTerminal([a, b]) == [a, b]
  {
    SeenOnce(a);
    StutterlessOneMore([a], b);
    UntilTerminalOneMore([a], b);
    assert [a] + [b] == [a, b];
  }

  /** Two different sightings that are not terminal are all that a run with no more of them writes. */
  lemma TwoSightings(sightings: seq<Observation>, r: Output, a: Observation, b: Observation)
    requires Reports(sightings, r) && !IsTerminalObservation(a) && !IsTerminalObservation(b) && a != b
    requires sightings == [a] || sightings == [a, b]
    ensures r.exit.None? && StatesOf(r.lines) == sightings
  {
    SeenOnce(a);
    SeenTwice(a, b);
  }

  lemma ReportStates(polls: seq<Poll>, finishedAt: int, startedAt: int, o: Options)
    ensures StatesOf(Report(polls, finishedAt, startedAt, o).lines) == StatesOf(Transduce(polls, startedAt, o).lines)
  {
    StatesOfEmit(Transduce(polls, startedAt, o), finishedAt, Timeout(finishedAt - startedAt));
  }

  // ---- The grammar of the lines ----

  datatype Mode =
    | Watching(blind: Option<Reason>, notReceived: bool, last: string)
    | MustAct
    | Over(exit: int)

  /** The lines that may follow, and what they lead to. */
  function Next(m: Mode, body: Body): Option<Mode> {
    if m.Over? then None
    else if m.MustAct? then (if body.ActionRequired? then Some(Over(EXIT_ACTION_REQUIRED)) else None)
    else
      match body
      case Timeout(_) => Some(Over(EXIT_TIMEOUT))
      case Heartbeat(state, _) => if state == (if m.blind.Some? then "unobservable" else m.last) then Some(m) else None
      case UnobservableLine(why, _) => if m.blind == Some(why) then None else Some(m.(blind := Some(why)))
      case Recovered => if m.blind.Some? then Some(m.(blind := None)) else None
      case NotReceived(_, _) => if m.blind.Some? || m.notReceived then None else Some(m.(notReceived := true))
      case ActionRequired => None
      case StateLine(obs) =>
        if m.blind.Some? || obs.NoEntry? then None
        else if obs.Finished? then Some(Over(ExitOf(obs)))
        else if AwaitsUser(obs) then Some(MustAct)
        else Some(m.(last := StateName(obs)))
  }

  function ModeAfter(lines: seq<Line>): Option<Mode> {
    if lines == [] then Some(Watching(None, false, "none")) else
    match ModeAfter(lines[..|lines| - 1])
    case None => None
    case Some(m) => Next(m, lines[|lines| - 1].body)
  }

  ghost predicate InMode(r: Output) {
    ModeAfter(r.lines) ==
    Some(match r.exit
         case Some(e) => Over(e)
         case None => Watching(r.memory.blind, r.memory.notReceivedReported, r.memory.lastState))
  }

  lemma ModeAfterEmit(r: Output, at: int, body: Body)
    requires ModeAfter(r.lines).Some?
    ensures ModeAfter(Emit(r, at, body).lines) == Next(ModeAfter(r.lines).value, body)
  {
    assert Emit(r, at, body).lines[..|r.lines|] == r.lines;
  }

  lemma ObservedKeepsGrammar(r: Output, at: int, result: ReadResult, startedAt: int, o: Options)
    requires r.exit.None? && InMode(r)
    ensures InMode(Observed(r, at, result, startedAt, o))
  {
    match Blindness(at, result, o) {
      case Some(why) =>
        ModeAfterEmit(r, at, UnobservableLine(why, AgeMs(at, result)));
      case None =>
        ModeAfterEmit(r, at, Recovered);
        HandleKeepsGrammar(ReportRecovery(r, at), at, result.observation, startedAt, o);
    }
  }

  lemma BeatKeepsGrammar(q: Output, at: int, startedAt: int, o: Options)
    requires q.exit.None? && InMode(q)
    ensures InMode(Beat(q, at, startedAt, o))
  {
    ModeAfterEmit(q, at, Heartbeat(if q.memory.blind.Some? then "unobservable" else q.memory.lastState, at - startedAt));
  }

  lemma ReactKeepsGrammar(r: Output, at: int, result: ReadResult, startedAt: int, o: Options)
    requires r.exit.None? && InMode(r)
    ensures InMode(React(r, at, result, startedAt, o))
  {
    var q := Observed(r, at, result, startedAt, o);
    ObservedKeepsGrammar(r, at, result, startedAt, o);
    if q.exit.None? { BeatKeepsGrammar(q, at, startedAt, o); }
  }

  lemma SightingKeepsGrammar(s: Output, at: int, obs: Observation)
    requires ModeAfter(s.lines).Some? && ModeAfter(s.lines).value.Watching? && !obs.NoEntry?
    requires ModeAfter(s.lines).value.blind.None?
    ensures var m, s1 := ModeAfter(s.lines).value, Emit(s, at, StateLine(obs));
            if obs.Finished? then ModeAfter(s1.lines) == Some(Over(ExitOf(obs)))
            else if AwaitsUser(obs) then ModeAfter(Emit(s1, at, ActionRequired).lines) == Some(Over(EXIT_ACTION_REQUIRED))
            else ModeAfter(s1.lines) == Some(m.(last := StateName(obs)))
  {
    ModeAfterEmit(s, at, StateLine(obs));
    if AwaitsUser(obs) { ModeAfterEmit(Emit(s, at, StateLine(obs)), at, ActionRequired); }
  }

  lemma HandleKeepsGrammar(r: Output, at: int, obs: Observation, startedAt: int, o: Options)
    requires r.exit.None? && r.memory.blind.None? && InMode(r)
    ensures InMode(HandleObservation(r, at, obs, startedAt, o))
  {
    if obs.NoEntry? {
      ModeAfterEmit(r, at, NotReceived(at - startedAt, obs.previousRound));
    } else if r.memory.previous != Some(obs) {
      SightingKeepsGrammar(r.(memory := r.memory.(previous := Some(obs), lastState := StateName(obs))), at, obs);
    }
  }

  lemma {:induction false} TransduceKeepsGrammar(polls: seq<Poll>, startedAt: int, o: Options)
    ensures InMode(Transduce(polls, startedAt, o))
  {
    if polls == [] {
    } else {
      var before, p := polls[..|polls| - 1], polls[|polls| - 1];
      TransduceKeepsGrammar(before, startedAt, o);
      var r := Transduce(before, startedAt, o);
      if r.exit.None? && p.result.Some? { ReactKeepsGrammar(r, p.endedAt, p.result.value, startedAt, o); }
    }
  }

  /** Every complete output is a sentence of the grammar, and its last line determines the exit code. */
  lemma ReportIsGrammatical(polls: seq<Poll>, finishedAt: int, startedAt: int, o: Options)
    ensures var r := Report(polls, finishedAt, startedAt, o);
            r.exit.Some? && ModeAfter(r.lines) == Some(Over(r.exit.value))
  {
    TransduceKeepsGrammar(polls, startedAt, o);
    ModeAfterEmit(Transduce(polls, startedAt, o), finishedAt, Timeout(finishedAt - startedAt));
  }

  predicate IsTerminal(body: Body) {
    body.Timeout? || body.ActionRequired? || (body.StateLine? && body.observation.Finished?)
  }

  /** The reason of the last `unobservable` line that no `recovered` line has answered. */
  function OpenReason(lines: seq<Line>): Option<Reason> {
    if lines == [] then None else
    match lines[|lines| - 1].body
    case UnobservableLine(why, _) => Some(why)
    case Recovered => None
    case _ => OpenReason(lines[..|lines| - 1])
  }

  predicate Announced(lines: seq<Line>) {
    lines != [] && (lines[|lines| - 1].body.NotReceived? || Announced(lines[..|lines| - 1]))
  }

  /** The name of the state that the last state line shows. */
  function LastShown(lines: seq<Line>): string {
    if lines == [] then "none" else
    match lines[|lines| - 1].body
    case StateLine(Active(state, _, _, _, _, _)) => state
    case _ => LastShown(lines[..|lines| - 1])
  }

  lemma {:induction false} ModeMeans(lines: seq<Line>)
    requires ModeAfter(lines).Some?
    ensures var m := ModeAfter(lines).value;
            && (m.Watching? ==> m.blind == OpenReason(lines) && (m.notReceived <==> Announced(lines)) && m.last == LastShown(lines))
            && (m.MustAct? ==> OpenReason(lines).None? && |lines| > 0 && lines[|lines| - 1].body.StateLine?
                               && AwaitsUser(lines[|lines| - 1].body.observation))
            && (m.Over? <==> |lines| > 0 && IsTerminal(lines[|lines| - 1].body))
  {
    if lines == [] {
    } else {
      ModeMeans(lines[..|lines| - 1]);
    }
  }

  /** What a grammatical output promises about the line at position i. */
  ghost predicate LineInContext(lines: seq<Line>, i: nat)
    requires i < |lines|
  {
    var before, body := lines[..i], lines[i].body;
    && (IsTerminal(body) <==> i == |lines| - 1)
    && (body.Recovered? ==> OpenReason(before).Some?)
    && (body.UnobservableLine? ==> OpenReason(before) != Some(body.why))
    && (body.StateLine? || body.NotReceived? || body.ActionRequired? ==> OpenReason(before).None?)
    && (body.NotReceived? ==> !Announced(before))
    && (body.ActionRequired? <==> i > 0 && lines[i - 1].body.StateLine? && AwaitsUser(lines[i - 1].body.observation))
    && (body.Heartbeat? ==> body.state == if OpenReason(before).Some? then "unobservable" else LastShown(before))
  }

  lemma {:induction false} GrammaticalPrefix(lines: seq<Line>, i: nat)
    requires ModeAfter(lines).Some? && i <= |lines|
    ensures ModeAfter(lines[..i]).Some?
  {
    if i < |lines| {
      var before := lines[..|lines| - 1];
      GrammaticalPrefix(before, i);
      assert before[..i] == lines[..i];
    } else {
      assert lines[..i] == lines;
    }
  }

  /** The mode before line i, and the mode it leads to. */
  lemma ModesAround(lines: seq<Line>, i: nat)
    requires ModeAfter(lines).Some? && i < |lines|
    ensures ModeAfter(lines[..i]).Some? && ModeAfter(lines[..i + 1]) == Next(ModeAfter(lines[..i]).value, lines[i].body)
    ensures ModeAfter(lines[..i + 1]).Some?
  {
    GrammaticalPrefix(lines, i);
    GrammaticalPrefix(lines, i + 1);
    assert lines[..i + 1][..i] == lines[..i];
  }

  lemma TerminalIsLast(lines: seq<Line>, exit: int, i: nat)
    requires ModeAfter(lines) == Some(Over(exit)) && i < |lines|
    ensures IsTerminal(lines[i].body) <==> i == |lines| - 1
  {
    ModeMeans(lines);
    ModesAround(lines, i);
    ModeMeans(lines[..i + 1]);
    if i + 1 < |lines| { ModesAround(lines, i + 1); }
  }

  lemma ActionFollowsItsState(lines: seq<Line>, i: nat)
    requires ModeAfter(lines).Some? && i < |lines|
    ensures lines[i].body.ActionRequired? <==> i > 0 && lines[i - 1].body.StateLine? && AwaitsUser(lines[i - 1].body.observation)
  {
    ModesAround(lines, i);
    ModeMeans(lines[..i]);
    if i > 0 { ModesAround(lines, i - 1); }
  }

  lemma GrammarInContext(lines: seq<Line>, exit: int, i: nat)
    requires ModeAfter(lines) == Some(Over(exit)) && i < |lines|
    ensures LineInContext(lines, i)
  {
    TerminalIsLast(lines, exit, i);
    ActionFollowsItsState(lines, i);
    ModesAround(lines, i);
    ModeMeans(lines[..i]);
  }

  // ---- The exit code ----

  predicate Completed(o: Observation) {
    o.Finished? && o.outcome == Some("completed") && (o.exitCode.None? || o.exitCode == Some(0))
  }

  predicate WaitsForUser(o: Observation) {
    o.Active? && o.state == "waiting" && o.holdReason == Some("manual")
  }

  /** The exit code, by the last line: 0 for a completed review, 1 for any other that finished, 3 for one that waits for the
      user, which ends the watch at once, 4 for a timeout. */
  ghost predicate ExitMeans(exit: int, lines: seq<Line>) {
    var n := |lines|;
    && n > 0 && exit in {0, 1, 3, 4}
    && (exit == 0 <==> lines[n - 1].body.StateLine? && Completed(lines[n - 1].body.observation))
    && (exit == 1 <==> lines[n - 1].body.StateLine? && lines[n - 1].body.observation.Finished? && !Completed(lines[n - 1].body.observation))
    && (exit == 3 <==> lines[n - 1].body.ActionRequired?)
    && (exit == 3 ==> n > 1 && lines[n - 2].body.StateLine? && WaitsForUser(lines[n - 2].body.observation))
    && (exit == 4 <==> lines[n - 1].body.Timeout?)
    && forall i :: 0 <= i < n && lines[i].body.StateLine? && WaitsForUser(lines[i].body.observation) ==> i == n - 2 && exit == 3
  }

  lemma GrammarFixesExit(lines: seq<Line>, exit: int)
    requires ModeAfter(lines) == Some(Over(exit))
    ensures ExitMeans(exit, lines)
  {
    var n := |lines|;
    ModesAround(lines, n - 1);
    ModeMeans(lines[..n - 1]);
    assert lines[..n] == lines;
    ActionFollowsItsState(lines, n - 1);
    forall i | 0 <= i < n && lines[i].body.StateLine? && WaitsForUser(lines[i].body.observation) ensures i == n - 2 && exit == 3 {
      if i < n - 1 {
        ActionFollowsItsState(lines, i + 1);
        TerminalIsLast(lines, exit, i + 1);
      }
    }
  }

  lemma ReportFixesExit(polls: seq<Poll>, finishedAt: int, startedAt: int, o: Options)
    ensures var r := Report(polls, finishedAt, startedAt, o);
            r.exit.Some? && ExitMeans(r.exit.value, r.lines)
  {
    ReportIsGrammatical(polls, finishedAt, startedAt, o);
    var r := Report(polls, finishedAt, startedAt, o);
    GrammarFixesExit(r.lines, r.exit.value);
  }

  // ---- What the lines say ----

  /** Why a poll's accepted result shows nothing of the review: it could not be observed, or is older than staleMs. */
  predicate BlindTo(p: Poll, why: Option<Reason>, o: Options)
    requires p.result.Some?
  {
    match p.result.value
    case Unobservable(reason) => why == Some(reason)
    case Readable(updatedAtMs, _) => why == if p.endedAt - updatedAtMs > o.staleMs then Some(Stale) else None
  }

  /** What a line says of the poll after which it was written. */
  predicate LineOfPoll(line: Line, p: Poll, startedAt: int, o: Options) {
    && line.at == p.endedAt && p.result.Some?
    && match line.body
       case StateLine(obs) => BlindTo(p, None, o) && obs == p.result.value.observation && !obs.NoEntry?
       case ActionRequired => BlindTo(p, None, o) && WaitsForUser(p.result.value.observation)
       case NotReceived(waitedMs, previousRound) =>
         && BlindTo(p, None, o) && p.result.value.observation == NoEntry(previousRound)
         && waitedMs == p.endedAt - startedAt && waitedMs >= o.notReceivedMs
       case UnobservableLine(why, ageMs) =>
         && BlindTo(p, Some(why), o)
         && ageMs == if p.result.value.Readable? then Some(p.endedAt - p.result.value.updatedAtMs) else None
       case Recovered => BlindTo(p, None, o)
       case Heartbeat(_, elapsedMs) => elapsedMs == p.endedAt - startedAt
       case Timeout(_) => false
  }

  /** `r'` adds to `r` only lines that say so of p. */
  ghost predicate AddsOf(r: Output, r': Output, p: Poll, startedAt: int, o: Options) {
    && |r.lines| <= |r'.lines| && r'.lines[..|r.lines|] == r.lines
    && forall i :: |r.lines| <= i < |r'.lines| ==> LineOfPoll(r'.lines[i], p, startedAt, o)
  }

  lemma EmitsOf(r: Output, p: Poll, body: Body, startedAt: int, o: Options)
    requires LineOfPoll(Line(p.endedAt, body), p, startedAt, o)
    ensures AddsOf(r, Emit(r, p.endedAt, body), p, startedAt, o)
  {
  }

  lemma AddsOfTwice(r: Output, r': Output, r'': Output, p: Poll, startedAt: int, o: Options)
    requires AddsOf(r, r', p, startedAt, o) && AddsOf(r', r'', p, startedAt, o)
    ensures AddsOf(r, r'', p, startedAt, o)
  {
    assert r''.lines[..|r.lines|] == r''.lines[..|r'.lines|][..|r.lines|];
    forall i | |r.lines| <= i < |r'.lines| ensures r''.lines[i] == r'.lines[i] {
      assert r''.lines[..|r'.lines|][i] == r''.lines[i];
    }
  }

  lemma HandledOf(r: Output, p: Poll, startedAt: int, o: Options)
    requires p.result.Some? && BlindTo(p, None, o)
    ensures AddsOf(r, HandleObservation(r, p.endedAt, p.result.value.observation, startedAt, o), p, startedAt, o)
  {
    var obs := p.result.value.observation;
    if !obs.NoEntry? {
      var s := r.(memory := r.memory.(previous := Some(obs), lastState := StateName(obs)));
      var s1 := Emit(s, p.endedAt, StateLine(obs));
      EmitsOf(s, p, StateLine(obs), startedAt, o);
      if AwaitsUser(obs) {
        EmitsOf(s1, p, ActionRequired, startedAt, o);
        AddsOfTwice(s, s1, Emit(s1, p.endedAt, ActionRequired), p, startedAt, o);
      }
    }
  }

  lemma ObservedOf(r: Output, p: Poll, startedAt: int, o: Options)
    requires p.result.Some?
    ensures AddsOf(r, Observed(r, p.endedAt, p.result.value, startedAt, o), p, startedAt, o)
  {
    match Blindness(p.endedAt, p.result.value, o) {
      case Some(why) => EmitsOf(r, p, UnobservableLine(why, AgeMs(p.endedAt, p.result.value)), startedAt, o);
      case None =>
        var s := ReportRecovery(r, p.endedAt);
        EmitsOf(r, p, Recovered, startedAt, o);
        HandledOf(s, p, startedAt, o);
        AddsOfTwice(r, s, HandleObservation(s, p.endedAt, p.result.value.observation, startedAt, o), p, startedAt, o);
    }
  }

  lemma ReactsOf(r: Output, p: Poll, startedAt: int, o: Options)
    requires p.result.Some?
    ensures AddsOf(r, React(r, p.endedAt, p.result.value, startedAt, o), p, startedAt, o)
  {
    var s := Observed(r, p.endedAt, p.result.value, startedAt, o);
    ObservedOf(r, p, startedAt, o);
    if s.exit.None? {
      var state := if s.memory.blind.Some? then "unobservable" else s.memory.lastState;
      EmitsOf(s, p, Heartbeat(state, p.endedAt - startedAt), startedAt, o);
      AddsOfTwice(r, s, Beat(s, p.endedAt, startedAt, o), p, startedAt, o);
    }
  }

  /** Over any polls: every line is written when a poll ends, and says of that poll what it should. */
  lemma {:induction false} LinesTellOfPolls(polls: seq<Poll>, startedAt: int, o: Options, i: nat)
    requires i < |Transduce(polls, startedAt, o).lines|
    ensures exists k :: 0 <= k < |polls| && LineOfPoll(Transduce(polls, startedAt, o).lines[i], polls[k], startedAt, o)
  {
    if polls == [] {
    } else {
      var before, p := polls[..|polls| - 1], polls[|polls| - 1];
      var r := Transduce(before, startedAt, o);
      if p.result.Some? { ReactsOf(r, p, startedAt, o); }
      if i < |r.lines| {
        LinesTellOfPolls(before, startedAt, o, i);
        var k :| 0 <= k < |before| && LineOfPoll(r.lines[i], before[k], startedAt, o);
        assert polls[k] == before[k] && Transduce(polls, startedAt, o).lines[..|r.lines|][i] == r.lines[i];
      }
    }
  }

  /** And a run that times out says how long it ran. */
  lemma TimeoutTells(polls: seq<Poll>, finishedAt: int, startedAt: int, o: Options)
    requires Transduce(polls, startedAt, o).exit.None?
    ensures Report(polls, finishedAt, startedAt, o).lines
            == Transduce(polls, startedAt, o).lines + [Line(finishedAt, Timeout(finishedAt - startedAt))]
  {
  }

  /** As long as the watch goes on, the reason that its lines leave open is the one the last accepted poll gives, if any. */
  lemma OpenReasonIsTheLast(polls: seq<Poll>, startedAt: int, o: Options)
    requires polls != [] && Transduce(polls, startedAt, o).exit.None? && polls[|polls| - 1].result.Some?
    ensures BlindTo(polls[|polls| - 1], OpenReason(Transduce(polls, startedAt, o).lines), o)
  {
    var p, r := polls[|polls| - 1], Transduce(polls[..|polls| - 1], startedAt, o);
    TransduceKeepsGrammar(polls, startedAt, o);
    ModeMeans(Transduce(polls, startedAt, o).lines);
    BlindAfter(r, p.endedAt, p.result.value, startedAt, o);
  }

  lemma BlindAfter(r: Output, at: int, result: ReadResult, startedAt: int, o: Options)
    ensures React(r, at, result, startedAt, o).memory.blind == Blindness(at, result, o)
  {
  }

  // ---- When not_received is announced ----

  predicate MissingTooLong(p: Poll, startedAt: int, o: Options) {
    && p.result.Some? && Blindness(p.endedAt, p.result.value, o).None?
    && p.result.value.observation.NoEntry? && p.endedAt - startedAt >= o.notReceivedMs
  }

  predicate SomeMissingTooLong(polls: seq<Poll>, startedAt: int, o: Options) {
    polls != [] && (MissingTooLong(polls[|polls| - 1], startedAt, o) || SomeMissingTooLong(polls[..|polls| - 1], startedAt, o))
  }

  lemma ReactAnnounces(r: Output, p: Poll, startedAt: int, o: Options)
    requires r.exit.None? && p.result.Some?
    ensures React(r, p.endedAt, p.result.value, startedAt, o).memory.notReceivedReported
            <==> r.memory.notReceivedReported || MissingTooLong(p, startedAt, o)
  {
  }

  lemma {:induction false} MissingIsRemembered(polls: seq<Poll>, startedAt: int, o: Options)
    requires Transduce(polls, startedAt, o).exit.None?
    ensures Transduce(polls, startedAt, o).memory.notReceivedReported <==> SomeMissingTooLong(polls, startedAt, o)
  {
    if polls == [] {
    } else {
      var before, p := polls[..|polls| - 1], polls[|polls| - 1];
      MissingIsRemembered(before, startedAt, o);
      if p.result.Some? { ReactAnnounces(Transduce(before, startedAt, o), p, startedAt, o); }
    }
  }

  /** not_received has been written exactly when some accepted poll saw no entry after the waiting time. */
  lemma NotReceivedExactlyWhen(polls: seq<Poll>, startedAt: int, o: Options)
    requires Transduce(polls, startedAt, o).exit.None?
    ensures Announced(Transduce(polls, startedAt, o).lines) <==> SomeMissingTooLong(polls, startedAt, o)
  {
    MissingIsRemembered(polls, startedAt, o);
    TransduceKeepsGrammar(polls, startedAt, o);
    ModeMeans(Transduce(polls, startedAt, o).lines);
  }

  // ---- Time ----

  function Deadline(startedAt: int, o: Options): int {
    startedAt + o.timeoutMs
  }

  /** Poll p fits after poll `before` (None: it is the first). */
  predicate Fits(p: Poll, before: Option<Poll>, startedAt: int, o: Options) {
    && p.startedAt <= p.endedAt <= Deadline(startedAt, o) && p.startedAt < Deadline(startedAt, o)
    && 1 <= p.attempts <= 3
    && (p.result.Some? <==> p.endedAt < Deadline(startedAt, o))
    && p.startedAt == if before.None? then startedAt else before.value.endedAt + o.intervalMs
  }

  function Last(polls: seq<Poll>): Option<Poll> {
    if polls == [] then None else Some(polls[|polls| - 1])
  }

  /** How the loop spaces its polls on a clock that only sleeps and reads move. */
  ghost predicate Spaced(polls: seq<Poll>, startedAt: int, o: Options) {
    polls != [] ==>
      var before := polls[..|polls| - 1];
      Spaced(before, startedAt, o) && Fits(polls[|polls| - 1], Last(before), startedAt, o)
  }

  lemma SpacedOneMore(polls: seq<Poll>, p: Poll, startedAt: int, o: Options)
    requires Spaced(polls, startedAt, o) && Fits(p, Last(polls), startedAt, o)
    ensures Spaced(polls + [p], startedAt, o)
  {
    assert (polls + [p])[..|polls|] == polls;
  }

  /** A complete run: spaced polls, no poll after the one that exits, and the time the run ends. */
  ghost predicate Scheduled(polls: seq<Poll>, finishedAt: int, startedAt: int, o: Options) {
    var deadline := Deadline(startedAt, o);
    && Spaced(polls, startedAt, o) && polls != []
    && Transduce(polls[..|polls| - 1], startedAt, o).exit.None?
    && (if Transduce(polls, startedAt, o).exit.Some? then finishedAt == polls[|polls| - 1].endedAt < deadline
        else finishedAt == deadline && deadline <= polls[|polls| - 1].endedAt + o.intervalMs)
  }

  lemma {:induction false} PollsStartApart(polls: seq<Poll>, startedAt: int, o: Options)
    requires Spaced(polls, startedAt, o) && polls != []
    ensures polls[|polls| - 1].startedAt >= startedAt + (|polls| - 1) * o.intervalMs
  {
    var before := polls[..|polls| - 1];
    if before == [] {
    } else {
      PollsStartApart(before, startedAt, o);
      AddOne(|before| - 1, o.intervalMs);
    }
  }

  lemma AddOne(n: int, d: int)
    ensures n * d + d == (n + 1) * d
  {
  }

  /** At most ceil(timeoutMs / intervalMs) polls. */
  lemma PollsAreBounded(polls: seq<Poll>, finishedAt: int, startedAt: int, o: Options)
    requires Accepted(o) && Scheduled(polls, finishedAt, startedAt, o)
    ensures |polls| <= (o.timeoutMs + o.intervalMs - 1) / o.intervalMs
  {
    PollsStartApart(polls, startedAt, o);
    CeilBound(|polls| - 1, o.timeoutMs, o.intervalMs);
  }

  lemma CeilBound(n: nat, t: int, d: int)
    requires d > 0 && n * d <= t - 1
    ensures n + 1 <= (t + d - 1) / d
  {
    var q := (t + d - 1) / d;
    assert t + d - 1 == q * d + (t + d - 1) % d;
    if q <= n { MulMonotone(q, n, d); }
  }

  // ---- When lines are written ----

  function LastAt(lines: seq<Line>, from: int): int {
    if lines == [] then from else lines[|lines| - 1].at
  }

  /** `r'` adds to `r` only lines written at time `at`. */
  ghost predicate Adds(r: Output, r': Output, at: int) {
    && |r.lines| <= |r'.lines| && r'.lines[..|r.lines|] == r.lines
    && (forall i :: |r.lines| <= i < |r'.lines| ==> r'.lines[i].at == at)
    && r'.memory.lastEmitAt == if |r'.lines| == |r.lines| then r.memory.lastEmitAt else at
  }

  ghost predicate NoBeatFrom(r': Output, n: nat) {
    forall i :: n <= i < |r'.lines| ==> !r'.lines[i].body.Heartbeat?
  }

  lemma EmitAdds(r: Output, at: int, body: Body)
    ensures Adds(r, Emit(r, at, body), at)
    ensures !body.Heartbeat? ==> NoBeatFrom(Emit(r, at, body), |r.lines|)
  {
  }

  lemma AddsTwice(r: Output, r': Output, r'': Output, at: int)
    requires Adds(r, r', at) && NoBeatFrom(r', |r.lines|) && Adds(r', r'', at) && NoBeatFrom(r'', |r'.lines|)
    ensures Adds(r, r'', at) && NoBeatFrom(r'', |r.lines|)
  {
    assert forall i :: 0 <= i < |r'.lines| ==> r'.lines[i] == r''.lines[i];
  }

  ghost predicate ExitsOnALine(r: Output, q: Output) {
    q.exit.Some? ==> |q.lines| > |r.lines| && q.exit != Some(EXIT_TIMEOUT) && !q.lines[|q.lines| - 1].body.Timeout?
  }

  lemma HandleAdds(r: Output, at: int, obs: Observation, startedAt: int, o: Options)
    requires r.exit.None?
    ensures var q := HandleObservation(r, at, obs, startedAt, o);
            Adds(r, q, at) && NoBeatFrom(q, |r.lines|) && ExitsOnALine(r, q)
  {
    if !obs.NoEntry? && r.memory.previous != Some(obs) {
      var s := r.(memory := r.memory.(previous := Some(obs), lastState := StateName(obs)));
      var s1 := Emit(s, at, StateLine(obs));
      EmitAdds(s, at, StateLine(obs));
      EmitAdds(s1, at, ActionRequired);
      AddsTwice(s, s1, Emit(s1, at, ActionRequired), at);
    }
  }

  lemma ObservedAdds(r: Output, at: int, result: ReadResult, startedAt: int, o: Options)
    requires r.exit.None?
    ensures var q := Observed(r, at, result, startedAt, o);
            Adds(r, q, at) && NoBeatFrom(q, |r.lines|) && ExitsOnALine(r, q)
  {
    if Blindness(at, result, o).None? {
      var s := ReportRecovery(r, at);
      HandleAdds(s, at, result.observation, startedAt, o);
      AddsTwice(r, s, HandleObservation(s, at, result.observation, startedAt, o), at);
    }
  }

  /** Every line follows the one before it (the first: `from`) by less than `bound`,
      and a heartbeat by no less than heartbeatMs. */
  ghost predicate Paced(lines: seq<Line>, from: int, bound: int, heartbeatMs: int) {
    lines == [] ||
    var before, line := lines[..|lines| - 1], lines[|lines| - 1];
    var gap := line.at - LastAt(before, from);
    Paced(before, from, bound, heartbeatMs) && 0 <= gap < bound && (line.body.Heartbeat? ==> gap >= heartbeatMs)
  }

  lemma PacedOneMore(lines: seq<Line>, line: Line, from: int, bound: int, heartbeatMs: int)
    requires Paced(lines, from, bound, heartbeatMs)
    requires 0 <= line.at - LastAt(lines, from) < bound
    requires line.body.Heartbeat? ==> line.at - LastAt(lines, from) >= heartbeatMs
    ensures Paced(lines + [line], from, bound, heartbeatMs)
    ensures LastAt(lines + [line], from) == line.at
  {
    assert (lines + [line])[..|lines|] == lines;
  }

  lemma {:induction false} PacedMore(r: Output, r': Output, at: int, n: nat, from: int, bound: int, heartbeatMs: int)
    requires Adds(r, r', at) && NoBeatFrom(r', |r.lines|) && |r.lines| <= n <= |r'.lines|
    requires Paced(r.lines, from, bound, heartbeatMs) && 0 <= at - LastAt(r.lines, from) < bound
    ensures Paced(r'.lines[..n], from, bound, heartbeatMs)
    ensures LastAt(r'.lines[..n], from) == if n == |r.lines| then LastAt(r.lines, from) else at
    decreases n
  {
    if n == |r.lines| {
    } else {
      PacedMore(r, r', at, n - 1, from, bound, heartbeatMs);
      assert r'.lines[..n] == r'.lines[..n - 1] + [r'.lines[n - 1]];
      PacedOneMore(r'.lines[..n - 1], r'.lines[n - 1], from, bound, heartbeatMs);
    }
  }

  ghost predicate Steady(polls: seq<Poll>, r: Output, startedAt: int, bound: int, o: Options) {
    && Paced(r.lines, startedAt, bound, o.heartbeatMs)
    && r.memory.lastEmitAt == LastAt(r.lines, startedAt)
    && (polls == [] ==> r.lines == [])
    && (polls != [] ==>
          var p := polls[|polls| - 1];
          && r.memory.lastEmitAt <= p.endedAt
          && (r.exit.None? ==> p.endedAt - r.memory.lastEmitAt < if p.result.Some? then o.heartbeatMs else bound)
          && (r.exit.Some? ==> r.lines != [] && r.memory.lastEmitAt == p.endedAt && r.exit != Some(EXIT_TIMEOUT)
                               && !r.lines[|r.lines| - 1].body.Timeout?))
  }

  lemma BeatIsPaced(q: Output, at: int, startedAt: int, bound: int, o: Options)
    requires Accepted(o) && Paced(q.lines, startedAt, bound, o.heartbeatMs)
    requires q.memory.lastEmitAt == LastAt(q.lines, startedAt) && 0 <= at - q.memory.lastEmitAt < bound
    ensures var q' := Beat(q, at, startedAt, o);
            && Paced(q'.lines, startedAt, bound, o.heartbeatMs)
            && q'.memory.lastEmitAt == LastAt(q'.lines, startedAt)
            && 0 <= at - q'.memory.lastEmitAt < o.heartbeatMs
  {
    if at - q.memory.lastEmitAt >= o.heartbeatMs {
      PacedOneMore(q.lines, Line(at, Heartbeat(if q.memory.blind.Some? then "unobservable" else q.memory.lastState, at - startedAt)),
                   startedAt, bound, o.heartbeatMs);
    }
  }

  lemma ReactIsSteady(before: seq<Poll>, p: Poll, r: Output, startedAt: int, bound: int, o: Options)
    requires Accepted(o) && r.exit.None? && p.result.Some? && Steady(before, r, startedAt, bound, o)
    requires 0 <= p.endedAt - r.memory.lastEmitAt < bound
    ensures Steady(before + [p], React(r, p.endedAt, p.result.value, startedAt, o), startedAt, bound, o)
  {
    var at, result := p.endedAt, p.result.value;
    var q := Observed(r, at, result, startedAt, o);
    ObservedAdds(r, at, result, startedAt, o);
    PacedMore(r, q, at, |q.lines|, startedAt, bound, o.heartbeatMs);
    assert q.lines[..|q.lines|] == q.lines;
    if q.exit.None? { BeatIsPaced(q, at, startedAt, bound, o); }
  }

  predicate PollsTakeAtMost(polls: seq<Poll>, ms: int) {
    forall k :: 0 <= k < |polls| ==> polls[k].endedAt - polls[k].startedAt <= ms
  }

  /** The time from the last line to the end of the next poll. */
  lemma NextPollIsNear(before: seq<Poll>, p: Poll, r: Output, startedAt: int, longest: int, o: Options)
    requires Accepted(o) && r.exit.None? && Spaced(before + [p], startedAt, o)
    requires p.endedAt - p.startedAt <= longest
    requires Steady(before, r, startedAt, o.heartbeatMs + o.intervalMs + longest, o)
    ensures 0 <= p.endedAt - r.memory.lastEmitAt < o.heartbeatMs + o.intervalMs + longest
  {
  }

  lemma TurnIsSteady(before: seq<Poll>, p: Poll, r: Output, startedAt: int, longest: int, o: Options)
    requires Accepted(o) && r.exit.None? && Spaced(before + [p], startedAt, o)
    requires p.endedAt - p.startedAt <= longest
    requires Steady(before, r, startedAt, o.heartbeatMs + o.intervalMs + longest, o)
    ensures Steady(before + [p], Turn(r, p, startedAt, o), startedAt, o.heartbeatMs + o.intervalMs + longest, o)
  {
    NextPollIsNear(before, p, r, startedAt, longest, o);
    if p.result.Some? { ReactIsSteady(before, p, r, startedAt, o.heartbeatMs + o.intervalMs + longest, o); }
  }

  lemma {:induction false} TransduceIsSteady(polls: seq<Poll>, startedAt: int, longest: int, o: Options)
    requires Accepted(o) && Spaced(polls, startedAt, o) && PollsTakeAtMost(polls, longest)
    requires polls != [] ==> Transduce(polls[..|polls| - 1], startedAt, o).exit.None?
    ensures Steady(polls, Transduce(polls, startedAt, o), startedAt, o.heartbeatMs + o.intervalMs + longest, o)
  {
    if polls == [] {
    } else {
      var before, p := polls[..|polls| - 1], polls[|polls| - 1];
      TransduceIsSteady(before, startedAt, longest, o);
      TurnIsSteady(before, p, Transduce(before, startedAt, o), startedAt, longest, o);
      assert polls == before + [p];
    }
  }

  /** No long silence, and nothing late: consecutive lines of a run, and its start and first line, are
      less than `bound` apart; the run ends with its last line, no later than the deadline; and it is a
      timeout exactly if it ends at the deadline. */
  ghost predicate RunsOnTime(r: Output, finishedAt: int, startedAt: int, bound: int, o: Options) {
    && Paced(r.lines, startedAt, bound, o.heartbeatMs)
    && finishedAt <= Deadline(startedAt, o)
    && r.lines != [] && r.lines[|r.lines| - 1].at == finishedAt
    && (r.exit == Some(EXIT_TIMEOUT) <==> finishedAt == Deadline(startedAt, o))
    && (r.lines[|r.lines| - 1].body.Timeout? <==> finishedAt == Deadline(startedAt, o))
  }

  /** A run whose polls take at most `longest` is on time. */
  ghost predicate ReportsOnTime(polls: seq<Poll>, finishedAt: int, startedAt: int, longest: int, o: Options) {
    RunsOnTime(Report(polls, finishedAt, startedAt, o), finishedAt, startedAt, o.heartbeatMs + o.intervalMs + longest, o)
  }

  lemma RunIsPaced(polls: seq<Poll>, finishedAt: int, startedAt: int, longest: int, o: Options)
    requires Accepted(o) && Scheduled(polls, finishedAt, startedAt, o) && PollsTakeAtMost(polls, longest)
    ensures ReportsOnTime(polls, finishedAt, startedAt, longest, o)
  {
    TransduceIsSteady(polls, startedAt, longest, o);
    var r := Transduce(polls, startedAt, o);
    if r.exit.None? {
      PacedOneMore(r.lines, Line(finishedAt, Timeout(finishedAt - startedAt)), startedAt,
                   o.heartbeatMs + o.intervalMs + longest, o.heartbeatMs);
    }
  }
}

/** resolveCachedToken (src/client/auth/gatewayAuth.ts), one process among those of RefreshProtocol. The script
    says what the others do, and what becomes of this one's waits and requests, while it awaits. */
module GatewayAuth {
  import opened Common
  import opened TokenDisk
  import opened TokenStores
  import opened RefreshProtocol

  /** The system, what is still to happen, and every step so far. */
  datatype Life = Life(system: System, todo: seq<Action>, past: seq<Action>)

  function Next(l: Life, a: Action): Life {
    l.(system := Step(l.system, a), past := l.past + [a])
  }

  function Actor(a: Action): Option<Pid> {
    if a.Tick? || a.Revoke? || a.ArriveLate? then None else Some(a.p)
  }

  lemma OthersLeaveMe(s: System, a: Action, me: Pid)
    requires Actor(a) != Some(me)
    ensures At(Step(s, a), me) == At(s, me)
    ensures Step(s, a).now == if a.Tick? then s.now + a.ms else s.now
  {
  }

  /** The run so far is a run of the protocol, and the store shows its disk. */
  ghost predicate Linked(store: TokenStore, l: Life, start: System)
    reads store
  {
    Inv(start) && l.system == Run(start, l.past) && store.disk == l.system.disk
  }

  lemma InsideHoldsLock(l: Life, start: System, me: Pid)
    requires Inv(start) && l.system == Run(start, l.past) && At(l.system, me).Inside?
    ensures l.system.disk.writer == Some(me)
    ensures HolderIsRight(l.system, At(l.system, me).origin, At(l.system, me).stage)
  {
    RunKeepsInv(start, l.past);
  }

  predicate InTime(l: Life, due: Option<int>) {
    due.Some? ==> l.system.now <= due.value
  }

  /** What has happened stays so. */
  ghost predicate Later(l: Life, l': Life) {
    l.system.now <= l'.system.now && |l'.todo| <= |l.todo| && l.past <= l'.past
  }

  /** Only this process's own step moves it, and only time moves the clock. */
  ghost predicate Passed(store: TokenStore, l: Life, l': Life, start: System, due: Option<int>)
    reads store
  {
    && Linked(store, l', start) && InTime(l', due) && Later(l, l')
    && At(l'.system, store.me) == At(l.system, store.me)
  }

  /** While this process waits, the next thing on the script happens, if it is another's; the clock stops at `due`. */
  method PassBy(store: TokenStore, l: Life, due: Option<int>, ghost start: System) returns (l': Life)
    requires Linked(store, l, start) && InTime(l, due) && l.todo != []
    modifies store`disk
    ensures Passed(store, l, l', start, due) && |l'.todo| < |l.todo|
  {
    var a := l.todo[0];
    l' := l.(todo := l.todo[1..]);
    if Actor(a) != Some(store.me) {
      if a.Tick? && due.Some? && l.system.now + a.ms > due.value {
        a := Tick(due.value - l.system.now);
      }
      OthersLeaveMe(l.system, a, store.me);
      RunSnoc(start, l.past, a);
      l' := Next(l', a);
      store.disk := l'.system.disk;
    }
  }

  /** This process makes a step; its effect on the disk has been made through the store. */
  lemma OwnStep(l: Life, a: Action, start: System)
    requires Inv(start) && l.system == Run(start, l.past)
    ensures Next(l, a).system == Run(start, Next(l, a).past)
  {
    RunSnoc(start, l.past, a);
  }

  /** BEGIN IMMEDIATE: waits for the lock, at most for the time the connection is set to; None when the script ends first. */
  method AwaitLock(store: TokenStore, l: Life, timeoutMs: Option<int>, ghost start: System) returns (l': Life, locked: Option<bool>)
    requires Linked(store, l, start) && store.busyTimeout == DEFAULT_BUSY_TIMEOUT_MS && At(l.system, store.me).Waiting?
    modifies store
    ensures Linked(store, l', start) && Later(l, l')
    ensures l'.system.now <= l.system.now + (if timeoutMs.Some? then Max(0, timeoutMs.value) else 5000)
    ensures if locked.None? then l'.todo == [] else store.busyTimeout == DEFAULT_BUSY_TIMEOUT_MS
    ensures locked == Some(false) ==>
              store.disk.writer.Some? && l'.system.now >= l.system.now + (if timeoutMs.Some? then Max(0, timeoutMs.value) else 5000)
    ensures var pc := At(l.system, store.me);
            At(l'.system, store.me) == (match locked
                                        case None => pc
                                        case Some(true) => Inside(pc.origin, pc.deadline, Entered)
                                        case Some(false) => Finished(TimedOut))
  {
    var me := store.me;
    var lockBudgetMs := store.BoundWait(timeoutMs);
    var due := l.system.now + store.busyTimeout;
    l' := l;
    while l'.todo != []
      invariant Passed(store, l, l', start, Some(due))
      invariant store.busyTimeout == lockBudgetMs
      decreases |l'.todo|
    {
      var a := l'.todo[0];
      var outOfTime := a == GiveUp(me) && l'.system.now >= due && store.disk.writer.Some?;
      var acquired := false;
      if a == Acquire(me) {
        acquired := store.TryBegin();
      }
      if acquired || outOfTime {
        store.RestoreWait(timeoutMs);
        OwnStep(l', a, start);
        l' := Next(l'.(todo := l'.todo[1..]), a);
        return l', Some(acquired);
      }
      l' := PassBy(store, l', Some(due), start);
    }
    locked := None;
  }

  /** How a request can fail without an answer. An AbortSignal fires when the deadline is reached, not before. */
  predicate CanFail(error: Error, deadline: Option<int>, now: int) {
    error.Network? || (error.Abort? && Overdue(deadline, now))
  }

  /** ... and with one: a refusal whose body cannot be read has an unknown code. */
  predicate CanFailAnswered(error: Error, answer: Answer, deadline: Option<int>, now: int) {
    CanFail(error, deadline, now) || (answer.Refuses? && error == OAuth("unknown_error"))
  }

  /** This process is inside for `origin`, not past its deadline, at `stage`. */
  ghost predicate InsideAt(store: TokenStore, l: Life, start: System, origin: string, deadline: Option<int>, stage: Stage)
    reads store
  {
    Linked(store, l, start) && At(l.system, store.me) == Inside(origin, deadline, stage) && InTime(l, deadline)
  }

  /** discoverEndpoints; None when the script ends first. */
  method AwaitDiscovery(store: TokenStore, l: Life, origin: string, deadline: Option<int>, row: Row, at: int, ghost start: System)
    returns (l': Life, reply: Option<Option<Error>>)
    requires InsideAt(store, l, start, origin, deadline, Discovering(row, at))
    modifies store`disk
    ensures Linked(store, l', start) && Later(l, l') && InTime(l', deadline)
    ensures reply.Some? && reply.value.Some? ==> Plausible(ErrorOutcome(reply.value.value), deadline, l'.system.now)
    ensures if reply.None? then l'.todo == []
            else InsideAt(store, l', start, origin, deadline,
                          if reply.value.Some? then Failing(ErrorOutcome(reply.value.value)) else Granting(row, at))
  {
    var me := store.me;
    l' := l;
    while l'.todo != []
      invariant Passed(store, l, l', start, deadline)
      decreases |l'.todo|
    {
      var a := l'.todo[0];
      if a.Discovered? && a.p == me && (a.failure.Some? ==> CanFail(a.failure.value, deadline, l'.system.now)) {
        OwnStep(l', a, start);
        l' := Next(l'.(todo := l'.todo[1..]), a);
        return l', Some(a.failure);
      }
      l' := PassBy(store, l', deadline, start);
    }
    reply := None;
  }

  datatype Reply = Came(answer: Answer) | Lost(error: Error)

  /** A step of this process that neither takes time nor touches the disk. */
  ghost predicate Moves(l: Life, a: Action, me: Pid, pc: Pc) {
    At(Step(l.system, a), me) == pc && Step(l.system, a).now == l.system.now && Step(l.system, a).disk == l.system.disk
  }

  lemma PresentMoves(l: Life, me: Pid, origin: string, deadline: Option<int>, row: Row, at: int, decision: Decision)
    requires At(l.system, me) == Inside(origin, deadline, Granting(row, at)) && row.refreshToken.Some?
    ensures var (_, answer, spent) := Exchange(l.system.gateway, row.refreshToken.value, decision);
            Moves(l, Present(me, decision), me, Inside(origin, deadline, Answered(row, at, answer, spent)))
  {
  }

  lemma LoseMoves(l: Life, me: Pid, error: Error)
    requires At(l.system, me).Inside? && (At(l.system, me).stage.Granting? || At(l.system, me).stage.Answered?)
    ensures var pc := At(l.system, me);
            Moves(l, Action.Lose(me, error), me, Inside(pc.origin, pc.deadline, Failing(ErrorOutcome(error))))
  {
  }

  /** The refresh token on its way to the gateway. */
  method AwaitPresentation(store: TokenStore, l: Life, origin: string, deadline: Option<int>, row: Row, at: int, ghost start: System)
    returns (l': Life, reply: Option<Reply>, ghost spent: bool)
    requires InsideAt(store, l, start, origin, deadline, Granting(row, at)) && row.refreshToken.Some?
    modifies store`disk
    ensures Linked(store, l', start) && Later(l, l') && InTime(l', deadline)
    ensures match reply
            case None => l'.todo == []
            case Some(Lost(error)) =>
              InsideAt(store, l', start, origin, deadline, Failing(ErrorOutcome(error))) && Plausible(ErrorOutcome(error), deadline, l'.system.now)
            case Some(Came(answer)) => InsideAt(store, l', start, origin, deadline, Answered(row, at, answer, spent))
  {
    var me := store.me;
    l', spent := l, false;
    while l'.todo != []
      invariant Passed(store, l, l', start, deadline)
      decreases |l'.todo|
    {
      var a := l'.todo[0];
      if a.Present? && a.p == me {
        var (_, answer, consumed) := Exchange(l'.system.gateway, row.refreshToken.value, a.decision);
        OwnStep(l', a, start);
        PresentMoves(l', me, origin, deadline, row, at, a.decision);
        return Next(l'.(todo := l'.todo[1..]), a), Some(Came(answer)), consumed;
      }
      if a.Lose? && a.p == me && CanFail(a.error, deadline, l'.system.now) {
        OwnStep(l', a, start);
        LoseMoves(l', me, a.error);
        return Next(l'.(todo := l'.todo[1..]), a), Some(Lost(a.error)), false;
      }
      l' := PassBy(store, l', deadline, start);
    }
    reply := None;
  }

  /** Its answer on the way back; it can still be lost. */
  method AwaitAnswer(
      store: TokenStore, l: Life, origin: string, deadline: Option<int>, row: Row, at: int, answer: Answer,
      ghost spent: bool, ghost start: System)
    returns (l': Life, reply: Option<Reply>)
    requires InsideAt(store, l, start, origin, deadline, Answered(row, at, answer, spent))
    modifies store`disk
    ensures Linked(store, l', start) && Later(l, l') && InTime(l', deadline)
    ensures match reply
            case None => l'.todo == []
            case Some(Lost(error)) =>
              InsideAt(store, l', start, origin, deadline, Failing(ErrorOutcome(error))) && Plausible(ErrorOutcome(error), deadline, l'.system.now)
            case Some(Came(came)) => came == answer && InsideAt(store, l', start, origin, deadline, Answered(row, at, answer, spent))
  {
    var me := store.me;
    l' := l;
    while l'.todo != []
      invariant Passed(store, l, l', start, deadline)
      decreases |l'.todo|
    {
      var a := l'.todo[0];
      if a == Deliver(me) {
        return l'.(todo := l'.todo[1..]), Some(Came(answer));
      }
      if a.Lose? && a.p == me && CanFailAnswered(a.error, answer, deadline, l'.system.now) {
        OwnStep(l', a, start);
        LoseMoves(l', me, a.error);
        return Next(l'.(todo := l'.todo[1..]), a), Some(Lost(a.error));
      }
      l' := PassBy(store, l', deadline, start);
    }
    reply := None;
  }

  /** A timeout does not come before its time, and the refusals that need a login are not passed on as errors. */
  predicate Plausible(result: Outcome, deadline: Option<int>, now: int) {
    && (result.TimedOut? ==> deadline.Some? && deadline.value <= now)
    && (result.Failed? && result.error.OAuth? ==>
          result.error.code != "invalid_grant" && result.error.code != "invalid_client" && result.error.code != "unauthorized_client")
  }

  /** How the function run under the lock ends: with a token to return, or a failure. */
  ghost predicate EndsWith(store: TokenStore, l: Life, start: System, origin: string, deadline: Option<int>, result: Outcome)
    reads store
  {
    && Linked(store, l, start)
    && var pc := At(l.system, store.me);
       && pc.Inside? && pc.origin == origin && pc.deadline == deadline
       && !result.NoToken? && !result.FromCache? && Plausible(result, deadline, l.system.now)
       && if result.FromRefresh? then (pc.stage.Saved? || pc.stage.Leaving?) && Given(pc.stage) == result.access
          else pc.stage == Failing(result)
  }

  /** refreshTokenGrant and what is made of its result. */
  method Grant(store: TokenStore, l: Life, origin: string, deadline: Option<int>, latest: Row, at: int, ghost start: System)
    returns (l': Life, result: Option<Outcome>)
    requires InsideAt(store, l, start, origin, deadline, Granting(latest, at)) && latest.refreshToken.Some?
    modifies store`disk
    ensures Linked(store, l', start) && Later(l, l') && InTime(l', deadline)
    ensures if result.None? then l'.todo == [] else EndsWith(store, l', start, origin, deadline, result.value)
  {
    var reply: Option<Reply>;
    ghost var spent: bool;
    l', reply, spent := AwaitPresentation(store, l, origin, deadline, latest, at, start);
    if reply.Some? && reply.value.Came? {
      l', reply := AwaitAnswer(store, l', origin, deadline, latest, at, reply.value.answer, spent, start);
      if reply.Some? && reply.value.Came? {
        l', result := Receive(store, l', origin, deadline, latest, at, reply.value.answer, spent, start);
        return;
      }
    }
    result := if reply.None? then None else Some(ErrorOutcome(reply.value.error));
  }

  /** The answer is here: a refusal, or tokens, which are saved at once. */
  method Receive(
      store: TokenStore, l: Life, origin: string, deadline: Option<int>, latest: Row, at: int, answer: Answer,
      ghost spent: bool, ghost start: System)
    returns (l': Life, result: Option<Outcome>)
    requires InsideAt(store, l, start, origin, deadline, Answered(latest, at, answer, spent))
    modifies store`disk
    ensures Later(l, l') && InTime(l', deadline) && result.Some? && EndsWith(store, l', start, origin, deadline, result.value)
    ensures match answer
            case Refuses(code) =>
              result.value == if code == "invalid_grant" || code == "invalid_client" || code == "unauthorized_client" then LoginRequired
                              else Failed(OAuth(code))
            case Tokens(access, _, _) => result.value == FromRefresh(access)
  {
    var me := store.me;
    InsideHoldsLock(l, start, me);
    OwnStep(l, Deliver(me), start);
    match answer {
      case Refuses(code) =>
        var failure :=
          if code == "invalid_grant" then LoginRequired
          else if code == "invalid_client" || code == "unauthorized_client" then LoginRequired
          else Failed(OAuth(code));
        l', result := Next(l, Deliver(me)), Some(failure);
      case Tokens(access, refresh, lifetime) =>
        var refreshToken := if refresh.Some? then refresh.value else latest.refreshToken;
        var busy := store.Save(origin, Row(latest.clientId, access, refreshToken, l.system.now + 1000 * lifetime));
        l', result := Next(l, Deliver(me)), Some(FromRefresh(access));
    }
  }

  /** The function that resolveCachedToken runs under the lock. */
  method UnderLock(store: TokenStore, l: Life, origin: string, deadline: Option<int>, ghost start: System)
    returns (l': Life, result: Option<Outcome>)
    requires Linked(store, l, start) && At(l.system, store.me) == Inside(origin, deadline, Entered)
    modifies store`disk
    ensures Linked(store, l', start) && Later(l, l') && (deadline.Some? ==> l'.system.now <= Max(l.system.now, deadline.value))
    ensures if result.None? then l'.todo == [] else EndsWith(store, l', start, origin, deadline, result.value)
  {
    var me, nowMs := store.me, l.system.now;
    OwnStep(l, Recheck(me), start);
    l' := Next(l, Recheck(me));
    if deadline.Some? && deadline.value - nowMs <= 0 {
      return l', Some(TimedOut);
    }
    var latest := store.Get(origin);
    if latest.None? {
      return l', Some(LoginRequired);
    }
    if latest.value.expiresAt - EXPIRY_MARGIN_MS > nowMs {
      return l', Some(FromRefresh(latest.value.accessToken));
    }
    if latest.value.refreshToken.None? {
      return l', Some(LoginRequired);
    }
    var reply: Option<Option<Error>>;
    l', reply := AwaitDiscovery(store, l', origin, deadline, latest.value, nowMs, start);
    if reply.None? || reply.value.Some? {
      return l', if reply.None? then None else Some(ErrorOutcome(reply.value.value));
    }
    l', result := Grant(store, l', origin, deadline, latest.value, nowMs, start);
  }

  /** COMMIT, or ROLLBACK when the function or the commit failed. */
  function Closing(me: Pid, result: Outcome, commitFails: bool): Action {
    if !result.FromRefresh? then Rollback(me) else if commitFails then CommitFails(me) else CommitNow(me)
  }

  /** What the protocol makes of it. */
  lemma Closed(l: Life, start: System, me: Pid, result: Outcome, commitFails: bool)
    requires Inv(start) && l.system == Run(start, l.past) && At(l.system, me).Inside?
    requires var stage := At(l.system, me).stage;
             if result.FromRefresh? then (stage.Saved? || stage.Leaving?) && Given(stage) == result.access else stage == Failing(result)
    ensures var closed, outcome := Step(l.system, Closing(me, result, commitFails)),
                                   if result.FromRefresh? && commitFails then Failed(Error.Commit) else result;
            && At(closed, me) == Finished(outcome) && closed.disk == End(l.system.disk, Closing(me, result, commitFails).CommitNow?)
            && closed.now == l.system.now
            && (outcome.FromRefresh? ==> Lookup(closed.disk.rows, At(l.system, me).origin).Some?
                                         && closed.disk.rows[At(l.system, me).origin].accessToken == outcome.access)
  {
    RunKeepsInv(start, l.past);
    if result.FromRefresh? && !commitFails {
      ReturnedTokenIsStored(l.system, CommitNow(me), me, result.access);
    }
  }

  method Finish(store: TokenStore, l: Life, origin: string, deadline: Option<int>, result: Outcome, ghost start: System)
    returns (l': Life, outcome: Outcome)
    requires EndsWith(store, l, start, origin, deadline, result)
    modifies store`disk
    ensures Later(l, l') && Linked(store, l', start) && l'.system.now == l.system.now
    ensures At(l'.system, store.me) == Finished(outcome) && store.disk.writer.None?
    ensures outcome == result || (outcome == Failed(Error.Commit) && result.FromRefresh?)
    ensures outcome.FromRefresh? ==> origin in store.disk.rows && store.disk.rows[origin].accessToken == outcome.access
    ensures !outcome.FromRefresh? ==> store.disk.rows == old(store.disk.rows)
  {
    var me := store.me;
    InsideHoldsLock(l, start, me);
    var commitFails := l.todo != [] && l.todo[0] == CommitFails(me);
    var a := Closing(me, result, commitFails);
    Closed(l, start, me, result, commitFails);
    store.EndTransaction(a.CommitNow?);
    OwnStep(l, a, start);
    l' := Next(if a.CommitFails? then l.(todo := l.todo[1..]) else l, a);
    outcome := if a.CommitFails? then Failed(Error.Commit) else result;
  }

  /** A process that is not inside sees the committed rows. */
  lemma OutsideSeesRows(l: Life, start: System, me: Pid)
    requires Inv(start) && l.system == Run(start, l.past) && !At(l.system, me).Inside?
    ensures Visible(l.system.disk, me) == l.system.disk.rows
  {
    RunKeepsInv(start, l.past);
  }

  /** What the outcome of a resolution says, `first` being the row it began with. */
  ghost predicate OutcomeAgrees(store: TokenStore, outcome: Outcome, origin: string, first: Option<Row>, began: int)
    reads store
  {
    && (outcome.NoToken? <==> first.None?)
    && (outcome.FromCache? <==> first.Some? && first.value.expiresAt - EXPIRY_MARGIN_MS > began)
    && (first.Some? && first.value.expiresAt - EXPIRY_MARGIN_MS <= began && first.value.refreshToken.None? ==> outcome.LoginRequired?)
    && (outcome.FromCache? ==> outcome.access == first.value.accessToken)
    && (outcome.FromRefresh? ==> origin in store.disk.rows && store.disk.rows[origin].accessToken == outcome.access)
  }

  /** A timeout is reported only when the budget, or without one the wait for the lock, is used up; refusals that need a login
      are not passed on as errors. */
  ghost predicate InItsTime(outcome: Outcome, timeoutMs: Option<int>, used: int) {
    && (outcome.TimedOut? ==> used >= match timeoutMs case Some(ms) => ms case None => 5000)
    && (forall code :: outcome == Failed(OAuth(code)) ==> code !in {"invalid_grant", "invalid_client", "unauthorized_client"})
  }

  /** withExclusiveLock. */
  method RefreshUnderLock(store: TokenStore, l: Life, origin: string, deadline: Option<int>, timeoutMs: Option<int>, ghost start: System)
    returns (l': Life, outcome: Option<Outcome>)
    requires Linked(store, l, start) && At(l.system, store.me) == Waiting(origin, deadline)
    requires store.busyTimeout == DEFAULT_BUSY_TIMEOUT_MS
    requires deadline == if timeoutMs.Some? then Some(l.system.now + timeoutMs.value) else None
    modifies store
    ensures Linked(store, l', start) && Later(l, l')
    ensures if outcome.None? then l'.todo == []
            else && At(l'.system, store.me) == Finished(outcome.value) && store.busyTimeout == DEFAULT_BUSY_TIMEOUT_MS
                 && !outcome.value.NoToken? && !outcome.value.FromCache?
                 && (outcome.value.FromRefresh? ==>
                       origin in store.disk.rows && store.disk.rows[origin].accessToken == outcome.value.access)
    ensures timeoutMs.Some? ==> l'.system.now <= l.system.now + Max(0, timeoutMs.value)
    ensures outcome.Some? ==> InItsTime(outcome.value, timeoutMs, l'.system.now - l.system.now)
  {
    var locked: Option<bool>;
    l', locked := AwaitLock(store, l, timeoutMs, start);
    if locked != Some(true) {
      return l', if locked.None? then None else Some(TimedOut);
    }
    var result: Option<Outcome>;
    l', result := UnderLock(store, l', origin, deadline, start);
    if result.Some? {
      var ended: Outcome;
      l', ended := Finish(store, l', origin, deadline, result.value, start);
      return l', Some(ended);
    }
    outcome := None;
  }

  /** Resolves a usable access token, as one process among the others; None when the script ends first. */
  method ResolveCachedToken(store: TokenStore, l: Life, origin: string, timeoutMs: Option<int>, ghost start: System)
    returns (l': Life, outcome: Option<Outcome>)
    requires Linked(store, l, start) && At(l.system, store.me).Idle? && store.busyTimeout == DEFAULT_BUSY_TIMEOUT_MS
    modifies store
    // Every step, its own and the others', is a step of the protocol.
    ensures Linked(store, l', start) && Later(l, l')
    ensures if outcome.None? then l'.todo == []
            else && At(l'.system, store.me) == Finished(outcome.value) && store.busyTimeout == DEFAULT_BUSY_TIMEOUT_MS
                 && OutcomeAgrees(store, outcome.value, origin, Lookup(l.system.disk.rows, origin), l.system.now)
    // The lock, discovery and the grant share one budget.
    ensures timeoutMs.Some? ==> l'.system.now <= l.system.now + Max(0, timeoutMs.value)
    ensures outcome.Some? ==> InItsTime(outcome.value, timeoutMs, l'.system.now - l.system.now)
  {
    var me, nowMs := store.me, l.system.now;
    OutsideSeesRows(l, start, me);
    OwnStep(l, Start(me, origin, timeoutMs), start);
    var cached := store.Get(origin);
    l' := Next(l, Start(me, origin, timeoutMs));
    if cached.None? {
      return l', Some(NoToken);
    }
    if cached.value.expiresAt - EXPIRY_MARGIN_MS > nowMs {
      return l', Some(FromCache(cached.value.accessToken));
    }
    if cached.value.refreshToken.None? {
      return l', Some(LoginRequired);
    }
    var deadline := if timeoutMs.Some? then Some(nowMs + timeoutMs.value) else None;
    l', outcome := RefreshUnderLock(store, l', origin, deadline, timeoutMs, start);
  }
}
